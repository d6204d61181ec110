/** The steps of a deletion that remove the directory and the row keep every part of the invariant. */
module KeepErase {
  import opened Rows
  import opened World
  import Actions
  import opened Protocol
  import opened Invariant
  import opened Moves

  lemma OthersOnErase(w: World, s: EraseStep, w': World)
    requires RowsOk(w) && WorkerOk(w) && PendingOk(w) && MarkerOk(w)
    requires EraseNext(w, s, w')
    ensures RowsOk(w') && WorkerOk(w') && PendingOk(w') && MarkerOk(w')
  {}

  lemma DiskOnErase(w: World, s: EraseStep, w': World)
    requires RowsOk(w) && DiskOk(w) && DeleterOk(w)
    requires EraseNext(w, s, w')
    ensures DiskOk(w')
  {
    hide DiskInv;
    if s.DeleteDir? {
      DiskShrinks(w, w.deleters[s.x].record.dir, s.left);
    } else {
      DiskOutlivesRows(w, w'.rows);
    }
  }

  lemma LeakOnErase(w: World, s: EraseStep, w': World)
    requires LeakOk(w) && DeleterOk(w)
    requires EraseNext(w, s, w')
    ensures LeakOk(w')
  {}

  lemma CreatorOnErase(w: World, s: EraseStep, w': World)
    requires CreatorOk(w) && DeleterOk(w)
    requires EraseNext(w, s, w')
    ensures CreatorOk(w')
  {}

  lemma WorkDiskOnErase(w: World, s: EraseStep, w': World)
    requires WorkerOk(w) && WorkDiskOk(w) && DeleterOk(w) && AwaitConversionOk(w)
    requires EraseNext(w, s, w')
    ensures WorkDiskOk(w')
  {}

  lemma DirGoneKeepsReaders(w: World, x: ActorId, left: Option<Dir>, w': World)
    requires ReaderOk(w) && DeleterOk(w) && AwaitLeaseOk(w)
    requires Actions.DeleteDir(w, x, left, w')
    ensures ReaderOk(w')
  {}

  lemma RowGoneKeepsReaders(w: World, x: ActorId, fail: bool, w': World)
    requires ReaderOk(w)
    requires Actions.DeleteRow(w, x, fail, w')
    ensures ReaderOk(w')
  {}

  lemma ReaderOnErase(w: World, s: EraseStep, w': World)
    requires ReaderOk(w) && DeleterOk(w) && AwaitLeaseOk(w)
    requires EraseNext(w, s, w')
    ensures ReaderOk(w')
  {
    hide ReaderInv, DeleterInv, AwaitLeaseInv, Actions.DeleteDir, Actions.DeleteRow;
    match s
    case DeleteDir(x, left) => DirGoneKeepsReaders(w, x, left, w');
    case DeleteRow(x, fail) => RowGoneKeepsReaders(w, x, fail, w');
  }

  lemma DirGoneKeepsDeleters(w: World, x: ActorId, left: Option<Dir>, w': World)
    requires DeleterOk(w)
    requires Actions.DeleteDir(w, x, left, w')
    ensures DeleterOk(w')
  {}

  lemma RowGoneKeepsDeleters(w: World, x: ActorId, fail: bool, w': World)
    requires RowsOk(w) && MarkerOk(w) && DeleterOk(w)
    requires Actions.DeleteRow(w, x, fail, w')
    ensures DeleterOk(w')
  {}

  lemma DeleterOnErase(w: World, s: EraseStep, w': World)
    requires RowsOk(w) && MarkerOk(w) && DeleterOk(w)
    requires EraseNext(w, s, w')
    ensures DeleterOk(w')
  {
    hide DeleterInv, RowsInv, MarkerInv;
    match s
    case DeleteDir(x, left) => DirGoneKeepsDeleters(w, x, left, w');
    case DeleteRow(x, fail) => RowGoneKeepsDeleters(w, x, fail, w');
  }

  lemma AwaitConversionOnErase(w: World, s: EraseStep, w': World)
    requires AwaitConversionOk(w)
    requires EraseNext(w, s, w')
    ensures AwaitConversionOk(w')
  {}

  lemma AwaitLeaseOnErase(w: World, s: EraseStep, w': World)
    requires AwaitLeaseOk(w)
    requires EraseNext(w, s, w')
    ensures AwaitLeaseOk(w')
  {}

  lemma EraseKeepsInv(w: World, s: EraseStep, w': World)
    requires Inv(w) && EraseNext(w, s, w')
    ensures Inv(w')
  {
    hide RowsInv, DiskInv, LeakInv, CreatorInv, BacklogInv, QueueInv, TimerInv, WorkerInv, WorkDiskInv,
      PendingInv, StrandInv, ConversionInv, LeaseInv, ReaderInv, MarkerInv, DeleterInv, AwaitConversionInv,
      AwaitLeaseInv, RetryInv, ForgetInv;
    OthersOnErase(w, s, w');
    DiskOnErase(w, s, w');
    LeakOnErase(w, s, w');
    CreatorOnErase(w, s, w');
    WorkDiskOnErase(w, s, w');
    ReaderOnErase(w, s, w');
    DeleterOnErase(w, s, w');
    AwaitConversionOnErase(w, s, w');
    AwaitLeaseOnErase(w, s, w');
  }
}
