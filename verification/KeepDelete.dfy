/** The steps of Delete and the janitor that claim, mark and release keep every part of the invariant. */
module KeepDelete {
  import opened World
  import Actions
  import opened Protocol
  import opened Invariant

  lemma FoundKeepsDeleters(w: World, d: ActorId, api: bool, w': World)
    requires RowsOk(w) && DiskOk(w) && DeleterOk(w) && d in w'.deleters
    requires var x := w'.deleters[d];
      x.id in w.rows && x == Deleter(x.id, w.rows[x.id], api, Snapshot) && w' == w.(deleters := w.deleters[d := x])
    ensures DeleterOk(w')
  {}

  lemma BeginKeepsDeleters(w: World, x: ActorId, w': World)
    requires DeleterOk(w)
    requires Actions.BeginDeletion(w, x, w')
    ensures DeleterOk(w')
  {}

  lemma MarkKeepsDeleters(w: World, x: ActorId, fail: bool, w': World)
    requires DeleterOk(w)
    requires Actions.MarkRow(w, x, fail, w')
    ensures DeleterOk(w')
  {}

  lemma EndKeepsDeleters(w: World, x: ActorId, w': World)
    requires RowsOk(w) && MarkerOk(w) && DeleterOk(w)
    requires Actions.EndDeletion(w, x, w')
    ensures DeleterOk(w')
  {}

  lemma RowsOnDelete(w: World, s: DeleteStep, w': World)
    requires RowsOk(w) && DeleterOk(w)
    requires DeleteNext(w, s, w')
    ensures RowsOk(w')
  {}

  lemma DiskOnDelete(w: World, s: DeleteStep, w': World)
    requires DiskOk(w) && DeleterOk(w)
    requires DeleteNext(w, s, w')
    ensures DiskOk(w')
  {}

  lemma LeakAndWorkerOnDelete(w: World, s: DeleteStep, w': World)
    requires LeakOk(w) && WorkerOk(w)
    requires DeleteNext(w, s, w')
    ensures LeakOk(w') && WorkerOk(w')
  {}

  lemma WorkDiskAndPendingOnDelete(w: World, s: DeleteStep, w': World)
    requires WorkDiskOk(w) && PendingOk(w)
    requires DeleteNext(w, s, w')
    ensures WorkDiskOk(w') && PendingOk(w')
  {}

  lemma ReaderOnDelete(w: World, s: DeleteStep, w': World)
    requires ReaderOk(w)
    requires DeleteNext(w, s, w')
    ensures ReaderOk(w')
  {}

  lemma MarkerOnDelete(w: World, s: DeleteStep, w': World)
    requires MarkerOk(w)
    requires DeleteNext(w, s, w')
    ensures MarkerOk(w')
  {}

  lemma DeletersOnDelete(w: World, s: DeleteStep, w': World)
    requires RowsOk(w) && DiskOk(w) && MarkerOk(w) && DeleterOk(w)
    requires DeleteNext(w, s, w')
    ensures DeleterOk(w')
  {
    hide DeleterInv;
    match s
    case FindVictim(x, id, tenant) => FoundKeepsDeleters(w, x, true, w');
    case FindExpired(x, id) => FoundKeepsDeleters(w, x, false, w');
    case Begin(x) => BeginKeepsDeleters(w, x, w');
    case Mark(x, fail) => MarkKeepsDeleters(w, x, fail, w');
    case End(x) => EndKeepsDeleters(w, x, w');
  }

  lemma AwaitConversionOnDelete(w: World, s: DeleteStep, w': World)
    requires AwaitConversionOk(w)
    requires DeleteNext(w, s, w')
    ensures AwaitConversionOk(w')
  {}

  lemma AwaitLeaseOnDelete(w: World, s: DeleteStep, w': World)
    requires AwaitLeaseOk(w)
    requires DeleteNext(w, s, w')
    ensures AwaitLeaseOk(w')
  {}

  lemma DeleteKeepsInv(w: World, s: DeleteStep, w': World)
    requires Inv(w) && DeleteNext(w, s, w')
    ensures Inv(w')
  {
    hide RowsInv, DiskInv, LeakInv, CreatorInv, BacklogInv, QueueInv, TimerInv, WorkerInv, WorkDiskInv,
      PendingInv, StrandInv, ConversionInv, LeaseInv, ReaderInv, MarkerInv, DeleterInv, AwaitConversionInv,
      AwaitLeaseInv, RetryInv, ForgetInv;
    RowsOnDelete(w, s, w');
    DiskOnDelete(w, s, w');
    LeakAndWorkerOnDelete(w, s, w');
    WorkDiskAndPendingOnDelete(w, s, w');
    ReaderOnDelete(w, s, w');
    MarkerOnDelete(w, s, w');
    DeletersOnDelete(w, s, w');
    AwaitConversionOnDelete(w, s, w');
    AwaitLeaseOnDelete(w, s, w');
  }
}
