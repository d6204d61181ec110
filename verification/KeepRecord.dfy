/** The steps of Create that insert the row and submit the job keep every part of the invariant. */
module KeepRecord {
  import opened World
  import opened Protocol
  import opened Invariant
  import opened Moves

  lemma RowsOnRecord(w: World, s: RecordStep, w': World)
    requires RowsOk(w) && CreatorOk(w)
    requires RecordNext(w, s, w')
    ensures RowsOk(w')
  {}

  lemma DiskOnRecord(w: World, s: RecordStep, w': World)
    requires DiskOk(w) && CreatorOk(w)
    requires RecordNext(w, s, w')
    ensures DiskOk(w')
  {}

  lemma LeakOnRecord(w: World, s: RecordStep, w': World)
    requires LeakOk(w) && CreatorOk(w)
    requires RecordNext(w, s, w')
    ensures LeakOk(w')
  {}

  lemma JobsOnRecord(w: World, s: RecordStep, w': World)
    requires CreatorOk(w) && BacklogOk(w) && QueueOk(w) && TimerOk(w) && WorkerOk(w)
    requires RecordNext(w, s, w')
    ensures CreatorOk(w') && BacklogOk(w') && QueueOk(w') && TimerOk(w') && WorkerOk(w')
  {
    if s.Submit? && !s.drop {
      var id := w.creators[s.a].id;
      OwnerMoves(w, id, InQueue);
      TailIsFresh(w.queue, id);
    }
  }

  lemma WorkDiskAndReaderOnRecord(w: World, s: RecordStep, w': World)
    requires CreatorOk(w) && WorkerOk(w) && WorkDiskOk(w) && ReaderOk(w)
    requires RecordNext(w, s, w')
    ensures WorkDiskOk(w') && ReaderOk(w')
  {}

  lemma PendingOnRecord(w: World, s: RecordStep, w': World)
    requires QuietOk(w) && CreatorOk(w) && PendingOk(w)
    requires RecordNext(w, s, w')
    ensures PendingOk(w')
  {}

  lemma StrandOnRecord(w: World, s: RecordStep, w': World)
    requires CreatorOk(w) && StrandOk(w)
    requires RecordNext(w, s, w')
    ensures StrandOk(w')
  {}

  lemma DeleterAndForgetOnRecord(w: World, s: RecordStep, w': World)
    requires CreatorOk(w) && DeleterOk(w) && ForgetOk(w)
    requires RecordNext(w, s, w')
    ensures DeleterOk(w') && ForgetOk(w')
  {}

  lemma RetriesOnRecord(w: World, s: RecordStep, w': World)
    requires RetryOk(w)
    requires RecordNext(w, s, w')
    ensures RetryOk(w')
  {
    hide Budget, Capped;
  }

  lemma RecordKeepsInv(w: World, s: RecordStep, w': World)
    requires Inv(w) && RecordNext(w, s, w')
    ensures Inv(w')
  {
    hide RowsInv, DiskInv, LeakInv, CreatorInv, BacklogInv, QueueInv, TimerInv, WorkerInv, WorkDiskInv,
      PendingInv, StrandInv, ConversionInv, LeaseInv, ReaderInv, MarkerInv, DeleterInv, AwaitConversionInv,
      AwaitLeaseInv, RetryInv, ForgetInv;
    RowsOnRecord(w, s, w');
    DiskOnRecord(w, s, w');
    LeakOnRecord(w, s, w');
    JobsOnRecord(w, s, w');
    WorkDiskAndReaderOnRecord(w, s, w');
    PendingOnRecord(w, s, w');
    StrandOnRecord(w, s, w');
    DeleterAndForgetOnRecord(w, s, w');
    RetriesOnRecord(w, s, w');
  }
}
