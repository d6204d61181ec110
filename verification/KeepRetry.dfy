/** The steps of error handling keep every part of the invariant. */
module KeepRetry {
  import opened World
  import opened Protocol
  import opened Invariant
  import opened Moves

  lemma RowsOnRetry(w: World, s: RetryStep, w': World)
    requires RowsOk(w)
    requires RetryNext(w, s, w')
    ensures RowsOk(w')
  {}

  lemma DiskAndLeakOnRetry(w: World, s: RetryStep, w': World)
    requires DiskOk(w) && LeakOk(w)
    requires RetryNext(w, s, w')
    ensures DiskOk(w') && LeakOk(w')
  {}

  lemma CreatorOnRetry(w: World, s: RetryStep, w': World)
    requires CreatorOk(w) && WorkerOk(w)
    requires RetryNext(w, s, w')
    ensures CreatorOk(w')
  {}

  lemma BacklogAndQueueOnRetry(w: World, s: RetryStep, w': World)
    requires BacklogOk(w) && QueueOk(w) && WorkerOk(w)
    requires RetryNext(w, s, w')
    ensures BacklogOk(w') && QueueOk(w')
  {}

  lemma TimerAndReaderOnRetry(w: World, s: RetryStep, w': World)
    requires TimerOk(w) && WorkerOk(w) && ReaderOk(w)
    requires RetryNext(w, s, w')
    ensures TimerOk(w') && ReaderOk(w')
  {}

  lemma WorkerOnRetry(w: World, s: RetryStep, w': World)
    requires WorkerOk(w)
    requires RetryNext(w, s, w')
    ensures WorkerOk(w')
  {}

  lemma WorkDiskOnRetry(w: World, s: RetryStep, w': World)
    requires WorkDiskOk(w)
    requires RetryNext(w, s, w')
    ensures WorkDiskOk(w')
  {}

  lemma PendingOnRetry(w: World, s: RetryStep, w': World)
    requires PendingOk(w)
    requires RetryNext(w, s, w')
    ensures PendingOk(w')
  {
    hide PendingInv, StrandInv;
    PendingMoves(w, s.a, w'.workers[s.a], w'.rows, w'.hist.stranded);
  }

  lemma StrandOnRetry(w: World, s: RetryStep, w': World)
    requires WorkerOk(w) && StrandOk(w)
    requires RetryNext(w, s, w')
    ensures StrandOk(w')
  {
    hide StrandInv, WorkerInv;
    StrandMoves(w, s.a, w'.workers[s.a], w'.hist.stranded);
  }

  lemma ConversionsOnRetry(w: World, s: RetryStep, w': World)
    requires ConversionOk(w)
    requires RetryNext(w, s, w')
    ensures ConversionOk(w')
  {
    hide ConversionInv;
    ConversionMoves(w, s.a, w'.workers[s.a]);
  }

  lemma DeleterOnRetry(w: World, s: RetryStep, w': World)
    requires DeleterOk(w)
    requires RetryNext(w, s, w')
    ensures DeleterOk(w')
  {}

  lemma AwaitConversionOnRetry(w: World, s: RetryStep, w': World)
    requires AwaitConversionOk(w)
    requires RetryNext(w, s, w')
    ensures AwaitConversionOk(w')
  {
    hide AwaitConversionInv;
    TouchMoves(w, s.a, w'.workers[s.a], w'.states);
  }

  lemma BudgetOnRetry(w: World, s: RetryStep, w': World)
    requires RetryOk(w)
    requires RetryNext(w, s, w')
    ensures s.a in w'.workers && WorkerOnBudget(w'.workers[s.a], w.retry, w.hist.calls, w.hist.delay)
  {
    hide Budget, Capped, JobBudget;
    assert WorkerOnBudget(w.workers[s.a], w.retry, w.hist.calls, w.hist.delay);
  }

  lemma RetriesOnRetry(w: World, s: RetryStep, w': World)
    requires CreatorOk(w) && BacklogOk(w) && QueueOk(w) && TimerOk(w) && WorkerOk(w) && RetryOk(w)
    requires RetryNext(w, s, w')
    ensures RetryOk(w')
  {
    hide CreatorInv, BacklogInv, QueueInv, TimerInv, WorkerInv, RetryInv, WorkerOnBudget;
    JobHasOneHolder(w, s.a);
    BudgetOnRetry(w, s, w');
    CappedNow(w);
    RetryMoves(w, s.a, w.workers[s.a].id, w'.workers[s.a], w'.retry, w'.hist.calls, w'.hist.delay);
  }

  lemma ForgetOnRetry(w: World, s: RetryStep, w': World)
    requires ForgetOk(w)
    requires RetryNext(w, s, w')
    ensures ForgetOk(w')
  {}

  lemma RetryKeepsInv(w: World, s: RetryStep, w': World)
    requires Inv(w) && RetryNext(w, s, w')
    ensures Inv(w')
  {
    hide RowsInv, DiskInv, LeakInv, CreatorInv, BacklogInv, QueueInv, TimerInv, WorkerInv, WorkDiskInv,
      PendingInv, StrandInv, ConversionInv, LeaseInv, ReaderInv, MarkerInv, DeleterInv, AwaitConversionInv,
      AwaitLeaseInv, RetryInv, ForgetInv;
    RowsOnRetry(w, s, w');
    DiskAndLeakOnRetry(w, s, w');
    CreatorOnRetry(w, s, w');
    BacklogAndQueueOnRetry(w, s, w');
    TimerAndReaderOnRetry(w, s, w');
    WorkerOnRetry(w, s, w');
    WorkDiskOnRetry(w, s, w');
    PendingOnRetry(w, s, w');
    StrandOnRetry(w, s, w');
    ConversionsOnRetry(w, s, w');
    DeleterOnRetry(w, s, w');
    AwaitConversionOnRetry(w, s, w');
    RetriesOnRetry(w, s, w');
    ForgetOnRetry(w, s, w');
  }
}
