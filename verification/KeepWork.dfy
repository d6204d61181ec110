/** The steps of a worker up to the start of Convert keep every part of the invariant. */
module KeepWork {
  import opened World
  import Actions
  import opened Protocol
  import opened Invariant
  import opened Moves

  lemma QuitKeepsConversions(w: World, a: ActorId, w': World)
    requires ConversionOk(w)
    requires Actions.Quit(w, a, w')
    ensures ConversionOk(w')
  {}

  lemma BeginKeepsConversions(w: World, a: ActorId, w': World)
    requires WorkerOk(w) && ConversionOk(w)
    requires Actions.BeginConversion(w, a, w')
    ensures ConversionOk(w')
  {}

  lemma RowsOnWork(w: World, s: WorkStep, w': World)
    requires RowsOk(w) && WorkerOk(w)
    requires WorkNext(w, s, w')
    ensures RowsOk(w')
  {}

  lemma DiskAndLeaseOnWork(w: World, s: WorkStep, w': World)
    requires DiskOk(w) && LeaseOk(w)
    requires WorkNext(w, s, w')
    ensures DiskOk(w') && LeaseOk(w')
  {}

  lemma LeaksOnWork(w: World, s: WorkStep, w': World)
    requires RowsOk(w) && LeakOk(w) && QueueOk(w)
    requires WorkNext(w, s, w')
    ensures LeakOk(w')
  {
    if s.Take? {
      assert w.queue[0] in w.queue;
    }
  }

  lemma TakeKeepsJobs(w: World, a: ActorId, w': World)
    requires RowsOk(w) && CreatorOk(w) && BacklogOk(w) && QueueOk(w) && TimerOk(w) && WorkerOk(w)
    requires Actions.Take(w, a, w')
    ensures CreatorOk(w') && BacklogOk(w') && QueueOk(w') && TimerOk(w') && WorkerOk(w')
  {
    HeadIsFresh(w.queue);
    OwnerMoves(w, w.queue[0], InWorker(a));
  }

  lemma ClaimKeepsJobs(w: World, a: ActorId, fail: bool, w': World)
    requires CreatorOk(w) && BacklogOk(w) && QueueOk(w) && TimerOk(w) && WorkerOk(w)
    requires Actions.ClaimStatus(w, a, fail, w')
    ensures CreatorOk(w') && BacklogOk(w') && QueueOk(w') && TimerOk(w') && WorkerOk(w')
  {
    hide CreatorInv, BacklogInv, QueueInv, TimerInv;
  }

  lemma WorkerGoesOn(w: World, s: WorkStep, w': World)
    requires RowsOk(w) && WorkerOk(w)
    requires WorkNext(w, s, w') && !s.Take? && !s.Claim?
    ensures WorkerOk(w')
  {}

  lemma JobsOnWork(w: World, s: WorkStep, w': World)
    requires RowsOk(w) && CreatorOk(w) && BacklogOk(w) && QueueOk(w) && TimerOk(w) && WorkerOk(w)
    requires WorkNext(w, s, w')
    ensures CreatorOk(w') && BacklogOk(w') && QueueOk(w') && TimerOk(w') && WorkerOk(w')
  {
    match s
    case Take(a) => hide *; TakeKeepsJobs(w, a, w');
    case Claim(a, fail) => hide *; ClaimKeepsJobs(w, a, fail, w');
    case _ =>
      hide CreatorInv, BacklogInv, QueueInv, TimerInv, WorkerInv, RowsInv;
      WorkerGoesOn(w, s, w');
  }

  lemma ClaimKeepsWorkDisk(w: World, a: ActorId, fail: bool, w': World)
    requires DiskOk(w) && WorkerOk(w) && WorkDiskOk(w)
    requires Actions.ClaimStatus(w, a, fail, w')
    ensures WorkDiskOk(w')
  {
    hide Complete;
  }

  lemma WorkDiskOnWork(w: World, s: WorkStep, w': World)
    requires DiskOk(w) && WorkerOk(w) && WorkDiskOk(w)
    requires WorkNext(w, s, w')
    ensures WorkDiskOk(w')
  {
    match s
    case Claim(a, fail) => hide *; ClaimKeepsWorkDisk(w, a, fail, w');
    case _ => hide DiskInv, WorkerInv, Complete;
  }

  lemma TakeKeepsPending(w: World, a: ActorId, w': World)
    requires PendingOk(w)
    requires Actions.Take(w, a, w')
    ensures PendingOk(w')
  {}

  lemma ClaimKeepsPending(w: World, a: ActorId, fail: bool, w': World)
    requires WorkerOk(w) && PendingOk(w)
    requires Actions.ClaimStatus(w, a, fail, w')
    ensures PendingOk(w')
  {}

  lemma PendingOnWork(w: World, s: WorkStep, w': World)
    requires WorkerOk(w) && PendingOk(w)
    requires WorkNext(w, s, w')
    ensures PendingOk(w')
  {
    match s
    case Take(a) => hide *; TakeKeepsPending(w, a, w');
    case Quit(a) =>
    case Claim(a, fail) => hide *; ClaimKeepsPending(w, a, fail, w');
    case _ => hide PendingInv, StrandInv; PendingMoves(w, s.a, w'.workers[s.a], w'.rows, w'.hist.stranded);
  }

  lemma TakeKeepsStranded(w: World, a: ActorId, w': World)
    requires QueueOk(w) && StrandOk(w)
    requires Actions.Take(w, a, w')
    ensures StrandOk(w')
  {
    assert w.queue[0] in w.queue;
  }

  lemma StrandOnWork(w: World, s: WorkStep, w': World)
    requires QueueOk(w) && WorkerOk(w) && StrandOk(w)
    requires WorkNext(w, s, w')
    ensures StrandOk(w')
  {
    match s
    case Take(a) => hide *; TakeKeepsStranded(w, a, w');
    case Quit(a) =>
    case _ => hide StrandInv, WorkerInv; StrandMoves(w, s.a, w'.workers[s.a], w'.hist.stranded);
  }

  lemma ConversionsOnWork(w: World, s: WorkStep, w': World)
    requires WorkerOk(w) && ConversionOk(w)
    requires WorkNext(w, s, w')
    ensures ConversionOk(w')
  {
    hide ConversionInv, WorkerInv;
    match s
    case Quit(a) => QuitKeepsConversions(w, a, w');
    case Begin(a) => BeginKeepsConversions(w, a, w');
    case _ => ConversionMoves(w, s.a, w'.workers[s.a]);
  }

  lemma ReaderOnWork(w: World, s: WorkStep, w': World)
    requires ReaderOk(w)
    requires WorkNext(w, s, w')
    ensures ReaderOk(w')
  {}

  lemma DeleterOnWork(w: World, s: WorkStep, w': World)
    requires DeleterOk(w)
    requires WorkNext(w, s, w')
    ensures DeleterOk(w')
  {}

  lemma ClaimKeepsWaits(w: World, a: ActorId, fail: bool, w': World)
    requires DeleterOk(w) && AwaitConversionOk(w)
    requires Actions.ClaimStatus(w, a, fail, w')
    ensures AwaitConversionOk(w')
  {}

  lemma AwaitConversionOnWork(w: World, s: WorkStep, w': World)
    requires DeleterOk(w) && AwaitConversionOk(w)
    requires WorkNext(w, s, w')
    ensures AwaitConversionOk(w')
  {
    match s
    case Quit(a) =>
    case Claim(a, fail) => hide *; ClaimKeepsWaits(w, a, fail, w');
    case _ => hide AwaitConversionInv, DeleterInv; TouchMoves(w, s.a, w'.workers[s.a], w'.states);
  }

  lemma TakeKeepsRetries(w: World, a: ActorId, w': World)
    requires RetryOk(w)
    requires Actions.Take(w, a, w')
    ensures RetryOk(w')
  {
    hide Budget, Capped;
    assert w.queue[0] in w.queue;
  }

  lemma StartKeepsBudget(w: World, a: ActorId, resolved: bool, w': World)
    requires RowsOk(w) && WorkerOk(w) && RetryOk(w)
    requires Actions.StartConvert(w, a, resolved, w')
    ensures a in w'.workers && WorkerOnBudget(w'.workers[a], w'.retry, w'.hist.calls, w'.hist.delay)
    ensures Capped(w.hist.used, w'.retry, w'.hist.calls, w'.hist.delay)
  {
    hide Pow2, JobBudget;
    assert WorkerOnBudget(w.workers[a], w.retry, w.hist.calls, w.hist.delay);
  }

  lemma StageOnWork(w: World, s: WorkStep, w': World)
    requires WorkNext(w, s, w') && !s.Take? && !s.Quit? && !s.Start?
    ensures s.a in w.workers && w.workers[s.a].Job? && s.a in w'.workers && w'.workers[s.a].Job?
    ensures w'.workers[s.a].id == w.workers[s.a].id && w'.hist.calls == w.hist.calls
    ensures BeforeCall(w.workers[s.a].stage)
    ensures var k := w'.workers[s.a].stage; !k.Inspect? && !k.Bump? && !k.Arm?
  {}

  lemma OthersKeepBudget(w: World, s: WorkStep, w': World)
    requires RetryOk(w)
    requires WorkNext(w, s, w') && !s.Take? && !s.Quit? && !s.Start?
    ensures s.a in w'.workers && WorkerOnBudget(w'.workers[s.a], w.retry, w.hist.calls, w.hist.delay)
    ensures w'.hist.calls == w.hist.calls
  {
    hide Pow2, JobBudget, Capped, WorkNext, BeforeCall;
    StageOnWork(w, s, w');
    assert WorkerOnBudget(w.workers[s.a], w.retry, w.hist.calls, w.hist.delay);
  }

  lemma BudgetOnWork(w: World, s: WorkStep, w': World)
    requires RowsOk(w) && WorkerOk(w) && RetryOk(w)
    requires WorkNext(w, s, w') && !s.Take? && !s.Quit?
    ensures s.a in w'.workers && WorkerOnBudget(w'.workers[s.a], w'.retry, w'.hist.calls, w'.hist.delay)
    ensures Capped(w.hist.used, w'.retry, w'.hist.calls, w'.hist.delay)
  {
    if s.Start? {
      hide *;
      StartKeepsBudget(w, s.a, s.resolved, w');
    } else {
      hide RetryInv, WorkerOnBudget, Capped, WorkerInv, RowsInv;
      OthersKeepBudget(w, s, w');
      CappedNow(w);
    }
  }

  lemma JobKeepsRetries(w: World, s: WorkStep, w': World)
    requires CreatorOk(w) && BacklogOk(w) && QueueOk(w) && TimerOk(w) && WorkerOk(w) && RetryOk(w) && RowsOk(w)
    requires WorkNext(w, s, w') && !s.Take? && !s.Quit?
    ensures RetryOk(w')
  {
    hide CreatorInv, BacklogInv, QueueInv, TimerInv, WorkerInv, RowsInv, RetryInv, WorkerOnBudget, Capped;
    JobHasOneHolder(w, s.a);
    BudgetOnWork(w, s, w');
    RetryMoves(w, s.a, w.workers[s.a].id, w'.workers[s.a], w'.retry, w'.hist.calls, w'.hist.delay);
  }

  lemma RetriesOnWork(w: World, s: WorkStep, w': World)
    requires RowsOk(w) && CreatorOk(w) && BacklogOk(w) && QueueOk(w) && TimerOk(w) && WorkerOk(w) && RetryOk(w)
    requires WorkNext(w, s, w')
    ensures RetryOk(w')
  {
    match s
    case Take(a) => hide *; TakeKeepsRetries(w, a, w');
    case Quit(a) => hide JobBudget, WorkerOnBudget, Capped, RowsInv, WorkerInv, CreatorInv, BacklogInv, QueueInv, TimerInv;
    case _ => hide *; JobKeepsRetries(w, s, w');
  }

  lemma ForgetOnWork(w: World, s: WorkStep, w': World)
    requires ForgetOk(w)
    requires WorkNext(w, s, w')
    ensures ForgetOk(w')
  {}

  lemma WorkKeepsInv(w: World, s: WorkStep, w': World)
    requires Inv(w) && WorkNext(w, s, w')
    ensures Inv(w')
  {
    hide RowsInv, DiskInv, LeakInv, CreatorInv, BacklogInv, QueueInv, TimerInv, WorkerInv, WorkDiskInv,
      PendingInv, StrandInv, ConversionInv, LeaseInv, ReaderInv, MarkerInv, DeleterInv, AwaitConversionInv,
      AwaitLeaseInv, RetryInv, ForgetInv;
    RowsOnWork(w, s, w');
    DiskAndLeaseOnWork(w, s, w');
    LeaksOnWork(w, s, w');
    JobsOnWork(w, s, w');
    WorkDiskOnWork(w, s, w');
    PendingOnWork(w, s, w');
    StrandOnWork(w, s, w');
    ConversionsOnWork(w, s, w');
    ReaderOnWork(w, s, w');
    DeleterOnWork(w, s, w');
    AwaitConversionOnWork(w, s, w');
    RetriesOnWork(w, s, w');
    ForgetOnWork(w, s, w');
  }
}
