/** The steps of a worker from Convert to the end of the conversion keep every part of the invariant. */
module KeepConvert {
  import opened World
  import Actions
  import opened Protocol
  import opened Invariant
  import opened Moves

  lemma UnregisterKeepsConversions(w: World, a: ActorId, w': World)
    requires ConversionOk(w)
    requires Actions.EndConversion(w, a, w')
    ensures ConversionOk(w')
  {}

  lemma SignalKeepsConversions(w: World, a: ActorId, w': World)
    requires ConversionOk(w)
    requires Actions.SignalDone(w, a, w')
    ensures ConversionOk(w')
  {}

  lemma RowsOnConvert(w: World, s: ConvertStep, w': World)
    requires RowsOk(w) && WorkerOk(w)
    requires ConvertNext(w, s, w')
    ensures RowsOk(w')
  {}

  lemma WriteKeepsDisk(w: World, a: ActorId, d: Dir, w': World)
    requires RowsOk(w) && DiskOk(w) && WorkerOk(w)
    requires Actions.ConvertWrites(w, a, d, w')
    ensures DiskOk(w')
  {}

  lemma PublishKeepsDisk(w: World, a: ActorId, fail: bool, w': World)
    requires DiskOk(w) && WorkDiskOk(w) && WorkerOk(w)
    requires Actions.PublishStatus(w, a, fail, w')
    ensures DiskOk(w')
  {}

  lemma DiskOnConvert(w: World, s: ConvertStep, w': World)
    requires RowsOk(w) && DiskOk(w) && WorkerOk(w) && WorkDiskOk(w)
    requires ConvertNext(w, s, w')
    ensures DiskOk(w')
  {
    match s
    case Write(a, d) => hide *; WriteKeepsDisk(w, a, d, w');
    case Publish(a, fail) => hide *; PublishKeepsDisk(w, a, fail, w');
    case _ => hide DiskInv; DiskOutlivesRows(w, w'.rows);
  }

  lemma LeakOnConvert(w: World, s: ConvertStep, w': World)
    requires LeakOk(w)
    requires ConvertNext(w, s, w')
    ensures LeakOk(w')
  {}

  lemma WriteKeepsCreators(w: World, a: ActorId, d: Dir, w': World)
    requires CreatorOk(w)
    requires Actions.ConvertWrites(w, a, d, w')
    ensures CreatorOk(w')
  {}

  lemma CreatorOnConvert(w: World, s: ConvertStep, w': World)
    requires CreatorOk(w) && WorkerOk(w)
    requires ConvertNext(w, s, w')
    ensures CreatorOk(w')
  {
    match s
    case Write(a, d) => hide *; WriteKeepsCreators(w, a, d, w');
    case _ =>
  }

  lemma BacklogOnConvert(w: World, s: ConvertStep, w': World)
    requires BacklogOk(w) && WorkerOk(w)
    requires ConvertNext(w, s, w')
    ensures BacklogOk(w')
  {}

  lemma QueueOnConvert(w: World, s: ConvertStep, w': World)
    requires QueueOk(w) && WorkerOk(w)
    requires ConvertNext(w, s, w')
    ensures QueueOk(w')
  {}

  lemma TimerOnConvert(w: World, s: ConvertStep, w': World)
    requires TimerOk(w) && WorkerOk(w)
    requires ConvertNext(w, s, w')
    ensures TimerOk(w')
  {}

  lemma PublishKeepsWorkers(w: World, a: ActorId, fail: bool, w': World)
    requires WorkerOk(w)
    requires Actions.PublishStatus(w, a, fail, w')
    ensures WorkerOk(w')
  {}

  lemma WorkerOnConvert(w: World, s: ConvertStep, w': World)
    requires WorkerOk(w)
    requires ConvertNext(w, s, w')
    ensures WorkerOk(w')
  {
    match s
    case Publish(a, fail) => hide *; PublishKeepsWorkers(w, a, fail, w');
    case _ =>
  }

  lemma WriteKeepsWorkDisk(w: World, a: ActorId, d: Dir, w': World)
    requires WorkerOk(w) && WorkDiskOk(w)
    requires Actions.ConvertWrites(w, a, d, w')
    ensures WorkDiskOk(w')
  {}

  lemma WorkDiskOnConvert(w: World, s: ConvertStep, w': World)
    requires WorkerOk(w) && WorkDiskOk(w)
    requires ConvertNext(w, s, w')
    ensures WorkDiskOk(w')
  {
    match s
    case Write(a, d) => hide *; WriteKeepsWorkDisk(w, a, d, w');
    case _ => hide WorkerInv, Complete;
  }

  lemma PendingOnConvert(w: World, s: ConvertStep, w': World)
    requires PendingOk(w)
    requires ConvertNext(w, s, w')
    ensures PendingOk(w')
  {
    hide PendingInv, StrandInv;
    if !s.Write? {
      PendingMoves(w, s.a, w'.workers[s.a], w'.rows, w'.hist.stranded);
    }
  }

  lemma StrandOnConvert(w: World, s: ConvertStep, w': World)
    requires WorkerOk(w) && StrandOk(w)
    requires ConvertNext(w, s, w')
    ensures StrandOk(w')
  {
    hide StrandInv, WorkerInv;
    if !s.Write? {
      StrandMoves(w, s.a, w'.workers[s.a], w'.hist.stranded);
    }
  }

  lemma ConversionsOnConvert(w: World, s: ConvertStep, w': World)
    requires ConversionOk(w)
    requires ConvertNext(w, s, w')
    ensures ConversionOk(w')
  {
    hide ConversionInv;
    match s
    case Write(a, d) =>
    case Unregister(a) => UnregisterKeepsConversions(w, a, w');
    case Signal(a) => SignalKeepsConversions(w, a, w');
    case _ => ConversionMoves(w, s.a, w'.workers[s.a]);
  }

  lemma WriteKeepsReaders(w: World, a: ActorId, d: Dir, w': World)
    requires WorkerOk(w) && RowsOk(w) && ReaderOk(w)
    requires Actions.ConvertWrites(w, a, d, w')
    ensures ReaderOk(w')
  {}

  lemma ReaderOnConvert(w: World, s: ConvertStep, w': World)
    requires RowsOk(w) && WorkerOk(w) && ReaderOk(w)
    requires ConvertNext(w, s, w')
    ensures ReaderOk(w')
  {
    match s
    case Write(a, d) => hide *; WriteKeepsReaders(w, a, d, w');
    case _ => hide ReaderInv, RowsInv, WorkerInv; ReadersStay(w, w'.rows, w'.hist.processed);
  }

  lemma DeleterOnConvert(w: World, s: ConvertStep, w': World)
    requires DeleterOk(w)
    requires ConvertNext(w, s, w')
    ensures DeleterOk(w')
  {
    hide DeleterInv;
    DeletersStay(w, w'.rows, w'.disk);
  }

  lemma AwaitConversionOnConvert(w: World, s: ConvertStep, w': World)
    requires AwaitConversionOk(w)
    requires ConvertNext(w, s, w')
    ensures AwaitConversionOk(w')
  {
    hide AwaitConversionInv;
    if !s.Write? {
      TouchMoves(w, s.a, w'.workers[s.a], w'.states);
    }
  }

  /** Neither the counters nor the job change, and Convert was called for this job. */
  lemma StageOnConvert(w: World, s: ConvertStep, w': World)
    requires ConvertNext(w, s, w') && !s.Write?
    ensures s.a in w.workers && w.workers[s.a].Job? && s.a in w'.workers
    ensures var j, k := w.workers[s.a], w'.workers[s.a];
      && k == j.(stage := k.stage)
      && !j.stage.Arm? && !BeforeCall(k.stage) && (BeforeCall(j.stage) ==> BeforeCall(k.stage))
      && !k.stage.Inspect? && !k.stage.Bump? && !k.stage.Arm?
  {}

  lemma BudgetOnConvert(w: World, s: ConvertStep, w': World)
    requires RetryOk(w)
    requires ConvertNext(w, s, w') && !s.Write?
    ensures s.a in w'.workers && WorkerOnBudget(w'.workers[s.a], w.retry, w.hist.calls, w.hist.delay)
  {
    hide Budget, Capped, JobBudget, BeforeCall, ConvertNext;
    StageOnConvert(w, s, w');
    assert WorkerOnBudget(w.workers[s.a], w.retry, w.hist.calls, w.hist.delay);
  }

  lemma RetriesOnConvert(w: World, s: ConvertStep, w': World)
    requires CreatorOk(w) && BacklogOk(w) && QueueOk(w) && TimerOk(w) && WorkerOk(w) && RetryOk(w)
    requires ConvertNext(w, s, w')
    ensures RetryOk(w')
  {
    hide CreatorInv, BacklogInv, QueueInv, TimerInv, WorkerInv, RetryInv, WorkerOnBudget;
    if !s.Write? {
      JobHasOneHolder(w, s.a);
      BudgetOnConvert(w, s, w');
      CappedNow(w);
      RetryMoves(w, s.a, w.workers[s.a].id, w'.workers[s.a], w'.retry, w'.hist.calls, w'.hist.delay);
    }
  }

  lemma ForgetOnConvert(w: World, s: ConvertStep, w': World)
    requires ForgetOk(w)
    requires ConvertNext(w, s, w')
    ensures ForgetOk(w')
  {}

  lemma ConvertKeepsInv(w: World, s: ConvertStep, w': World)
    requires Inv(w) && ConvertNext(w, s, w')
    ensures Inv(w')
  {
    hide RowsInv, DiskInv, LeakInv, CreatorInv, BacklogInv, QueueInv, TimerInv, WorkerInv, WorkDiskInv,
      PendingInv, StrandInv, ConversionInv, LeaseInv, ReaderInv, MarkerInv, DeleterInv, AwaitConversionInv,
      AwaitLeaseInv, RetryInv, ForgetInv;
    RowsOnConvert(w, s, w');
    DiskOnConvert(w, s, w');
    LeakOnConvert(w, s, w');
    CreatorOnConvert(w, s, w');
    BacklogOnConvert(w, s, w');
    QueueOnConvert(w, s, w');
    TimerOnConvert(w, s, w');
    WorkerOnConvert(w, s, w');
    WorkDiskOnConvert(w, s, w');
    PendingOnConvert(w, s, w');
    StrandOnConvert(w, s, w');
    ConversionsOnConvert(w, s, w');
    ReaderOnConvert(w, s, w');
    DeleterOnConvert(w, s, w');
    AwaitConversionOnConvert(w, s, w');
    RetriesOnConvert(w, s, w');
    ForgetOnConvert(w, s, w');
  }
}
