/** The steps of a retry with its delay keep every part of the invariant. */
module KeepBackoff {
  import opened World
  import Actions
  import opened Protocol
  import opened Invariant
  import opened Moves

  lemma BumpKeepsRetries(w: World, a: ActorId, w': World)
    requires RowsOk(w) && RetryOk(w) && WorkerOk(w) && a in w.workers && w.workers[a].Job?
    requires SoleHolder(w, a, w.workers[a].id)
    requires Actions.BumpRetry(w, a, w')
    ensures RetryOk(w')
  {
    RetryMoves(w, a, w.workers[a].id, w'.workers[a], w'.retry, w'.hist.calls, w'.hist.delay);
  }

  lemma ArmKeepsRetries(w: World, a: ActorId, t: ActorId, w': World)
    requires RowsOk(w) && RetryOk(w) && WorkerOk(w) && a in w.workers && w.workers[a].Job?
    requires SoleHolder(w, a, w.workers[a].id)
    requires Actions.ArmTimer(w, a, t, w')
    ensures RetryOk(w')
  {
    assert WorkerOnBudget(w.workers[a], w.retry, w.hist.calls, w.hist.delay);
    assert JobBudget(w.workers[a].id, w'.retry, w'.hist.calls, w'.hist.delay);
    RetryMoves(w, a, w.workers[a].id, w'.workers[a], w'.retry, w'.hist.calls, w'.hist.delay);
    hide JobBudget, WorkerOnBudget, Capped;
  }

  lemma ForgetKeepsRetries(w: World, a: ActorId, w': World)
    requires RetryOk(w) && a in w.workers && w.workers[a].Job?
    requires SoleHolder(w, a, w.workers[a].id)
    requires Actions.ForgetRetries(w, a, w')
    ensures RetryOk(w')
  {
    RetryMoves(w, a, w.workers[a].id, w'.workers[a], w'.retry, w'.hist.calls, w'.hist.delay);
  }

  lemma FireKeepsRetries(w: World, t: ActorId, drop: bool, w': World)
    requires RetryOk(w)
    requires Actions.FireTimer(w, t, drop, w')
    ensures RetryOk(w')
  {
    hide Budget, WorkerBudget, Capped;
  }

  lemma LeakOnBackoff(w: World, s: BackoffStep, w': World)
    requires LeakOk(w) && TimerOk(w) && WorkerOk(w)
    requires BackoffNext(w, s, w')
    ensures LeakOk(w')
  {}

  lemma JobsOnBackoff(w: World, s: BackoffStep, w': World)
    requires CreatorOk(w) && BacklogOk(w) && QueueOk(w) && TimerOk(w) && WorkerOk(w)
    requires BackoffNext(w, s, w')
    ensures CreatorOk(w') && BacklogOk(w') && QueueOk(w') && TimerOk(w') && WorkerOk(w')
  {
    if s.Fire? && !s.drop {
      OwnerMoves(w, w.timers[s.t], InQueue);
      TailIsFresh(w.queue, w.timers[s.t]);
    } else if s.Arm? {
      OwnerMoves(w, w.workers[s.a].id, InTimer(s.t));
    }
  }

  lemma WorkDiskOnBackoff(w: World, s: BackoffStep, w': World)
    requires WorkDiskOk(w)
    requires BackoffNext(w, s, w')
    ensures WorkDiskOk(w')
  {}

  lemma PendingOnBackoff(w: World, s: BackoffStep, w': World)
    requires PendingOk(w)
    requires BackoffNext(w, s, w')
    ensures PendingOk(w')
  {}

  lemma StrandOnBackoff(w: World, s: BackoffStep, w': World)
    requires TimerOk(w) && WorkerOk(w) && StrandOk(w)
    requires BackoffNext(w, s, w')
    ensures StrandOk(w')
  {}

  lemma ConversionsOnBackoff(w: World, s: BackoffStep, w': World)
    requires ConversionOk(w)
    requires BackoffNext(w, s, w')
    ensures ConversionOk(w')
  {
    hide ConversionInv;
    if !s.Fire? {
      ConversionMoves(w, s.a, w'.workers[s.a]);
    }
  }

  lemma AwaitConversionOnBackoff(w: World, s: BackoffStep, w': World)
    requires AwaitConversionOk(w)
    requires BackoffNext(w, s, w')
    ensures AwaitConversionOk(w')
  {
    hide AwaitConversionInv;
    if !s.Fire? {
      TouchMoves(w, s.a, w'.workers[s.a], w'.states);
    }
  }

  lemma RetriesOnBackoff(w: World, s: BackoffStep, w': World)
    requires RowsOk(w) && CreatorOk(w) && BacklogOk(w) && QueueOk(w) && TimerOk(w) && WorkerOk(w) && RetryOk(w)
    requires BackoffNext(w, s, w')
    ensures RetryOk(w')
  {
    if s.Fire? {
      FireKeepsRetries(w, s.t, s.drop, w');
    } else {
      hide RetryInv, CreatorInv, BacklogInv, QueueInv, TimerInv;
      JobHasOneHolder(w, s.a);
      match s
      case Bump(a) => BumpKeepsRetries(w, a, w');
      case Arm(a, t) => ArmKeepsRetries(w, a, t, w');
      case Forget(a) => ForgetKeepsRetries(w, a, w');
      case _ =>
    }
  }

  lemma ArmKeepsTracks(w: World, a: ActorId, t: ActorId, w': World)
    requires ForgetOk(w)
    requires Actions.ArmTimer(w, a, t, w')
    ensures ForgetOk(w')
  {}

  lemma FireKeepsTracks(w: World, t: ActorId, drop: bool, w': World)
    requires QuietOk(w) && ForgetOk(w)
    requires Actions.FireTimer(w, t, drop, w')
    ensures ForgetOk(w')
  {}

  lemma ForgetOnBackoff(w: World, s: BackoffStep, w': World)
    requires QuietOk(w) && WorkerOk(w) && ForgetOk(w)
    requires BackoffNext(w, s, w')
    ensures ForgetOk(w')
  {
    match s
    case Arm(a, t) => hide *; ArmKeepsTracks(w, a, t, w');
    case Fire(t, drop) => hide *; FireKeepsTracks(w, t, drop, w');
    case _ =>
  }

  lemma BackoffKeepsInv(w: World, s: BackoffStep, w': World)
    requires Inv(w) && BackoffNext(w, s, w')
    ensures Inv(w')
  {
    hide RowsInv, DiskInv, LeakInv, CreatorInv, BacklogInv, QueueInv, TimerInv, WorkerInv, WorkDiskInv,
      PendingInv, StrandInv, ConversionInv, LeaseInv, ReaderInv, MarkerInv, DeleterInv, AwaitConversionInv,
      AwaitLeaseInv, RetryInv, ForgetInv;
    LeakOnBackoff(w, s, w');
    JobsOnBackoff(w, s, w');
    WorkDiskOnBackoff(w, s, w');
    PendingOnBackoff(w, s, w');
    StrandOnBackoff(w, s, w');
    ConversionsOnBackoff(w, s, w');
    AwaitConversionOnBackoff(w, s, w');
    RetriesOnBackoff(w, s, w');
    ForgetOnBackoff(w, s, w');
  }
}
