/** The steps of a deletion that waits for a conversion or a lease keep every part of the invariant. */
module KeepWait {
  import opened World
  import Actions
  import opened Protocol
  import opened Invariant
  import opened Moves

  lemma MarkerOnWait(w: World, s: WaitStep, w': World)
    requires MarkerOk(w)
    requires WaitNext(w, s, w')
    ensures MarkerOk(w')
  {}

  lemma DeletersOnWait(w: World, s: WaitStep, w': World)
    requires DeleterOk(w)
    requires WaitNext(w, s, w')
    ensures DeleterOk(w')
  {
    hide DeleterInv;
    DeleterMoves(w, s.x, w'.deleters[s.x].stage);
  }

  lemma WaiterKnowsConversion(w: World, s: WaitStep, w': World)
    requires ConversionOk(w) && s.x in w.deleters && KnowsConversion(w.deleters[s.x], w.workers, w.states)
    requires WaitNext(w, s, w')
    ensures s.x in w'.deleters && KnowsConversion(w'.deleters[s.x], w.workers, w.states)
  {}

  lemma AwaitConversionOnWait(w: World, s: WaitStep, w': World)
    requires ConversionOk(w) && AwaitConversionOk(w)
    requires WaitNext(w, s, w')
    ensures AwaitConversionOk(w')
  {
    hide KnowsConversion, ConversionInv;
    WaiterKnowsConversion(w, s, w');
  }

  lemma LookKeepsWaits(w: World, x: ActorId, w': World)
    requires LeaseOk(w) && AwaitLeaseOk(w)
    requires Actions.LookForLease(w, x, w')
    ensures AwaitLeaseOk(w')
  {
    assert KnowsLease(w'.deleters[x], w.readers, w.leaseObjs) by { hide Holders; }
    hide KnowsLease, LeaseInv;
  }

  lemma CheckKeepsWaits(w: World, x: ActorId, w': World)
    requires LeaseOk(w) && AwaitLeaseOk(w)
    requires Actions.CheckRefs(w, x, w') || Actions.LeaseDone(w, x, w')
    ensures AwaitLeaseOk(w')
  {
    var l := if w.deleters[x].stage.CheckLease? then w.deleters[x].stage.lease else w.deleters[x].stage.readers;
    assert KnowsLease(w.deleters[x], w.readers, w.leaseObjs);
    NoRefsNoHolder(w.readers, w.leases, w.leaseObjs, w.next, l);
    assert KnowsLease(w'.deleters[x], w.readers, w.leaseObjs);
    hide KnowsLease, LeaseInv;
  }

  lemma AwaitLeaseOnWait(w: World, s: WaitStep, w': World)
    requires LeaseOk(w) && AwaitLeaseOk(w)
    requires WaitNext(w, s, w')
    ensures AwaitLeaseOk(w')
  {
    match s
    case FindLease(x) => hide *; LookKeepsWaits(w, x, w');
    case CheckLease(x) => hide *; CheckKeepsWaits(w, x, w');
    case LeaseDone(x) => hide *; CheckKeepsWaits(w, x, w');
    case _ => hide LeaseInv, OnlyLeasedBy, Unleased;
  }

  lemma WaitKeepsInv(w: World, s: WaitStep, w': World)
    requires Inv(w) && WaitNext(w, s, w')
    ensures Inv(w')
  {
    hide RowsInv, DiskInv, LeakInv, CreatorInv, BacklogInv, QueueInv, TimerInv, WorkerInv, WorkDiskInv,
      PendingInv, StrandInv, ConversionInv, LeaseInv, ReaderInv, MarkerInv, DeleterInv, AwaitConversionInv,
      AwaitLeaseInv, RetryInv, ForgetInv;
    MarkerOnWait(w, s, w');
    DeletersOnWait(w, s, w');
    AwaitConversionOnWait(w, s, w');
    AwaitLeaseOnWait(w, s, w');
  }
}
