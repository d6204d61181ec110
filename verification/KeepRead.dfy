/** The steps of Resolve and OpenSource keep every part of the invariant. */
module KeepRead {
  import opened World
  import Actions
  import opened Protocol
  import opened Invariant
  import opened Moves

  lemma ConversionOnRead(w: World, s: ReadStep, w': World)
    requires ConversionOk(w)
    requires ReadNext(w, s, w')
    ensures ConversionOk(w')
  {}

  lemma LeasesOnRead(w: World, s: ReadStep, w': World)
    requires LeaseOk(w)
    requires ReadNext(w, s, w')
    ensures LeaseOk(w')
  {
    hide LeaseInv;
    if s.Release? {
      LeaseReleased(w.readers, w.leases, w.leaseObjs, w.next, s.r);
    } else if s.Acquire? && w.readers[s.r].id !in w.deleting {
      if w.readers[s.r].id in w.leases {
        LeaseTaken(w.readers, w.leases, w.leaseObjs, w.next, s.r, w'.readers[s.r]);
      } else {
        LeaseCreated(w.readers, w.leases, w.leaseObjs, w.next, s.r, w'.readers[s.r]);
      }
    } else {
      LeaseUntouched(w.readers, w'.readers, w.leases, w.leaseObjs, w.next);
    }
  }

  lemma ReaderOnRead(w: World, s: ReadStep, w': World)
    requires RowsOk(w) && ReaderOk(w)
    requires ReadNext(w, s, w')
    ensures ReaderOk(w')
  {}

  lemma AcquireKeepsWaits(w: World, r: ActorId, w': World)
    requires MarkerOk(w) && LeaseOk(w) && AwaitLeaseOk(w)
    requires Actions.AcquireLease(w, r, w')
    ensures AwaitLeaseOk(w')
  {}

  lemma AwaitLeaseOnRead(w: World, s: ReadStep, w': World)
    requires MarkerOk(w) && LeaseOk(w) && AwaitLeaseOk(w)
    requires ReadNext(w, s, w')
    ensures AwaitLeaseOk(w')
  {
    match s
    case Acquire(r) => hide *; AcquireKeepsWaits(w, r, w');
    case _ => hide MarkerInv, LeaseInv, AwaitLeaseInv; WaitsStay(w, w'.readers, w'.leaseObjs);
  }

  lemma ReadKeepsInv(w: World, s: ReadStep, w': World)
    requires Inv(w) && ReadNext(w, s, w')
    ensures Inv(w')
  {
    hide RowsInv, DiskInv, LeakInv, CreatorInv, BacklogInv, QueueInv, TimerInv, WorkerInv, WorkDiskInv,
      PendingInv, StrandInv, ConversionInv, LeaseInv, ReaderInv, MarkerInv, DeleterInv, AwaitConversionInv,
      AwaitLeaseInv, RetryInv, ForgetInv;
    ConversionOnRead(w, s, w');
    LeasesOnRead(w, s, w');
    ReaderOnRead(w, s, w');
    AwaitLeaseOnRead(w, s, w');
  }
}
