/** The steps of Create up to the stored source keep every part of the invariant. */
module KeepCreate {
  import opened Rows
  import opened World
  import Actions
  import opened Protocol
  import opened Invariant
  import opened Moves

  lemma CreateDirKeepsRetries(w: World, a: ActorId, id: FileId, tenant: string, w': World)
    requires RowsOk(w) && RetryOk(w)
    requires Actions.CreateDir(w, a, id, tenant, w')
    ensures RetryOk(w')
  {
    assert JobBudget(id, w.retry, w.hist.calls, w.hist.delay);
    hide JobBudget, WorkerOnBudget;
  }

  lemma CreateDirKeepsDisk(w: World, a: ActorId, id: FileId, tenant: string, w': World)
    requires RowsOk(w) && DiskOk(w)
    requires Actions.CreateDir(w, a, id, tenant, w')
    ensures DiskOk(w')
  {}

  lemma WriteSourceKeepsDisk(w: World, a: ActorId, fail: bool, w': World)
    requires RowsOk(w) && DiskOk(w) && CreatorOk(w)
    requires Actions.WriteSource(w, a, fail, w')
    ensures DiskOk(w')
  {}

  lemma OthersOnCreate(w: World, s: CreateStep, w': World)
    requires RowsOk(w) && BacklogOk(w) && QueueOk(w) && TimerOk(w) && WorkerOk(w)
    requires CreateNext(w, s, w')
    ensures RowsOk(w') && BacklogOk(w') && QueueOk(w') && TimerOk(w') && WorkerOk(w')
  {}

  lemma DiskOnCreate(w: World, s: CreateStep, w': World)
    requires RowsOk(w) && DiskOk(w) && CreatorOk(w)
    requires CreateNext(w, s, w')
    ensures DiskOk(w')
  {
    hide DiskInv;
    match s
    case CreateDir(a, id, tenant) => CreateDirKeepsDisk(w, a, id, tenant, w');
    case WriteSource(a, fail) => WriteSourceKeepsDisk(w, a, fail, w');
    case Cleanup(a, left) => DiskShrinks(w, w.creators[a].dir, left);
  }

  lemma LeaksOnCreate(w: World, s: CreateStep, w': World)
    requires RowsOk(w) && DiskOk(w) && LeakOk(w) && CreatorOk(w)
    requires CreateNext(w, s, w')
    ensures LeakOk(w')
  {}

  lemma CleanupKeepsCreators(w: World, a: ActorId, left: Option<Dir>, w': World)
    requires CreatorOk(w)
    requires Actions.CleanupDir(w, a, left, w')
    ensures CreatorOk(w')
  {}

  lemma CreateDirKeepsCreators(w: World, a: ActorId, id: FileId, tenant: string, w': World)
    requires RowsOk(w) && DiskOk(w) && CreatorOk(w)
    requires Actions.CreateDir(w, a, id, tenant, w')
    ensures CreatorOk(w')
  {}

  lemma WriteSourceKeepsCreators(w: World, a: ActorId, fail: bool, w': World)
    requires CreatorOk(w)
    requires Actions.WriteSource(w, a, fail, w')
    ensures CreatorOk(w')
  {}

  lemma CreatorOnCreate(w: World, s: CreateStep, w': World)
    requires RowsOk(w) && DiskOk(w) && CreatorOk(w)
    requires CreateNext(w, s, w')
    ensures CreatorOk(w')
  {
    hide RowsInv, DiskInv, CreatorInv, Actions.CreateDir, Actions.WriteSource, Actions.CleanupDir;
    match s
    case CreateDir(a, id, tenant) => CreateDirKeepsCreators(w, a, id, tenant, w');
    case WriteSource(a, fail) => WriteSourceKeepsCreators(w, a, fail, w');
    case Cleanup(a, left) => CleanupKeepsCreators(w, a, left, w');
  }

  lemma WorkDiskOnCreate(w: World, s: CreateStep, w': World)
    requires DiskOk(w) && CreatorOk(w) && WorkerOk(w) && WorkDiskOk(w)
    requires CreateNext(w, s, w')
    ensures WorkDiskOk(w')
  {}

  lemma PendingOnCreate(w: World, s: CreateStep, w': World)
    requires RowsOk(w) && PendingOk(w)
    requires CreateNext(w, s, w')
    ensures PendingOk(w')
  {}

  lemma StrandOnCreate(w: World, s: CreateStep, w': World)
    requires RowsOk(w) && StrandOk(w)
    requires CreateNext(w, s, w')
    ensures StrandOk(w')
  {}

  lemma ReaderOnCreate(w: World, s: CreateStep, w': World)
    requires RowsOk(w) && CreatorOk(w) && ReaderOk(w)
    requires CreateNext(w, s, w')
    ensures ReaderOk(w')
  {}

  lemma DeleterOnCreate(w: World, s: CreateStep, w': World)
    requires RowsOk(w) && DeleterOk(w)
    requires CreateNext(w, s, w')
    ensures DeleterOk(w')
  {}

  lemma RetriesOnCreate(w: World, s: CreateStep, w': World)
    requires RowsOk(w) && RetryOk(w)
    requires CreateNext(w, s, w')
    ensures RetryOk(w')
  {
    match s
    case CreateDir(a, id, tenant) => hide *; CreateDirKeepsRetries(w, a, id, tenant, w');
    case _ => hide JobBudget, WorkerOnBudget, Capped, RowsInv;
  }

  lemma ForgetOnCreate(w: World, s: CreateStep, w': World)
    requires RetryOk(w) && ForgetOk(w)
    requires CreateNext(w, s, w')
    ensures ForgetOk(w')
  {}

  lemma CreateKeepsInv(w: World, s: CreateStep, w': World)
    requires Inv(w) && CreateNext(w, s, w')
    ensures Inv(w')
  {
    hide RowsInv, DiskInv, LeakInv, CreatorInv, BacklogInv, QueueInv, TimerInv, WorkerInv, WorkDiskInv,
      PendingInv, StrandInv, ConversionInv, LeaseInv, ReaderInv, MarkerInv, DeleterInv, AwaitConversionInv,
      AwaitLeaseInv, RetryInv, ForgetInv;
    OthersOnCreate(w, s, w');
    DiskOnCreate(w, s, w');
    LeaksOnCreate(w, s, w');
    CreatorOnCreate(w, s, w');
    WorkDiskOnCreate(w, s, w');
    PendingOnCreate(w, s, w');
    StrandOnCreate(w, s, w');
    ReaderOnCreate(w, s, w');
    DeleterOnCreate(w, s, w');
    RetriesOnCreate(w, s, w');
    ForgetOnCreate(w, s, w');
  }
}
