/** The steps of boot, recovery and shutdown keep every part of the invariant. */
module KeepSystem {
  import opened Rows
  import opened World
  import Actions
  import opened Protocol
  import opened Invariant
  import opened Moves

  lemma CrashKeeps(w: World)
    requires RowsOk(w) && DiskOk(w)
    ensures Inv(Actions.Crashed(w))
  {
    forall l: Token ensures Holders(map[], l) == {} {}
  }

  lemma RowsAndWorkDiskAndConversionOnSystem(w: World, s: SystemStep, w': World)
    requires QuietOk(w) && RowsOk(w) && WorkDiskOk(w) && ConversionOk(w)
    requires SystemNext(w, s, w')
    ensures RowsOk(w') && WorkDiskOk(w') && ConversionOk(w')
  {}

  lemma ReconcileKeepsDisk(w: World, p: Path, left: Option<Dir>, w': World)
    requires DiskOk(w)
    requires Actions.ReconcileDir(w, p, left, w')
    ensures DiskOk(w')
  {
    hide Complete;
  }

  lemma DiskOnSystem(w: World, s: SystemStep, w': World)
    requires DiskOk(w)
    requires SystemNext(w, s, w')
    ensures DiskOk(w')
  {
    match s
    case Reconcile(p, left) => hide *; ReconcileKeepsDisk(w, p, left, w');
    case _ => hide Complete;
  }

  lemma LeaksOnSystem(w: World, s: SystemStep, w': World)
    requires QuietOk(w) && RowsOk(w) && LeakOk(w) && BacklogOk(w)
    requires SystemNext(w, s, w')
    ensures LeakOk(w')
  {
    if s.Run? {
      forall p | p in w.disk ensures p.id in w.rows {
        assert p in SourceDirs(w.rows);
      }
    } else if s.Resubmit? {
      assert w.phase.backlog[0] in w.phase.backlog;
    }
  }

  lemma RunKeepsJobs(w: World, backlog: seq<FileId>, pool: set<ActorId>, w': World)
    requires QuietOk(w) && RowsOk(w)
    requires Actions.Run(w, backlog, pool, w')
    ensures CreatorOk(w') && BacklogOk(w') && QueueOk(w') && TimerOk(w') && WorkerOk(w') && PendingOk(w')
  {
    forall id ensures id in backlog <==> id in PendingIds(w.rows, w.now) {
      assert id in backlog <==> id in Actions.Elements(backlog);
    }
  }

  lemma ResubmitKeepsJobs(w: World, drop: bool, w': World)
    requires CreatorOk(w) && BacklogOk(w) && QueueOk(w) && TimerOk(w) && WorkerOk(w)
    requires Actions.Resubmit(w, drop, w')
    ensures CreatorOk(w') && BacklogOk(w') && QueueOk(w') && TimerOk(w') && WorkerOk(w')
  {
    var id := w.phase.backlog[0];
    HeadIsFresh(w.phase.backlog);
    if !drop {
      OwnerMoves(w, id, InQueue);
      TailIsFresh(w.queue, id);
    }
  }

  lemma JobsOnSystem(w: World, s: SystemStep, w': World)
    requires QuietOk(w) && RowsOk(w) && CreatorOk(w) && BacklogOk(w) && QueueOk(w) && TimerOk(w) && WorkerOk(w)
    requires SystemNext(w, s, w')
    ensures CreatorOk(w') && BacklogOk(w') && QueueOk(w') && TimerOk(w') && WorkerOk(w')
  {
    match s
    case Run(backlog, pool) => hide *; RunKeepsJobs(w, backlog, pool, w');
    case Resubmit(drop) => hide *; ResubmitKeepsJobs(w, drop, w');
    case _ =>
  }

  lemma ResubmitKeepsPending(w: World, drop: bool, w': World)
    requires QuietOk(w) && BacklogOk(w) && PendingOk(w)
    requires Actions.Resubmit(w, drop, w')
    ensures PendingOk(w')
  {
    HeadIsFresh(w.phase.backlog);
  }

  lemma PendingOnSystem(w: World, s: SystemStep, w': World)
    requires QuietOk(w) && RowsOk(w) && BacklogOk(w) && PendingOk(w)
    requires SystemNext(w, s, w')
    ensures PendingOk(w')
  {
    match s
    case Run(backlog, pool) => hide *; RunKeepsJobs(w, backlog, pool, w');
    case Resubmit(drop) => hide *; ResubmitKeepsPending(w, drop, w');
    case _ =>
  }

  lemma StrandOnSystem(w: World, s: SystemStep, w': World)
    requires QuietOk(w) && BacklogOk(w) && StrandOk(w)
    requires SystemNext(w, s, w')
    ensures StrandOk(w')
  {
    if s.Resubmit? {
      assert w.phase.backlog[0] in w.phase.backlog;
    }
  }

  lemma ReaderAndAwaitConversionOnSystem(w: World, s: SystemStep, w': World)
    requires QuietOk(w) && ReaderOk(w) && AwaitConversionOk(w)
    requires SystemNext(w, s, w')
    ensures ReaderOk(w') && AwaitConversionOk(w')
  {}

  lemma DeleterOnSystem(w: World, s: SystemStep, w': World)
    requires QuietOk(w) && DeleterOk(w)
    requires SystemNext(w, s, w')
    ensures DeleterOk(w')
  {}

  lemma RetriesOnSystem(w: World, s: SystemStep, w': World)
    requires QuietOk(w) && RetryOk(w)
    requires SystemNext(w, s, w')
    ensures RetryOk(w')
  {}

  lemma ForgetOnSystem(w: World, s: SystemStep, w': World)
    requires QuietOk(w) && ForgetOk(w)
    requires SystemNext(w, s, w')
    ensures ForgetOk(w')
  {}

  lemma SystemKeepsInv(w: World, s: SystemStep, w': World)
    requires Inv(w) && SystemNext(w, s, w')
    ensures Inv(w')
  {
    hide RowsInv, DiskInv, LeakInv, CreatorInv, BacklogInv, QueueInv, TimerInv, WorkerInv, WorkDiskInv,
      PendingInv, StrandInv, ConversionInv, LeaseInv, ReaderInv, MarkerInv, DeleterInv, AwaitConversionInv,
      AwaitLeaseInv, RetryInv, ForgetInv;
    if s.Crash? {
      CrashKeeps(w);
    } else {
      RowsAndWorkDiskAndConversionOnSystem(w, s, w');
      DiskOnSystem(w, s, w');
      LeaksOnSystem(w, s, w');
      JobsOnSystem(w, s, w');
      PendingOnSystem(w, s, w');
      StrandOnSystem(w, s, w');
      ReaderAndAwaitConversionOnSystem(w, s, w');
      DeleterOnSystem(w, s, w');
      RetriesOnSystem(w, s, w');
      ForgetOnSystem(w, s, w');
    }
  }
}
