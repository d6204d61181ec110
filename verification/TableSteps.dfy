/** The step model changes its tables only as the methods of module `Tables` do, and what
    the lease table is worth in every run. */
module TableSteps {
  import opened World
  import opened Protocol
  import opened Invariant
  import opened Frames
  import opened Safety
  import opened Tables

  function LeasesOf(w: World): LeaseView {
    LeaseView(w.leases, w.leaseObjs)
  }

  function ConversionsOf(w: World): ConversionView {
    ConversionView(w.conversions, w.states)
  }

  // ---------- leases ----------

  /** acquireLease in the step model is the method: refused under a marker, otherwise one
      more reader of the entry or a fresh lease. */
  ghost predicate LeaseStep(w: World, s: Step, w': World) {
    if s.Read? && s.read.Acquire? then
      && s.read.r in w.readers
      && var id := w.readers[s.read.r].id;
         if id in w.deleting then LeasesOf(w') == LeasesOf(w)
         else
           var l := if id in w.leases then w.leases[id] else w.next;
           (id !in w.leases ==> l !in w.leaseObjs) && LeasesOf(w') == Acquired(LeasesOf(w), id, l)
    else if s.Read? && s.read.Release? then
      && s.read.r in w.readers && HoldsLease(w.readers[s.read.r])
      && var l := LeaseOf(w.readers[s.read.r]);
         l in w.leaseObjs && w.leaseObjs[l].refs > 0 && LeasesOf(w') == Released(LeasesOf(w), l)
    else LeasesOf(w') == LeasesOf(w)
  }

  lemma ReadIsLeaseStep(w: World, s: ReadStep, w': World)
    requires LeaseOk(w) && ReadNext(w, s, w')
    ensures LeaseStep(w, Read(s), w')
  {}

  /** In every run, every step but a crash. */
  lemma LeasesFollow(ws: seq<World>, ss: seq<Step>, i: nat)
    requires IsRun(ws, ss) && i < |ss| && ss[i] != System(Crash)
    ensures LeaseStep(ws[i], ss[i], ws[i + 1])
  {
    hide Inv, Next, LeaseStep;
    RunKeepsInv(ws, ss, i);
    assert StepAt(ws, ss, i);
    StepIsLeaseStep(ws[i], ss[i], ws[i + 1]);
  }

  lemma StepIsLeaseStep(w: World, s: Step, w': World)
    requires Inv(w) && Next(w, s, w') && s != System(Crash)
    ensures LeaseStep(w, s, w')
  {
    hide RowsInv, DiskInv, LeakInv, CreatorInv, BacklogInv, QueueInv, TimerInv, WorkerInv, WorkDiskInv, PendingInv,
      StrandInv,
      ConversionInv, LeaseInv, ReaderInv, MarkerInv, DeleterInv, AwaitConversionInv, AwaitLeaseInv, RetryInv, ForgetInv,
      SystemNext, CreateNext, RecordNext, WorkNext, ConvertNext, RetryNext, BackoffNext, ReadNext, DeleteNext, WaitNext,
      EraseNext;
    match s
    case System(x) => SystemFrame(w, x, w');
    case Create(x) => CreateFrame(w, x, w');
    case Record(x) => RecordFrame(w, x, w');
    case Work(x) => WorkFrame(w, x, w');
    case Convert(x) => ConvertFrame(w, x, w');
    case Retry(x) => RetryFrame(w, x, w');
    case Backoff(x) => BackoffFrame(w, x, w');
    case Read(x) => ReadIsLeaseStep(w, x, w');
    case Delete(x) => DeleteFrame(w, x, w');
    case Wait(x) => WaitFrame(w, x, w');
    case Erase(x) => EraseFrame(w, x, w');
  }

  /** In every run `refs` is the number of readers that still owe a release, a lease is in
      the table exactly while that is positive, and its channel is closed exactly when it is
      zero again. */
  lemma LeasesAreCounted(ws: seq<World>, ss: seq<Step>, i: nat, l: Token)
    requires IsRun(ws, ss) && i < |ws| && l in ws[i].leaseObjs
    ensures var lease := ws[i].leaseObjs[l];
      && lease.refs == |Holders(ws[i].readers, l)|
      && (lease.refs > 0 <==> lease.id in ws[i].leases && ws[i].leases[lease.id] == l)
      && (lease.closed <==> lease.refs == 0)
  {
    RunKeepsInv(ws, ss, i);
    hide LeakInv, RowsInv, DiskInv, WorkDiskInv, ConversionInv, ReaderInv, MarkerInv, DeleterInv, AwaitConversionInv,
      AwaitLeaseInv, PendingInv, StrandInv, CreatorInv, WorkerInv, BacklogInv, QueueInv, TimerInv, RetryInv, ForgetInv;
  }

  lemma WaitIsOver(w: World, d: ActorId, r: ActorId)
    requires AwaitLeaseOk(w) && d in w.deleters && PastLease(w.deleters[d].stage)
    requires r in w.readers && w.readers[r].id == w.deleters[d].id
    ensures !HoldsLease(w.readers[r])
  {
    assert KnowsLease(w.deleters[d], w.readers, w.leaseObjs);
  }

  /** When waitForLease has returned, no reader holds a lease on the file, and none gets one
      before the deletion ends. */
  lemma NoReaderAfterTheWait(ws: seq<World>, ss: seq<Step>, i: nat, d: ActorId, r: ActorId)
    requires IsRun(ws, ss) && i < |ws| && d in ws[i].deleters && PastLease(ws[i].deleters[d].stage)
    requires r in ws[i].readers && ws[i].readers[r].id == ws[i].deleters[d].id
    ensures !HoldsLease(ws[i].readers[r])
  {
    RunKeepsInv(ws, ss, i);
    hide LeakInv, RowsInv, DiskInv, WorkDiskInv, ConversionInv, ReaderInv, LeaseInv, MarkerInv, DeleterInv,
      AwaitConversionInv,
      PendingInv, StrandInv, CreatorInv, WorkerInv, BacklogInv, QueueInv, TimerInv, RetryInv, ForgetInv, AwaitLeaseInv;
    WaitIsOver(ws[i], d, r);
  }

  // ---------- conversions, markers, retries ----------

  ghost predicate ConversionStep(w: World, s: Step, w': World) {
    if s.Work? && s.work.Begin? then
      && s.work.a in w.workers && w.workers[s.work.a].Job? && w.next !in w.states
      && ConversionsOf(w') == Begun(ConversionsOf(w), w.workers[s.work.a].id, s.work.a, w.next)
    else if s.Convert? && s.convert.Unregister? then
      && s.convert.a in w.workers && w.workers[s.convert.a].Job?
      && ConversionsOf(w') == Unregistered(ConversionsOf(w), w.workers[s.convert.a].id, w.workers[s.convert.a].token)
    else if s.Convert? && s.convert.Signal? then
      && s.convert.a in w.workers && w.workers[s.convert.a].Job?
      && var t := w.workers[s.convert.a].token;
         t in w.states && w.states[t].active && ConversionsOf(w') == Signalled(ConversionsOf(w), t)
    else ConversionsOf(w') == ConversionsOf(w)
  }

  ghost predicate MarkerStep(w: World, s: Step, w': World) {
    if s.Delete? && s.delete.Begin? then
      && s.delete.x in w.deleters
      && var id := w.deleters[s.delete.x].id;
         w'.deleting == if id in w.deleting then w.deleting else w.deleting[id := s.delete.x]
    else if s.Delete? && s.delete.End? then
      && s.delete.x in w.deleters
      && w'.deleting == Unmarked(w.deleting, w.deleters[s.delete.x].id, s.delete.x)
    else w'.deleting == w.deleting
  }

  ghost predicate RetryCountStep(w: World, s: Step, w': World) {
    if s.Backoff? && s.backoff.Bump? then
      && s.backoff.a in w.workers && w.workers[s.backoff.a].Job?
      && var id := w.workers[s.backoff.a].id;
         w'.retry == w.retry[id := At(w.retry, id, 0) + 1]
    else if s.Backoff? && s.backoff.Forget? then
      && s.backoff.a in w.workers && w.workers[s.backoff.a].Job?
      && w'.retry == w.retry - {w.workers[s.backoff.a].id}
    else w'.retry == w.retry
  }

  lemma WorkIsTableStep(w: World, s: WorkStep, w': World)
    requires ConversionOk(w) && WorkNext(w, s, w')
    ensures ConversionStep(w, Work(s), w')
  {}

  lemma ConvertIsTableStep(w: World, s: ConvertStep, w': World)
    requires ConversionOk(w) && ConvertNext(w, s, w')
    ensures ConversionStep(w, Convert(s), w')
  {}

  lemma BackoffIsTableStep(w: World, s: BackoffStep, w': World)
    requires BackoffNext(w, s, w')
    ensures RetryCountStep(w, Backoff(s), w')
  {}

  lemma DeleteIsTableStep(w: World, s: DeleteStep, w': World)
    requires DeleteNext(w, s, w')
    ensures MarkerStep(w, Delete(s), w')
  {}

  /** The other tables change only by their methods too: a conversion is registered under a
      fresh object, unregistered if it is still the entry, and signalled once; a marker is
      set if there is none and removed by its owner; a retry is counted or forgotten. */
  lemma TablesFollow(ws: seq<World>, ss: seq<Step>, i: nat)
    requires IsRun(ws, ss) && i < |ss| && ss[i] != System(Crash)
    ensures ConversionStep(ws[i], ss[i], ws[i + 1])
    ensures MarkerStep(ws[i], ss[i], ws[i + 1]) && RetryCountStep(ws[i], ss[i], ws[i + 1])
  {
    hide Inv, Next, ConversionStep, MarkerStep, RetryCountStep;
    RunKeepsInv(ws, ss, i);
    assert StepAt(ws, ss, i);
    StepIsTableStep(ws[i], ss[i], ws[i + 1]);
  }

  lemma StepIsTableStep(w: World, s: Step, w': World)
    requires Inv(w) && Next(w, s, w') && s != System(Crash)
    ensures ConversionStep(w, s, w') && MarkerStep(w, s, w') && RetryCountStep(w, s, w')
  {
    hide RowsInv, DiskInv, LeakInv, CreatorInv, BacklogInv, QueueInv, TimerInv, WorkerInv, WorkDiskInv, PendingInv,
      StrandInv,
      ConversionInv, LeaseInv, ReaderInv, MarkerInv, DeleterInv, AwaitConversionInv, AwaitLeaseInv, RetryInv, ForgetInv,
      SystemNext, CreateNext, RecordNext, WorkNext, ConvertNext, RetryNext, BackoffNext, ReadNext, DeleteNext, WaitNext,
      EraseNext;
    match s
    case System(x) => SystemFrame(w, x, w');
    case Create(x) => CreateFrame(w, x, w');
    case Record(x) => RecordFrame(w, x, w');
    case Work(x) => WorkFrame(w, x, w'); WorkIsTableStep(w, x, w');
    case Convert(x) => ConvertFrame(w, x, w'); ConvertIsTableStep(w, x, w');
    case Retry(x) => RetryFrame(w, x, w');
    case Backoff(x) => BackoffFrame(w, x, w'); BackoffIsTableStep(w, x, w');
    case Read(x) => ReadFrame(w, x, w');
    case Delete(x) => DeleteFrame(w, x, w'); DeleteIsTableStep(w, x, w');
    case Wait(x) => WaitFrame(w, x, w');
    case Erase(x) => EraseFrame(w, x, w');
  }
}
