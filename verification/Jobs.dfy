/** Main results about conversion jobs: one job for a file, one exactly while it is
    needed, a bounded number of attempts, and statuses that never change once terminal. */
module Jobs {
  import opened Rows
  import opened World
  import Actions
  import opened Protocol
  import opened Invariant
  import opened Safety

  // ---------- one job for a file ----------

  /** A job of `id` sits at `loc`: with the creator that will enqueue it, in Run's backlog,
      in the queue, behind a retry timer, or with a worker. */
  ghost predicate JobSits(w: World, id: FileId, loc: Loc) {
    match loc
    case InCreator(a) => a in w.creators && w.creators[a].id == id
    case InBacklog => w.phase.Running? && id in w.phase.backlog
    case InQueue => id in w.queue
    case InTimer(t) => t in w.timers && w.timers[t] == id
    case InWorker(a) => a in w.workers && w.workers[a].Job? && w.workers[a].id == id
  }

  ghost predicate SingleJobs(w: World) {
    && Actions.NoDuplicates(w.queue)
    && (w.phase.Running? ==> Actions.NoDuplicates(w.phase.backlog))
    && forall id, l, m :: JobSits(w, id, l) && JobSits(w, id, m) ==> l == m
  }

  lemma InvSingleJobs(w: World)
    requires Inv(w)
    ensures SingleJobs(w)
  {
    hide LeakInv, RowsInv, DiskInv, WorkDiskInv, ConversionInv, LeaseInv, ReaderInv, MarkerInv, DeleterInv,
      AwaitConversionInv, AwaitLeaseInv, RetryInv, PendingInv, StrandInv, ForgetInv;
  }

  /** In no run do two places hold a job of the same file. */
  lemma AtMostOneJob(ws: seq<World>, ss: seq<Step>, i: nat)
    requires IsRun(ws, ss) && i < |ws|
    ensures SingleJobs(ws[i])
  {
    RunKeepsInv(ws, ss, i);
    InvSingleJobs(ws[i]);
  }

  /** The job that sits at `loc` can still change the status of its file. */
  ghost predicate JobGoesOn(w: World, id: FileId, loc: Loc) {
    JobIn(loc, id, w.phase, w.creators, w.queue, w.timers, w.workers)
  }

  lemma JobsGoOn(w: World, id: FileId)
    requires Inv(w) && w.phase.Running? && !w.stopping
    requires id in w.rows && Visible(w.rows[id], w.now) && IsPending(w.rows[id].status)
    ensures id !in w.hist.stranded ==> id in w.hist.owner && JobGoesOn(w, id, w.hist.owner[id])
  {
    hide LeakInv, DiskInv, WorkDiskInv, ConversionInv, LeaseInv, ReaderInv, MarkerInv, DeleterInv, AwaitConversionInv,
      AwaitLeaseInv, RetryInv, ForgetInv, CreatorInv, BacklogInv, QueueInv, TimerInv, WorkerInv, JobIn, StrandInv;
    assert !PastExpiry(w.rows[id], w.now);
  }

  lemma StrandedJobsDoNot(w: World, id: FileId, l: Loc)
    requires Inv(w) && id in w.hist.stranded
    ensures !JobGoesOn(w, id, l)
  {
    hide LeakInv, RowsInv, DiskInv, WorkDiskInv, ConversionInv, LeaseInv, ReaderInv, MarkerInv, DeleterInv,
      AwaitConversionInv, AwaitLeaseInv, RetryInv, ForgetInv, PendingInv;
  }

  /** A visible file that waits for its conversion has a job that can still settle it if and
      only if no store error in markFailed or fileActive stranded the file, as long as the
      service is up; and no other place holds a job of it. */
  lemma ExactlyOneJob(ws: seq<World>, ss: seq<Step>, i: nat, id: FileId)
    requires IsRun(ws, ss) && i < |ws|
    requires ws[i].phase.Running? && !ws[i].stopping
    requires id in ws[i].rows && Visible(ws[i].rows[id], ws[i].now) && IsPending(ws[i].rows[id].status)
    ensures (exists l :: JobGoesOn(ws[i], id, l)) <==> id !in ws[i].hist.stranded
    ensures forall l :: JobGoesOn(ws[i], id, l) ==> JobSits(ws[i], id, l)
    ensures forall l, m :: JobSits(ws[i], id, l) && JobSits(ws[i], id, m) ==> l == m
  {
    hide Inv, Next;
    var w := ws[i];
    RunKeepsInv(ws, ss, i);
    InvSingleJobs(w);
    JobsGoOn(w, id);
    forall l | id in w.hist.stranded ensures !JobGoesOn(w, id, l) {
      StrandedJobsDoNot(w, id, l);
    }
  }

  // ---------- retries ----------

  /** The counters of one file in this process; the delay after n retries is 2^n - 1 seconds. */
  ghost predicate Bounded(w: World, id: FileId) {
    && At(w.hist.calls, id, 0) <= MAX_RETRIES + 1
    && At(w.retry, id, 0) <= MAX_RETRIES
    && At(w.hist.delay, id, 0) <= 7
    && (forall t | t in w.timers && w.timers[t] == id :: At(w.hist.delay, id, 0) == Pow2(At(w.retry, id, 0)) - 1)
    && (id in w.queue ==> At(w.hist.delay, id, 0) == Pow2(At(w.retry, id, 0)) - 1)
  }

  /** A job calls Convert at most four times and is retried at most three times, and the
      count is forgotten once no place tracks the job, unless the service is stopping. */
  lemma RetriesAreBounded(ws: seq<World>, ss: seq<Step>, i: nat, id: FileId)
    requires IsRun(ws, ss) && i < |ws|
    ensures Bounded(ws[i], id)
    ensures !ws[i].stopping && id in ws[i].retry ==> exists l :: JobSits(ws[i], id, l)
  {
    var w := ws[i];
    RunKeepsInv(ws, ss, i);
    hide LeakInv, RowsInv, DiskInv, WorkDiskInv, ConversionInv, LeaseInv, ReaderInv, MarkerInv, DeleterInv,
      AwaitConversionInv, AwaitLeaseInv, PendingInv, StrandInv, CreatorInv, BacklogInv, QueueInv, TimerInv, WorkerInv,
      WorkerOnBudget;
    assert Pow2(3) == 8;
    assert id in w.queue ==> JobBudget(id, w.retry, w.hist.calls, w.hist.delay);
    if !w.stopping && id in w.retry {
      assert JobSits(w, id, w.hist.owner[id]);
    }
  }

  // ---------- terminal statuses ----------

  /** What a row is created with and never loses. */
  predicate SameFile(row: Row, row': Row) {
    row'.dir == row.dir && row'.purpose == row.purpose && row'.createdAt == row.createdAt && row'.expiresAt == row.expiresAt
  }

  /** A terminal status, its manifest and its error stay; a marked row stays as it is but
      for the tenant; a row that is gone does not come back. */
  ghost predicate RowsSettle(w: World, w': World) {
    && w.now <= w'.now
    && w.hist.added <= w'.hist.added
    && (forall id | id in w.rows && id in w'.rows ::
          && SameFile(w.rows[id], w'.rows[id])
          && (IsTerminal(w.rows[id].status) ==>
                && w'.rows[id].status == w.rows[id].status
                && w'.rows[id].manifestPath == w.rows[id].manifestPath
                && w'.rows[id].errorMessage == w.rows[id].errorMessage)
          && (w.rows[id].deletedAt.Some? ==> w'.rows[id].(tenant := w.rows[id].tenant) == w.rows[id]))
    && (forall id | id in w'.rows :: id in w.rows || id !in w.hist.added)
  }

  lemma SystemSettles(w: World, s: SystemStep, w': World)
    requires RowsOk(w)
    requires SystemNext(w, s, w')
    ensures RowsSettle(w, w')
  {}

  lemma RecordSettles(w: World, s: RecordStep, w': World)
    requires RowsOk(w) && CreatorOk(w)
    requires RecordNext(w, s, w')
    ensures RowsSettle(w, w')
  {}

  lemma ClaimSettles(w: World, a: ActorId, fail: bool, w': World)
    requires RowsOk(w) && WorkerOk(w)
    requires Actions.ClaimStatus(w, a, fail, w')
    ensures RowsSettle(w, w')
  {}

  lemma WorkSettles(w: World, s: WorkStep, w': World)
    requires RowsOk(w) && WorkerOk(w)
    requires WorkNext(w, s, w')
    ensures RowsSettle(w, w')
  {
    match s
    case Claim(a, fail) => hide *; ClaimSettles(w, a, fail, w');
    case _ => hide RowsInv, WorkerInv;
  }

  lemma PublishSettles(w: World, a: ActorId, fail: bool, w': World)
    requires RowsOk(w) && WorkerOk(w)
    requires Actions.PublishStatus(w, a, fail, w')
    ensures RowsSettle(w, w')
  {}

  lemma RejectSettles(w: World, a: ActorId, message: string, fail: bool, w': World)
    requires RowsOk(w) && WorkerOk(w)
    requires Actions.RejectFile(w, a, message, fail, w')
    ensures RowsSettle(w, w')
  {}

  lemma ConvertSettles(w: World, s: ConvertStep, w': World)
    requires RowsOk(w) && WorkerOk(w)
    requires ConvertNext(w, s, w')
    ensures RowsSettle(w, w')
  {
    match s
    case Publish(a, fail) => hide *; PublishSettles(w, a, fail, w');
    case Reject(a, message, fail) => hide *; RejectSettles(w, a, message, fail, w');
    case _ => hide RowsInv, WorkerInv;
  }

  lemma RetrySettles(w: World, s: RetryStep, w': World)
    requires RowsOk(w) && WorkerOk(w)
    requires RetryNext(w, s, w')
    ensures RowsSettle(w, w')
  {}

  lemma DeleteSettles(w: World, s: DeleteStep, w': World)
    requires RowsOk(w)
    requires DeleteNext(w, s, w')
    ensures RowsSettle(w, w')
  {}

  lemma EraseSettles(w: World, s: EraseStep, w': World)
    requires RowsOk(w)
    requires EraseNext(w, s, w')
    ensures RowsSettle(w, w')
  {}

  lemma CreateLeavesRows(w: World, s: CreateStep, w': World)
    requires CreateNext(w, s, w')
    ensures w'.rows == w.rows && w'.now == w.now && w'.hist.added == w.hist.added
  {}

  lemma BackoffLeavesRows(w: World, s: BackoffStep, w': World)
    requires BackoffNext(w, s, w')
    ensures w'.rows == w.rows && w'.now == w.now && w'.hist.added == w.hist.added
  {}

  lemma ReadLeavesRows(w: World, s: ReadStep, w': World)
    requires ReadNext(w, s, w')
    ensures w'.rows == w.rows && w'.now == w.now && w'.hist.added == w.hist.added
  {}

  lemma WaitLeavesRows(w: World, s: WaitStep, w': World)
    requires WaitNext(w, s, w')
    ensures w'.rows == w.rows && w'.now == w.now && w'.hist.added == w.hist.added
  {}

  lemma StepSettles(w: World, s: Step, w': World)
    requires Inv(w) && Next(w, s, w')
    ensures RowsSettle(w, w')
  {
    hide LeakInv, DiskInv, WorkDiskInv, ConversionInv, LeaseInv, ReaderInv, MarkerInv, DeleterInv, AwaitConversionInv,
      AwaitLeaseInv, PendingInv, StrandInv, CreatorInv, WorkerInv, BacklogInv, QueueInv, TimerInv, RetryInv, ForgetInv,
      SystemNext, CreateNext, RecordNext, WorkNext, ConvertNext, RetryNext, BackoffNext, ReadNext, DeleteNext, WaitNext,
      EraseNext;
    match s
    case System(x) => SystemSettles(w, x, w');
    case Create(x) => CreateLeavesRows(w, x, w');
    case Record(x) => RecordSettles(w, x, w');
    case Work(x) => WorkSettles(w, x, w');
    case Convert(x) => ConvertSettles(w, x, w');
    case Retry(x) => RetrySettles(w, x, w');
    case Backoff(x) => BackoffLeavesRows(w, x, w');
    case Read(x) => ReadLeavesRows(w, x, w');
    case Delete(x) => DeleteSettles(w, x, w');
    case Wait(x) => WaitLeavesRows(w, x, w');
    case Erase(x) => EraseSettles(w, x, w');
  }

  lemma SettleOverTwo(u: World, v: World, w: World)
    requires RowsOk(u) && RowsOk(v) && RowsSettle(u, v) && RowsSettle(v, w)
    ensures RowsSettle(u, w)
  {}

  lemma RowsKnown(ws: seq<World>, ss: seq<Step>, i: nat)
    requires IsRun(ws, ss) && i < |ws|
    ensures Inv(ws[i]) && RowsOk(ws[i])
  {
    hide RowsInv;
    RunKeepsInv(ws, ss, i);
  }

  /** Over any stretch of any run, restarts included. */
  lemma {:induction false} StatusesSettle(ws: seq<World>, ss: seq<Step>, i: nat, j: nat)
    requires IsRun(ws, ss) && i <= j < |ws|
    ensures RowsSettle(ws[i], ws[j])
    decreases j - i
  {
    hide Next, Inv, RowsInv;
    RowsKnown(ws, ss, i);
    if i < j {
      StatusesSettle(ws, ss, i, j - 1);
      RowsKnown(ws, ss, j - 1);
      assert StepAt(ws, ss, j - 1);
      StepSettles(ws[j - 1], ss[j - 1], ws[j]);
      SettleOverTwo(ws[i], ws[j - 1], ws[j]);
    }
  }
}
