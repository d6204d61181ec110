/** The inductive invariant of the file service, in parts.  A part `XInv` takes only the
    components of the state it speaks about, so a step that leaves those alone keeps it;
    `XOk` is the same part read off a state. */
module Invariant {
  import opened Rows
  import opened World
  import opened Actions

  // ---------- rows and directories (durable) ----------

  ghost predicate RowsInv(rows: Table, used: set<FileId>, added: set<FileId>, settled: set<FileId>,
                          processed: set<FileId>, acked: set<FileId>) {
    && rows.Keys <= added <= used
    && processed <= settled <= added && acked <= added
    && (forall id | id in rows ::
          && rows[id].dir.id == id
          && rows[id].expiresAt >= 0
          && (IsTerminal(rows[id].status) <==> id in settled)
          && (rows[id].manifestPath.Some? ==> rows[id].manifestPath.value == rows[id].dir)
          && (rows[id].status == Processed ==> rows[id].manifestPath.Some? && id in processed))
    && (forall id | id in acked :: id !in rows)
  }

  ghost predicate RowsOk(w: World) {
    RowsInv(w.rows, w.hist.used, w.hist.added, w.hist.settled, w.hist.processed, w.hist.acked)
  }

  /** Crash consistency: a row that is not marked has its source, a processed one has
      every artifact its manifest names, and no row's file lives anywhere else. */
  ghost predicate DiskInv(rows: Table, disk: Disk, used: set<FileId>, processed: set<FileId>, torn: set<FileId>,
                          acked: set<FileId>) {
    && torn <= used
    && (forall p | p in disk :: p.id in used && p.id !in acked)
    && (forall p, q | p in disk && q in disk :: p.id == q.id ==> p == q)
    && (forall p | p in disk :: p.id in rows ==> rows[p.id].dir == p)
    && (forall id | id in rows && rows[id].deletedAt.None? ::
          && rows[id].dir in disk && disk[rows[id].dir].source
          && id !in torn)
    && (forall p | p in disk :: p.id in processed && p.id !in torn ==> Complete(disk[p]))
  }

  ghost predicate DiskOk(w: World) {
    DiskInv(w.rows, w.disk, w.hist.used, w.hist.processed, w.hist.torn, w.hist.acked)
  }

  /** While the service runs, every directory belongs to a row or to a creation under way,
      or is what a failed cleanup left. */
  ghost predicate LeakInv(phase: Phase, rows: Table, disk: Disk, creators: map<ActorId, Creator>,
                          added: set<FileId>, leftover: set<Path>, owner: map<FileId, Loc>) {
    phase.Running? ==>
      forall p | p in disk ::
        || p.id in rows
        || p in leftover
        || (p.id !in added && p.id in owner && owner[p.id].InCreator?
            && owner[p.id].a in creators && creators[owner[p.id].a].dir == p)
  }

  ghost predicate LeakOk(w: World) {
    LeakInv(w.phase, w.rows, w.disk, w.creators, w.hist.added, w.hist.leftover, w.hist.owner)
  }

  // ---------- jobs: the history knows the only place a job can be ----------

  ghost predicate CreatorInv(creators: map<ActorId, Creator>, disk: Disk, used: set<FileId>, added: set<FileId>,
                             settled: set<FileId>, torn: set<FileId>, owner: map<FileId, Loc>) {
    forall a | a in creators ::
      var c := creators[a];
      && c.id in used && c.id !in settled && c.dir.id == c.id
      && c.id in owner && owner[c.id] == InCreator(a)
      && (c.stage.Submit? <==> c.id in added)
      && (!c.stage.Submit? ==> c.dir in disk)
      && (c.stage.Written? ==> disk[c.dir].source)
      && (c.stage.Made? || c.stage.Written? ==> c.id !in torn)
  }

  ghost predicate CreatorOk(w: World) {
    CreatorInv(w.creators, w.disk, w.hist.used, w.hist.added, w.hist.settled, w.hist.torn, w.hist.owner)
  }

  ghost predicate JobAt(id: FileId, loc: Loc, added: set<FileId>, settled: set<FileId>, owner: map<FileId, Loc>) {
    id in added && id !in settled && id in owner && owner[id] == loc
  }

  ghost predicate BacklogInv(phase: Phase, added: set<FileId>, settled: set<FileId>, owner: map<FileId, Loc>) {
    phase.Running? ==>
      && NoDuplicates(phase.backlog)
      && forall id | id in phase.backlog :: JobAt(id, InBacklog, added, settled, owner)
  }

  ghost predicate BacklogOk(w: World) {
    BacklogInv(w.phase, w.hist.added, w.hist.settled, w.hist.owner)
  }

  ghost predicate QueueInv(queue: seq<FileId>, added: set<FileId>, settled: set<FileId>, owner: map<FileId, Loc>) {
    && NoDuplicates(queue)
    && forall id | id in queue :: JobAt(id, InQueue, added, settled, owner)
  }

  ghost predicate QueueOk(w: World) {
    QueueInv(w.queue, w.hist.added, w.hist.settled, w.hist.owner)
  }

  ghost predicate TimerInv(timers: map<ActorId, FileId>, added: set<FileId>, settled: set<FileId>,
                           owner: map<FileId, Loc>) {
    forall t | t in timers :: JobAt(timers[t], InTimer(t), added, settled, owner)
  }

  ghost predicate TimerOk(w: World) {
    TimerInv(w.timers, w.hist.added, w.hist.settled, w.hist.owner)
  }

  ghost predicate WorkerInv(workers: map<ActorId, Worker>, rows: Table, added: set<FileId>,
                            settled: set<FileId>, owner: map<FileId, Loc>) {
    forall a | a in workers && workers[a].Job? ::
      var j := workers[a];
      && j.id in added && j.id in owner && owner[j.id] == InWorker(a)
      && (Unsettled(j.stage) ==> j.id !in settled)
      && (HoldsRecord(j.stage) ==> j.dir.id == j.id && (j.id in rows ==> rows[j.id].dir == j.dir))
  }

  ghost predicate WorkerOk(w: World) {
    WorkerInv(w.workers, w.rows, w.hist.added, w.hist.settled, w.hist.owner)
  }

  ghost predicate WorkDiskInv(workers: map<ActorId, Worker>, rows: Table, disk: Disk) {
    forall a | a in workers && workers[a].Job? ::
      var j := workers[a];
      && (Touching(j.stage) ==> j.dir in disk)
      && (j.stage.Publish? && Live(rows, j.id) ==> j.dir in disk && Complete(disk[j.dir]))
  }

  ghost predicate WorkDiskOk(w: World) {
    WorkDiskInv(w.workers, w.rows, w.disk)
  }

  /** The job of `id` is at `loc` and can still change the status of its file. */
  ghost predicate JobIn(loc: Loc, id: FileId, phase: Phase, creators: map<ActorId, Creator>, queue: seq<FileId>,
                        timers: map<ActorId, FileId>, workers: map<ActorId, Worker>) {
    match loc
    case InCreator(a) => a in creators && creators[a].id == id && creators[a].stage.Submit?
    case InBacklog => phase.Running? && id in phase.backlog
    case InQueue => id in queue
    case InTimer(t) => t in timers && timers[t] == id
    case InWorker(a) => a in workers && workers[a].Job? && workers[a].id == id && Unsettled(workers[a].stage)
  }

  /** A file that waits for its conversion has a job, while the service is up. */
  ghost predicate PendingInv(rows: Table, now: int, phase: Phase, stopping: bool, creators: map<ActorId, Creator>,
                             queue: seq<FileId>, timers: map<ActorId, FileId>, workers: map<ActorId, Worker>,
                             stranded: set<FileId>, owner: map<FileId, Loc>) {
    phase.Running? && !stopping ==>
      forall id | Live(rows, id) && IsPending(rows[id].status) && id !in stranded && !PastExpiry(rows[id], now) ::
        id in owner && JobIn(owner[id], id, phase, creators, queue, timers, workers)
  }

  /** A job that a store error stranded went no further, and nothing took its place. */
  ghost predicate StrandInv(workers: map<ActorId, Worker>, added: set<FileId>, stranded: set<FileId>,
                            owner: map<FileId, Loc>) {
    forall id | id in stranded ::
      && id in added && id in owner && owner[id].InWorker?
      && var a := owner[id].w;
         a in workers && workers[a].Job? && workers[a].id == id ==> !Unsettled(workers[a].stage)
  }

  ghost predicate StrandOk(w: World) {
    StrandInv(w.workers, w.hist.added, w.hist.stranded, w.hist.owner)
  }

  ghost predicate PendingOk(w: World) {
    PendingInv(w.rows, w.now, w.phase, w.stopping, w.creators, w.queue, w.timers, w.workers, w.hist.stranded, w.hist.owner)
  }

  // ---------- conversion registration ----------

  ghost predicate ConversionInv(workers: map<ActorId, Worker>, conversions: map<FileId, Token>,
                                states: map<Token, Conversion>, next: Token) {
    && (forall t | t in states :: t < next)
    && (forall a | a in workers && workers[a].Job? && OwesSignal(workers[a].stage) ::
          && workers[a].token in states
          && states[workers[a].token] == Conversion(workers[a].id, a, true))
    && (forall a | a in workers && workers[a].Job? && Registered(workers[a].stage) ::
          workers[a].id in conversions && conversions[workers[a].id] == workers[a].token)
    && (forall t | t in states && states[t].active ::
          var a := states[t].owner;
          && a in workers && workers[a].Job? && workers[a].token == t && OwesSignal(workers[a].stage))
    && (forall id | id in conversions ::
          && conversions[id] in states && states[conversions[id]].id == id && states[conversions[id]].active
          && var a := states[conversions[id]].owner; a in workers && workers[a].Job? && Registered(workers[a].stage))
  }

  ghost predicate ConversionOk(w: World) {
    ConversionInv(w.workers, w.conversions, w.states, w.next)
  }

  // ---------- leases ----------

  ghost function Holders(readers: map<ActorId, Reader>, l: Token): set<ActorId> {
    set r | r in readers && HoldsLease(readers[r]) && LeaseOf(readers[r]) == l
  }

  ghost predicate LeaseInv(readers: map<ActorId, Reader>, leases: map<FileId, Token>,
                           objs: map<Token, Lease>, next: Token) {
    && (forall l | l in objs :: l < next)
    && (forall r | r in readers && HoldsLease(readers[r]) ::
          readers[r].id in leases && leases[readers[r].id] == LeaseOf(readers[r]))
    && (forall id | id in leases :: leases[id] in objs && objs[leases[id]].id == id && !objs[leases[id]].closed)
    && (forall l | l in objs ::
          && objs[l].refs == |Holders(readers, l)|
          && (objs[l].closed <==> objs[l].refs == 0)
          && (!objs[l].closed ==> objs[l].id in leases && leases[objs[l].id] == l))
  }

  ghost predicate LeaseOk(w: World) {
    LeaseInv(w.readers, w.leases, w.leaseObjs, w.next)
  }

  /** What a reader with a lease may rely on. */
  ghost predicate ReaderInv(readers: map<ActorId, Reader>, rows: Table, disk: Disk, added: set<FileId>,
                            processed: set<FileId>) {
    forall r | r in readers ::
      var d := readers[r];
      && d.id in added && d.record.dir.id == d.id && (d.id in rows ==> rows[d.id].dir == d.record.dir)
      && (d.manifest ==> d.id in processed && d.record.manifestPath == Some(d.record.dir))
      && (d.stage.Reading? ==>
            && d.record.dir in disk
            && (if d.manifest then disk[d.record.dir].manifest == Some(d.stage.named) else disk[d.record.dir].source))
  }

  ghost predicate ReaderOk(w: World) {
    ReaderInv(w.readers, w.rows, w.disk, w.hist.added, w.hist.processed)
  }

  // ---------- deletion ----------

  ghost predicate MarkerInv(deleters: map<ActorId, Deleter>, deleting: map<FileId, ActorId>) {
    && (forall d | d in deleters && Claimed(deleters[d].stage) ::
          deleters[d].id in deleting && deleting[deleters[d].id] == d)
    && (forall id | id in deleting ::
          deleting[id] in deleters && deleters[deleting[id]].id == id && Claimed(deleters[deleting[id]].stage))
  }

  ghost predicate MarkerOk(w: World) {
    MarkerInv(w.deleters, w.deleting)
  }

  ghost predicate NoDirOf(disk: Disk, id: FileId) {
    forall p | p in disk :: p.id != id
  }

  ghost predicate DeleterInv(deleters: map<ActorId, Deleter>, rows: Table, disk: Disk, added: set<FileId>,
                             acked: set<FileId>) {
    forall d | d in deleters ::
      var x := deleters[d];
      && x.id in added && x.record.dir.id == x.id
      && (x.id in rows ==> rows[x.id].dir == x.record.dir && rows[x.id].tenant == x.record.tenant)
      && (forall p | p in disk :: p.id == x.id ==> p == x.record.dir)
      && (x.record.deletedAt.Some? ==> !Live(rows, x.id))
      && (PastMark(x.stage) ==> !Live(rows, x.id))
      && (PastMark(x.stage) && !x.stage.End? && (x.api || x.record.deletedAt.None?) ==> x.id in rows)
      && (x.stage.RemoveRow? ==> NoDirOf(disk, x.id))
      && (x.stage == End(true) ==> x.id !in rows && x.id !in acked && NoDirOf(disk, x.id))
  }

  ghost predicate DeleterOk(w: World) {
    DeleterInv(w.deleters, w.rows, w.disk, w.hist.added, w.hist.acked)
  }

  /** Only the worker registered as `t` may be working on the files of `id`. */
  ghost predicate OnlyTouchedBy(workers: map<ActorId, Worker>, id: FileId, t: Token) {
    forall a | a in workers && workers[a].Job? && workers[a].id == id && Touching(workers[a].stage) :: workers[a].token == t
  }

  ghost predicate Untouched(workers: map<ActorId, Worker>, id: FileId) {
    forall a | a in workers && workers[a].Job? && workers[a].id == id :: !Touching(workers[a].stage)
  }

  /** A deleter that looked for a conversion knows the only one that matters. */
  ghost predicate KnowsConversion(x: Deleter, workers: map<ActorId, Worker>, states: map<Token, Conversion>) {
    match x.stage
    case CheckConversion(t) => t in states && OnlyTouchedBy(workers, x.id, t)
    case AwaitConversion(t) => t in states && OnlyTouchedBy(workers, x.id, t)
    case s => PastConversion(s) ==> Untouched(workers, x.id)
  }

  ghost predicate AwaitConversionInv(deleters: map<ActorId, Deleter>, workers: map<ActorId, Worker>,
                                     states: map<Token, Conversion>) {
    forall d | d in deleters :: KnowsConversion(deleters[d], workers, states)
  }

  ghost predicate AwaitConversionOk(w: World) {
    AwaitConversionInv(w.deleters, w.workers, w.states)
  }

  ghost predicate OnlyLeasedBy(readers: map<ActorId, Reader>, id: FileId, l: Token) {
    forall r | r in readers && readers[r].id == id && HoldsLease(readers[r]) :: LeaseOf(readers[r]) == l
  }

  ghost predicate Unleased(readers: map<ActorId, Reader>, id: FileId) {
    forall r | r in readers && readers[r].id == id :: !HoldsLease(readers[r])
  }

  /** A deleter that looked for a lease knows the only one that matters. */
  ghost predicate KnowsLease(x: Deleter, readers: map<ActorId, Reader>, objs: map<Token, Lease>) {
    match x.stage
    case CheckLease(l) => l in objs && objs[l].id == x.id && OnlyLeasedBy(readers, x.id, l)
    case AwaitLease(l) => l in objs && objs[l].id == x.id && OnlyLeasedBy(readers, x.id, l)
    case s => PastLease(s) ==> Unleased(readers, x.id)
  }

  ghost predicate AwaitLeaseInv(deleters: map<ActorId, Deleter>, readers: map<ActorId, Reader>,
                                objs: map<Token, Lease>) {
    forall d | d in deleters :: KnowsLease(deleters[d], readers, objs)
  }

  ghost predicate AwaitLeaseOk(w: World) {
    AwaitLeaseInv(w.deleters, w.readers, w.leaseObjs)
  }

  // ---------- retries ----------

  /** `r` retries so far, `c` calls of Convert, `d` seconds of delay: at most `extra`
      calls more than retries. */
  ghost predicate Budget(extra: nat, r: nat, c: nat, d: nat) {
    r <= MAX_RETRIES && c <= r + extra && d == Pow2(r) - 1
  }

  predicate BeforeCall(s: WorkStage) {
    s.Begin? || s.Lookup? || s.Claim? || s.Start?
  }

  ghost predicate WorkerBudget(s: WorkStage, r: nat, c: nat, d: nat) {
    && (!s.Arm? ==> Budget(if BeforeCall(s) then 0 else 1, r, c, d))
    && (s.Inspect? || s.Bump? ==> s.retries == r < MAX_RETRIES)
    && (s.Arm? ==> r == s.retries + 1 <= MAX_RETRIES && c <= r && d == Pow2(s.retries) - 1)
  }

  ghost predicate JobBudget(id: FileId, retry: map<FileId, nat>, calls: map<FileId, nat>, delay: map<FileId, nat>) {
    Budget(0, At(retry, id, 0), At(calls, id, 0), At(delay, id, 0))
  }

  ghost predicate WorkerOnBudget(j: Worker, retry: map<FileId, nat>, calls: map<FileId, nat>, delay: map<FileId, nat>) {
    j.Job? ==> WorkerBudget(j.stage, At(retry, j.id, 0), At(calls, j.id, 0), At(delay, j.id, 0))
  }

  /** Also for IDs whose job is over. */
  ghost predicate Capped(used: set<FileId>, retry: map<FileId, nat>, calls: map<FileId, nat>, delay: map<FileId, nat>) {
    && (forall id | id in calls :: id in used && calls[id] <= MAX_RETRIES + 1)
    && (forall id | id in delay :: id in used && delay[id] <= Pow2(MAX_RETRIES) - 1)
    && (forall id | id in retry :: id in used && retry[id] <= MAX_RETRIES)
  }

  ghost predicate RetryInv(phase: Phase, creators: map<ActorId, Creator>, queue: seq<FileId>,
                           timers: map<ActorId, FileId>,
                           workers: map<ActorId, Worker>, retry: map<FileId, nat>, used: set<FileId>,
                           calls: map<FileId, nat>, delay: map<FileId, nat>) {
    && Capped(used, retry, calls, delay)
    && (forall a | a in creators :: JobBudget(creators[a].id, retry, calls, delay))
    && (phase.Running? ==> forall id | id in phase.backlog :: JobBudget(id, retry, calls, delay))
    && (forall id | id in queue :: JobBudget(id, retry, calls, delay))
    && (forall t | t in timers :: JobBudget(timers[t], retry, calls, delay))
    && (forall a | a in workers :: WorkerOnBudget(workers[a], retry, calls, delay))
  }

  ghost predicate RetryOk(w: World) {
    RetryInv(w.phase, w.creators, w.queue, w.timers, w.workers, w.retry, w.hist.used, w.hist.calls, w.hist.delay)
  }

  /** A worker, a timer or the queue still has the job whose retries are counted. */
  ghost predicate TrackedIn(loc: Loc, id: FileId, queue: seq<FileId>, timers: map<ActorId, FileId>,
                            workers: map<ActorId, Worker>) {
    match loc
    case InCreator(a) => false
    case InBacklog => false
    case InQueue => id in queue
    case InTimer(t) => t in timers && timers[t] == id
    case InWorker(a) => a in workers && workers[a].Job? && workers[a].id == id
  }

  ghost predicate ForgetInv(stopping: bool, queue: seq<FileId>, timers: map<ActorId, FileId>,
                            workers: map<ActorId, Worker>,
                            retry: map<FileId, nat>, owner: map<FileId, Loc>) {
    !stopping ==> forall id | id in retry :: id in owner && TrackedIn(owner[id], id, queue, timers, workers)
  }

  ghost predicate ForgetOk(w: World) {
    ForgetInv(w.stopping, w.queue, w.timers, w.workers, w.retry, w.hist.owner)
  }

  // ---------- the whole ----------

  /** Nothing runs before Run has started it. */
  ghost predicate QuietOk(w: World) {
    && (!w.phase.Running? ==>
          && w.queue == [] && w.timers == map[] && w.retry == map[] && w.conversions == map[] && w.states == map[]
          && w.leases == map[] && w.leaseObjs == map[] && w.deleting == map[] && w.creators == map[] && w.workers == map[]
          && w.readers == map[] && w.deleters == map[] && !w.stopping
          && w.hist.owner == map[] && w.hist.calls == map[] && w.hist.delay == map[])
    && (w.closed ==> w.stopping)
  }

  ghost predicate Inv(w: World) {
    && QuietOk(w) && RowsOk(w) && DiskOk(w) && LeakOk(w)
    && CreatorOk(w) && BacklogOk(w) && QueueOk(w) && TimerOk(w) && WorkerOk(w)
    && WorkDiskOk(w) && PendingOk(w) && StrandOk(w)
    && ConversionOk(w) && LeaseOk(w) && ReaderOk(w)
    && MarkerOk(w) && DeleterOk(w) && AwaitConversionOk(w) && AwaitLeaseOk(w)
    && RetryOk(w) && ForgetOk(w)
  }
}
