/** The steps of the file service.  Each critical section, each store call and each
    file-system call of `internal/files/service.go` is one step; a `fail` parameter
    chooses the error return of a call, which changes nothing.  Steps of different
    actors interleave without restriction. */
module Actions {
  import opened Rows
  import opened World

  // ---------- process: crash, boot, recovery, shutdown ----------

  const NO_HISTORY: History := History({}, {}, {}, {}, {}, {}, {}, {}, map[], map[], map[])

  const INITIAL: World :=
    World(map[], map[], 0, Down, false, false, [], map[], map[], map[], map[], map[], map[], map[],
          map[], map[], map[], map[], 0, NO_HISTORY)

  /** The process ends, orderly or not, and its memory is gone. */
  function Crashed(w: World): World {
    INITIAL.(rows := w.rows, disk := w.disk, now := w.now,
             hist := w.hist.(stranded := {}, owner := map[], calls := map[], delay := map[]))
  }

  predicate Tick(w: World, time: int, w': World) {
    w.now <= time && w' == w.(now := time)
  }

  /** The process starts; tenants are consolidated when authentication is off. */
  predicate Boot(w: World, consolidate: bool, w': World) {
    && w.phase.Down?
    && w' == w.(phase := Reconciling, rows := if consolidate then ConsolidateTenants(w.rows) else w.rows)
  }

  /** os.RemoveAll may fail and leave `left` of the directory `p`. */
  predicate MayLeave(disk: Disk, p: Path, left: Option<Dir>) {
    left.Some? ==> p in disk && Remnant(disk[p], left.value)
  }

  /** os.RemoveAll on a directory: everything is gone, or a failure leaves a remnant. */
  function RemoveAll(disk: Disk, p: Path, left: Option<Dir>): Disk {
    if left.None? then disk - {p} else disk[p := left.value]
  }

  function NoteTorn(h: History, p: Path, left: Option<Dir>): History {
    h.(torn := h.torn + (if left.Some? then {p.id} else {}))
  }

  /** ReconcileStorage removes one directory that no record names. */
  predicate ReconcileDir(w: World, p: Path, left: Option<Dir>, w': World) {
    && w.phase.Reconciling?
    && p in w.disk && p !in SourceDirs(w.rows)
    && MayLeave(w.disk, p, left)
    && w' == w.(disk := RemoveAll(w.disk, p, left),
                hist := NoteTorn(w.hist, p, left).(
                  leftover := if left.None? then w.hist.leftover - {p} else w.hist.leftover))
  }

  predicate NoDuplicates(s: seq<FileId>) {
    forall i, j :: 0 <= i < j < |s| ==> s[i] != s[j]
  }

  function Elements(s: seq<FileId>): set<FileId> {
    set x | x in s
  }

  /** Run: reads the pending IDs, then starts the workers and the janitor. */
  predicate Run(w: World, backlog: seq<FileId>, workers: set<ActorId>, w': World) {
    && w.phase.Reconciling?
    && w.disk.Keys <= SourceDirs(w.rows)
    && NoDuplicates(backlog) && Elements(backlog) == PendingIds(w.rows, w.now)
    && w' == w.(phase := Running(backlog),
                workers := map a | a in workers :: Idle,
                hist := w.hist.(owner := map id | id in Elements(backlog) :: InBacklog))
  }

  /** Run enqueues the next pending ID, or drops it when the service is stopping. */
  predicate Resubmit(w: World, drop: bool, w': World) {
    && w.phase.Running? && w.phase.backlog != []
    && (drop ==> w.closed)
    && var id := w.phase.backlog[0];
       w' == w.(phase := Running(w.phase.backlog[1..]),
                queue := if drop then w.queue else w.queue + [id],
                hist := w.hist.(owner := if drop then w.hist.owner else w.hist.owner[id := InQueue]))
  }

  predicate Interrupt(w: World, w': World) {
    w.phase.Running? && w' == w.(stopping := true)
  }

  predicate CloseLifecycle(w: World, w': World) {
    w.stopping && w' == w.(closed := true)
  }

  /** The HTTP server accepts requests only after Run has returned. */
  predicate Serving(w: World) {
    w.phase.Running? && w.phase.backlog == []
  }

  // ---------- Create ----------

  predicate CreateDir(w: World, a: ActorId, id: FileId, tenant: string, w': World) {
    && Serving(w) && a !in w.creators && id !in w.hist.used
    && var dir := Path(tenant, id);
       w' == w.(disk := w.disk[dir := EMPTY_DIR],
                creators := w.creators[a := Creator(id, dir, Made)],
                hist := w.hist.(used := w.hist.used + {id}, owner := w.hist.owner[id := InCreator(a)]))
  }

  predicate WriteSource(w: World, a: ActorId, fail: bool, w': World) {
    && a in w.creators && w.creators[a].stage == Made
    && var c := w.creators[a];
       && c.dir in w.disk
       && w' == w.(disk := if fail then w.disk else w.disk[c.dir := w.disk[c.dir].(source := true)],
                   creators := w.creators[a := c.(stage := if fail then Cleanup else Written)])
  }

  /** The record Create builds; `expiresAt` is treated in module `Expiry`. */
  predicate FreshRow(row: Row, c: Creator, now: int) {
    && row.tenant == c.dir.tenant && row.dir == c.dir
    && row.status == Uploaded && row.manifestPath.None? && row.errorMessage.None?
    && row.createdAt <= now && row.expiresAt >= 0 && row.deletedAt.None?
  }

  /** store.Add, after validation; a failure of either leads to the cleanup. */
  predicate AddRow(w: World, a: ActorId, row: Row, fail: bool, w': World) {
    && a in w.creators && w.creators[a].stage == Written
    && var c := w.creators[a];
       var fails := fail || c.id in w.rows;
       && (!fails ==> FreshRow(row, c, w.now))
       && w' == w.(rows := if fails then w.rows else w.rows[c.id := row],
                   creators := w.creators[a := c.(stage := if fails then Cleanup else Submit)],
                   hist := w.hist.(added := if fails then w.hist.added else w.hist.added + {c.id}))
  }

  predicate CleanupDir(w: World, a: ActorId, left: Option<Dir>, w': World) {
    && a in w.creators && w.creators[a].stage == Cleanup
    && var c := w.creators[a];
       && MayLeave(w.disk, c.dir, left)
       && w' == w.(disk := RemoveAll(w.disk, c.dir, left), creators := w.creators - {a},
                   hist := NoteTorn(w.hist, c.dir, left).(
                     leftover := if left.Some? then w.hist.leftover + {c.dir} else w.hist.leftover))
  }

  /** enqueue of a new file: a client that went away does not matter, a stop does. */
  predicate SubmitJob(w: World, a: ActorId, drop: bool, w': World) {
    && a in w.creators && w.creators[a].stage == Submit
    && (drop ==> w.closed)
    && var c := w.creators[a];
       w' == w.(creators := w.creators - {a},
                queue := if drop then w.queue else w.queue + [c.id],
                hist := w.hist.(owner := if drop then w.hist.owner else w.hist.owner[c.id := InQueue]))
  }

  // ---------- conversion workers ----------

  predicate Working(w: World, a: ActorId, s: WorkStage) {
    a in w.workers && w.workers[a].Job? && w.workers[a].stage == s
  }

  function ToStage(w: World, a: ActorId, s: WorkStage): map<ActorId, Worker>
    requires a in w.workers && w.workers[a].Job?
  {
    w.workers[a := w.workers[a].(stage := s)]
  }

  predicate Take(w: World, a: ActorId, w': World) {
    && a in w.workers && w.workers[a].Idle? && w.queue != []
    && var id := w.queue[0];
       w' == w.(queue := w.queue[1..], workers := w.workers[a := Job(id, 0, Path("", id), Begin)],
                hist := w.hist.(owner := w.hist.owner[id := InWorker(a)]))
  }

  predicate Quit(w: World, a: ActorId, w': World) {
    a in w.workers && w.workers[a].Idle? && w.stopping && w' == w.(workers := w.workers - {a})
  }

  predicate BeginConversion(w: World, a: ActorId, w': World) {
    && Working(w, a, Begin)
    && var j := w.workers[a];
       w' == w.(states := w.states[w.next := Conversion(j.id, a, true)],
                conversions := w.conversions[j.id := w.next], next := w.next + 1,
                workers := w.workers[a := j.(token := w.next, stage := Lookup)])
  }

  predicate LookupRow(w: World, a: ActorId, fail: bool, w': World) {
    && Working(w, a, Lookup)
    && var j := w.workers[a];
       var record := GetInternal(w.rows, j.id);
       var wanted := !fail && record.Some? && record.value.deletedAt.None?;
       w' == w.(workers := w.workers[a := j.(
         dir := if wanted then record.value.dir else j.dir,
         stage := if fail then Unregister(Retryable) else if wanted then Claim else Unregister(Finished))])
  }

  predicate ClaimStatus(w: World, a: ActorId, fail: bool, w': World) {
    && Working(w, a, Claim)
    && var j := w.workers[a];
       w' == w.(rows := if fail then w.rows else UpdateStatus(w.rows, j.id, Processing, None, ""),
                workers := ToStage(w, a, if fail then Unregister(Retryable)
                                         else if Live(w.rows, j.id) then Start else Unregister(Finished)))
  }

  predicate StartConvert(w: World, a: ActorId, resolved: bool, w': World) {
    && Working(w, a, Start)
    && var j := w.workers[a];
       w' == w.(workers := ToStage(w, a, if resolved then Converting else Reject),
                hist := w.hist.(
                  calls := if resolved then w.hist.calls[j.id := At(w.hist.calls, j.id, 0) + 1] else w.hist.calls))
  }

  /** Convert changes the artifacts and the manifest, never the source. */
  predicate ConvertWrites(w: World, a: ActorId, d: Dir, w': World) {
    && Working(w, a, Converting)
    && var j := w.workers[a];
       && j.dir in w.disk && d.source == w.disk[j.dir].source
       && w' == w.(disk := w.disk[j.dir := d])
  }

  /** Convert returns; without an error only when the manifest it wrote is complete. */
  predicate ConvertReturns(w: World, a: ActorId, out: Outcome, w': World) {
    && Working(w, a, Converting)
    && var j := w.workers[a];
       && (out.Finished? ==> j.dir in w.disk && Complete(w.disk[j.dir]))
       && w' == w.(workers := ToStage(w, a, if out.Finished? then Publish else Unregister(out)))
  }

  predicate PublishStatus(w: World, a: ActorId, fail: bool, w': World) {
    && Working(w, a, Publish)
    && var j := w.workers[a];
       var done := if !fail && Live(w.rows, j.id) then {j.id} else {};
       w' == w.(rows := if fail then w.rows else UpdateStatus(w.rows, j.id, Processed, Some(j.dir), ""),
                workers := ToStage(w, a, Unregister(if fail then Retryable else Finished)),
                hist := w.hist.(settled := w.hist.settled + done, processed := w.hist.processed + done))
  }

  /** markFailed: a store error is logged and forgotten, which strands the file. */
  function MarkFailed(rows: Table, id: FileId, message: string, fail: bool): Table {
    if fail then rows else UpdateStatus(rows, id, Failed, None, message)
  }

  function NoteFailed(h: History, rows: Table, id: FileId, fail: bool): History {
    h.(settled := h.settled + (if !fail && Live(rows, id) then {id} else {}),
       stranded := h.stranded + (if fail then {id} else {}))
  }

  predicate RejectFile(w: World, a: ActorId, message: string, fail: bool, w': World) {
    && Working(w, a, Reject)
    && var id := w.workers[a].id;
       w' == w.(rows := MarkFailed(w.rows, id, message, fail), hist := NoteFailed(w.hist, w.rows, id, fail),
                workers := ToStage(w, a, Unregister(Finished)))
  }

  predicate EndConversion(w: World, a: ActorId, w': World) {
    && a in w.workers && w.workers[a].Job? && w.workers[a].stage.Unregister?
    && var j := w.workers[a];
       var current := j.id in w.conversions && w.conversions[j.id] == j.token;
       w' == w.(conversions := if current then w.conversions - {j.id} else w.conversions,
                workers := ToStage(w, a, Signal(j.stage.out)))
  }

  predicate SignalDone(w: World, a: ActorId, w': World) {
    && a in w.workers && w.workers[a].Job? && w.workers[a].stage.Signal?
    && var j := w.workers[a];
       && j.token in w.states
       && w' == w.(states := w.states[j.token := w.states[j.token].(active := false)],
                   workers := ToStage(w, a, Handle(j.stage.out)))
  }

  predicate HandleErr(w: World, a: ActorId, w': World) {
    && a in w.workers && w.workers[a].Job? && w.workers[a].stage.Handle?
    && var j := w.workers[a];
       var retries := At(w.retry, j.id, 0);
       w' == w.(workers := ToStage(w, a,
         match j.stage.out
         case Finished => Forget
         case Fatal => GiveUp
         case Retryable => if retries >= MAX_RETRIES then GiveUp else Inspect(retries)))
  }

  predicate GiveUpJob(w: World, a: ActorId, message: string, fail: bool, w': World) {
    && Working(w, a, GiveUp)
    && var id := w.workers[a].id;
       w' == w.(rows := MarkFailed(w.rows, id, message, fail), hist := NoteFailed(w.hist, w.rows, id, fail),
                workers := ToStage(w, a, Forget))
  }

  predicate FileActive(w: World, a: ActorId, fail: bool, w': World) {
    && a in w.workers && w.workers[a].Job? && w.workers[a].stage.Inspect?
    && var j := w.workers[a];
       w' == w.(workers := ToStage(w, a, if !fail && Live(w.rows, j.id) then Bump(j.stage.retries) else Forget),
                hist := w.hist.(stranded := w.hist.stranded + (if fail then {j.id} else {})))
  }

  predicate BumpRetry(w: World, a: ActorId, w': World) {
    && a in w.workers && w.workers[a].Job? && w.workers[a].stage.Bump?
    && var j := w.workers[a];
       w' == w.(retry := w.retry[j.id := At(w.retry, j.id, 0) + 1], workers := ToStage(w, a, Arm(j.stage.retries)))
  }

  predicate ArmTimer(w: World, a: ActorId, t: ActorId, w': World) {
    && a in w.workers && w.workers[a].Job? && w.workers[a].stage.Arm? && t !in w.timers
    && var j := w.workers[a];
       w' == w.(timers := w.timers[t := j.id], workers := w.workers[a := Idle],
                hist := w.hist.(owner := w.hist.owner[j.id := InTimer(t)],
                                delay := w.hist.delay[j.id := At(w.hist.delay, j.id, 0) + Pow2(j.stage.retries)]))
  }

  predicate ForgetRetries(w: World, a: ActorId, w': World) {
    && Working(w, a, Forget)
    && w' == w.(retry := w.retry - {w.workers[a].id}, workers := w.workers[a := Idle])
  }

  /** The retry timer fires; its enqueue is dropped once the worker context is cancelled. */
  predicate FireTimer(w: World, t: ActorId, drop: bool, w': World) {
    && t in w.timers && (drop ==> w.stopping)
    && var id := w.timers[t];
       w' == w.(timers := w.timers - {t},
                queue := if drop then w.queue else w.queue + [id],
                hist := w.hist.(owner := if drop then w.hist.owner else w.hist.owner[id := InQueue]))
  }

  // ---------- readers ----------

  /** The last Get of Resolve, or the Get of OpenSource. */
  predicate FindFile(w: World, r: ActorId, id: FileId, tenant: string, manifest: bool, w': World) {
    && Serving(w) && r !in w.readers
    && var found := Get(w.rows, id, tenant, w.now);
       && found.Some?
       && (manifest ==> found.value.status == Processed && found.value.manifestPath.Some?)
       && w' == w.(readers := w.readers[r := Reader(id, found.value, manifest, Found)])
  }

  /** acquireLease: refused while the file is being deleted. */
  predicate AcquireLease(w: World, r: ActorId, w': World) {
    && r in w.readers && w.readers[r].stage.Found?
    && var d := w.readers[r];
       && (d.id in w.leases ==> w.leases[d.id] in w.leaseObjs)
       && var refused := d.id in w.deleting;
          var known := d.id in w.leases;
          var l := if known then w.leases[d.id] else w.next;
          var lease := if known then w.leaseObjs[l].(refs := w.leaseObjs[l].refs + 1) else Lease(d.id, 1, false);
          w' == w.(leases := if refused || known then w.leases else w.leases[d.id := l],
                   next := if refused || known then w.next else w.next + 1,
                   leaseObjs := if refused then w.leaseObjs else w.leaseObjs[l := lease],
                   readers := if refused then w.readers - {r} else w.readers[r := d.(stage := Leased(l))])
  }

  /** ReadFile of the manifest, or Open of the source.  When it fails the reader releases. */
  predicate OpenFile(w: World, r: ActorId, w': World) {
    && r in w.readers && w.readers[r].stage.Leased?
    && var d := w.readers[r];
       && (d.manifest ==> d.record.manifestPath.Some?)
       && var p := if d.manifest then d.record.manifestPath.value else d.record.dir;
          && p in w.disk
          && (if d.manifest then w.disk[p].manifest.Some? else w.disk[p].source)
          && w' == w.(readers := w.readers[r := d.(stage :=
               Reading(d.stage.token, if d.manifest then w.disk[p].manifest.value else {}))])
  }

  /** releaseLease, from any point at which the lease is held. */
  predicate ReleaseLease(w: World, r: ActorId, w': World) {
    && r in w.readers && HoldsLease(w.readers[r])
    && var d := w.readers[r];
       var l := LeaseOf(d);
       && l in w.leaseObjs && w.leaseObjs[l].refs > 0
       && var left := w.leaseObjs[l].refs - 1;
          var closing := left == 0 && !w.leaseObjs[l].closed;
          w' == w.(leaseObjs := w.leaseObjs[l := w.leaseObjs[l].(refs := left, closed := w.leaseObjs[l].closed || closing)],
                   leases := if closing then w.leases - {d.id} else w.leases,
                   readers := w.readers - {r})
  }

  // ---------- Delete and the janitor ----------

  predicate FindVictim(w: World, d: ActorId, id: FileId, tenant: string, w': World) {
    && Serving(w) && d !in w.deleters
    && var found := Get(w.rows, id, tenant, w.now);
       found.Some? && w' == w.(deleters := w.deleters[d := Deleter(id, found.value, true, Snapshot)])
  }

  /** One record of a janitor's Expired query. */
  predicate FindExpired(w: World, d: ActorId, id: FileId, w': World) {
    && w.phase.Running? && d !in w.deleters && id in ExpiredIds(w.rows, w.now)
    && w' == w.(deleters := w.deleters[d := Deleter(id, w.rows[id], false, Snapshot)])
  }

  predicate Deleting(w: World, d: ActorId, s: DeleteStage) {
    d in w.deleters && w.deleters[d].stage == s
  }

  function Advance(w: World, d: ActorId, s: DeleteStage): map<ActorId, Deleter>
    requires d in w.deleters
  {
    w.deleters[d := w.deleters[d].(stage := s)]
  }

  /** beginDeletion; the janitor skips the mark for a record it read as marked. */
  predicate BeginDeletion(w: World, d: ActorId, w': World) {
    && Deleting(w, d, Snapshot)
    && var x := w.deleters[d];
       var claimed := x.id !in w.deleting;
       w' == w.(deleting := if claimed then w.deleting[x.id := d] else w.deleting,
                deleters := if !claimed then w.deleters - {d}
                            else Advance(w, d, if !x.api && x.record.deletedAt.Some? then FindConversion else Mark))
  }

  predicate MarkRow(w: World, d: ActorId, fail: bool, w': World) {
    && Deleting(w, d, Mark)
    && var x := w.deleters[d];
       var marked := !fail && Markable(w.rows, x.id, x.record.tenant);
       w' == w.(rows := if fail then w.rows else MarkDeleted(w.rows, x.id, x.record.tenant, w.now),
                deleters := Advance(w, d, if marked then FindConversion else Abandon))
  }

  predicate LookForConversion(w: World, d: ActorId, w': World) {
    && Deleting(w, d, FindConversion)
    && var x := w.deleters[d];
       w' == w.(deleters := Advance(w, d,
         if x.id in w.conversions then CheckConversion(w.conversions[x.id]) else FindLease))
  }

  predicate CheckActive(w: World, d: ActorId, w': World) {
    && d in w.deleters && w.deleters[d].stage.CheckConversion?
    && var t := w.deleters[d].stage.token;
       && t in w.states
       && w' == w.(deleters := Advance(w, d, if w.states[t].active then AwaitConversion(t) else FindLease))
  }

  /** `<-state.done` */
  predicate ConversionDone(w: World, d: ActorId, w': World) {
    && d in w.deleters && w.deleters[d].stage.AwaitConversion?
    && var t := w.deleters[d].stage.conversion;
       t in w.states && !w.states[t].active && w' == w.(deleters := Advance(w, d, FindLease))
  }

  predicate LookForLease(w: World, d: ActorId, w': World) {
    && Deleting(w, d, FindLease)
    && var x := w.deleters[d];
       w' == w.(deleters := Advance(w, d, if x.id in w.leases then CheckLease(w.leases[x.id]) else RemoveDir))
  }

  predicate CheckRefs(w: World, d: ActorId, w': World) {
    && d in w.deleters && w.deleters[d].stage.CheckLease?
    && var l := w.deleters[d].stage.lease;
       && l in w.leaseObjs
       && w' == w.(deleters := Advance(w, d, if w.leaseObjs[l].refs == 0 then RemoveDir else AwaitLease(l)))
  }

  /** `<-lease.done` */
  predicate LeaseDone(w: World, d: ActorId, w': World) {
    && d in w.deleters && w.deleters[d].stage.AwaitLease?
    && var l := w.deleters[d].stage.readers;
       l in w.leaseObjs && w.leaseObjs[l].closed && w' == w.(deleters := Advance(w, d, RemoveDir))
  }

  predicate DeleteDir(w: World, d: ActorId, left: Option<Dir>, w': World) {
    && Deleting(w, d, RemoveDir)
    && var x := w.deleters[d];
       && MayLeave(w.disk, x.record.dir, left)
       && w' == w.(disk := RemoveAll(w.disk, x.record.dir, left), hist := NoteTorn(w.hist, x.record.dir, left),
                   deleters := Advance(w, d, if left.None? then RemoveRow else End(false)))
  }

  predicate DeleteRow(w: World, d: ActorId, fail: bool, w': World) {
    && Deleting(w, d, RemoveRow)
    && var x := w.deleters[d];
       w' == w.(rows := if fail then w.rows else Remove(w.rows, x.id, x.record.tenant),
                deleters := Advance(w, d, End(!fail && Owned(w.rows, x.id, x.record.tenant))))
  }

  /** endDeletion, and the answer of a Delete call. */
  predicate EndDeletion(w: World, d: ActorId, w': World) {
    && d in w.deleters && (w.deleters[d].stage.Abandon? || w.deleters[d].stage.End?)
    && var x := w.deleters[d];
       w' == w.(deleting := if x.id in w.deleting && w.deleting[x.id] == d then w.deleting - {x.id} else w.deleting,
                deleters := w.deleters - {d},
                hist := w.hist.(acked := w.hist.acked + (if x.api && x.stage == End(true) then {x.id} else {})))
  }
}
