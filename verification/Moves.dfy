/** What single changes of the state keep, whatever step makes them: a job moves from
    one place to another, a lease is taken or given back, a worker's retry record grows. */
module Moves {
  import opened Rows
  import opened World
  import opened Actions
  import opened Invariant

  // ---------- jobs ----------

  lemma HeadIsFresh(s: seq<FileId>)
    requires NoDuplicates(s) && s != []
    ensures NoDuplicates(s[1..]) && s[0] !in s[1..]
    ensures forall x :: x in s <==> x == s[0] || x in s[1..]
  {
    assert s == [s[0]] + s[1..];
  }

  lemma TailIsFresh(s: seq<FileId>, x: FileId)
    requires NoDuplicates(s) && x !in s
    ensures NoDuplicates(s + [x])
    ensures forall y :: y in s + [x] <==> y == x || y in s
  {}

  /** The job of `id` may be put anywhere once it has left the place the history names. */
  lemma OwnerMoves(w: World, id: FileId, loc: Loc)
    requires CreatorOk(w) && BacklogOk(w) && QueueOk(w) && TimerOk(w) && WorkerOk(w)
    requires id in w.hist.owner
    ensures var owner := w.hist.owner[id := loc];
      var from := w.hist.owner[id];
      && (!from.InCreator? ==>
            CreatorInv(w.creators, w.disk, w.hist.used, w.hist.added, w.hist.settled, w.hist.torn, owner))
      && (!from.InBacklog? ==> BacklogInv(w.phase, w.hist.added, w.hist.settled, owner))
      && (!from.InQueue? ==> QueueInv(w.queue, w.hist.added, w.hist.settled, owner))
      && (!from.InTimer? ==> TimerInv(w.timers, w.hist.added, w.hist.settled, owner))
      && (!from.InWorker? ==> WorkerInv(w.workers, w.rows, w.hist.added, w.hist.settled, owner))
  {}

  // ---------- leases ----------

  lemma HoldersGrow(readers: map<ActorId, Reader>, r: ActorId, d: Reader, l: Token)
    requires r in readers ==> !HoldsLease(readers[r])
    ensures HoldsLease(d) && LeaseOf(d) == l ==> |Holders(readers[r := d], l)| == |Holders(readers, l)| + 1
    ensures !HoldsLease(d) || LeaseOf(d) != l ==> Holders(readers[r := d], l) == Holders(readers, l)
  {
    if HoldsLease(d) && LeaseOf(d) == l {
      assert Holders(readers[r := d], l) == Holders(readers, l) + {r};
    }
  }

  lemma HoldersShrink(readers: map<ActorId, Reader>, r: ActorId, l: Token)
    requires r in readers && HoldsLease(readers[r])
    ensures LeaseOf(readers[r]) == l ==> |Holders(readers - {r}, l)| == |Holders(readers, l)| - 1
    ensures LeaseOf(readers[r]) != l ==> Holders(readers - {r}, l) == Holders(readers, l)
  {
    assert Holders(readers - {r}, l) == Holders(readers, l) - {r};
  }

  lemma LeaseTaken(readers: map<ActorId, Reader>, leases: map<FileId, Token>, objs: map<Token, Lease>,
                   next: Token, r: ActorId, d: Reader)
    requires LeaseInv(readers, leases, objs, next)
    requires r in readers && !HoldsLease(readers[r])
    requires HoldsLease(d) && d.id in leases && LeaseOf(d) == leases[d.id]
    ensures var l := leases[d.id];
      LeaseInv(readers[r := d], leases, objs[l := objs[l].(refs := objs[l].refs + 1)], next)
  {
    forall l ensures |Holders(readers[r := d], l)| == |Holders(readers, l)| + if l == LeaseOf(d) then 1 else 0 {
      HoldersGrow(readers, r, d, l);
    }
  }

  lemma LeaseCreated(readers: map<ActorId, Reader>, leases: map<FileId, Token>, objs: map<Token, Lease>,
                     next: Token, r: ActorId, d: Reader)
    requires LeaseInv(readers, leases, objs, next)
    requires r in readers && !HoldsLease(readers[r])
    requires HoldsLease(d) && d.id !in leases && LeaseOf(d) == next
    ensures LeaseInv(readers[r := d], leases[d.id := next], objs[next := Lease(d.id, 1, false)], next + 1)
  {
    forall l ensures |Holders(readers[r := d], l)| == |Holders(readers, l)| + if l == next then 1 else 0 {
      HoldersGrow(readers, r, d, l);
    }
    assert Holders(readers, next) == {} by {
      forall q | q in readers && HoldsLease(readers[q]) ensures LeaseOf(readers[q]) != next {
        assert leases[readers[q].id] in objs;
      }
    }
  }

  lemma LeaseReleased(readers: map<ActorId, Reader>, leases: map<FileId, Token>, objs: map<Token, Lease>,
                      next: Token, r: ActorId)
    requires LeaseInv(readers, leases, objs, next)
    requires r in readers && HoldsLease(readers[r])
    ensures var d := readers[r]; var l := LeaseOf(d);
      && l in objs && objs[l].refs > 0 && !objs[l].closed
      && var left := objs[l].refs - 1;
         LeaseInv(readers - {r}, if left == 0 then leases - {d.id} else leases,
                  objs[l := objs[l].(refs := left, closed := left == 0)], next)
  {
    var d := readers[r];
    var l := LeaseOf(d);
    var rest := readers - {r};
    assert r in Holders(readers, l);
    forall k ensures |Holders(rest, k)| == |Holders(readers, k)| - if k == l then 1 else 0 {
      HoldersShrink(readers, r, k);
    }
    if objs[l].refs == 1 {
      assert Holders(rest, l) == {};
      forall q | q in rest && HoldsLease(rest[q]) ensures rest[q].id != d.id {
        assert q !in Holders(rest, l);
      }
    }
    hide Holders;
  }

  lemma LeaseUntouched(readers: map<ActorId, Reader>, readers': map<ActorId, Reader>, leases: map<FileId, Token>,
                       objs: map<Token, Lease>, next: Token)
    requires LeaseInv(readers, leases, objs, next)
    requires forall l :: Holders(readers', l) == Holders(readers, l)
    requires forall r | r in readers' && HoldsLease(readers'[r]) ::
      && r in readers && HoldsLease(readers[r])
      && readers[r].id == readers'[r].id && LeaseOf(readers[r]) == LeaseOf(readers'[r])
    ensures LeaseInv(readers', leases, objs, next)
  {}

  lemma NoRefsNoHolder(readers: map<ActorId, Reader>, leases: map<FileId, Token>, objs: map<Token, Lease>,
                       next: Token, l: Token)
    requires LeaseInv(readers, leases, objs, next) && l in objs
    ensures objs[l].refs == 0 || objs[l].closed ==>
      forall r | r in readers && HoldsLease(readers[r]) :: LeaseOf(readers[r]) != l
  {
    forall r | r in readers && HoldsLease(readers[r]) && LeaseOf(readers[r]) == l ensures objs[l].refs > 0 {
      assert r in Holders(readers, l);
    }
  }

  /** No reader gets a lease, and no lease changes its file. */
  lemma WaitsStay(w: World, readers: map<ActorId, Reader>, objs: map<Token, Lease>)
    requires AwaitLeaseOk(w)
    requires forall l | l in w.leaseObjs :: l in objs && objs[l].id == w.leaseObjs[l].id
    requires forall r | r in readers && HoldsLease(readers[r]) ::
      && r in w.readers && HoldsLease(w.readers[r])
      && w.readers[r].id == readers[r].id && LeaseOf(w.readers[r]) == LeaseOf(readers[r])
    ensures AwaitLeaseInv(w.deleters, readers, objs)
  {
    forall d | d in w.deleters ensures KnowsLease(w.deleters[d], readers, objs) {
      assert KnowsLease(w.deleters[d], w.readers, w.leaseObjs);
    }
  }

  // ---------- retries ----------

  ghost predicate SameElsewhere(id: FileId, m: map<FileId, nat>, m': map<FileId, nat>) {
    forall x | x != id :: At(m', x, 0) == At(m, x, 0)
  }

  /** Only worker `a` has the job of `id`. */
  ghost predicate SoleHolder(w: World, a: ActorId, id: FileId) {
    && (forall c | c in w.creators :: w.creators[c].id != id)
    && (w.phase.Running? ==> id !in w.phase.backlog)
    && id !in w.queue
    && (forall t | t in w.timers :: w.timers[t] != id)
    && (forall b | b in w.workers && w.workers[b].Job? && w.workers[b].id == id :: b == a)
  }

  lemma JobHasOneHolder(w: World, a: ActorId)
    requires CreatorOk(w) && BacklogOk(w) && QueueOk(w) && TimerOk(w) && WorkerOk(w)
    requires a in w.workers && w.workers[a].Job?
    ensures SoleHolder(w, a, w.workers[a].id)
  {}

  lemma BudgetElsewhere(id: FileId, retry: map<FileId, nat>, calls: map<FileId, nat>, delay: map<FileId, nat>,
                        retry': map<FileId, nat>, calls': map<FileId, nat>, delay': map<FileId, nat>)
    requires SameElsewhere(id, retry, retry') && SameElsewhere(id, calls, calls') && SameElsewhere(id, delay, delay')
    ensures forall x | x != id :: JobBudget(x, retry', calls', delay') == JobBudget(x, retry, calls, delay)
    ensures forall k: Worker | k.Idle? || k.id != id ::
      WorkerOnBudget(k, retry', calls', delay') == WorkerOnBudget(k, retry, calls, delay)
  {
    hide Budget, WorkerBudget;
  }

  lemma CappedNow(w: World)
    requires RetryOk(w)
    ensures Capped(w.hist.used, w.retry, w.hist.calls, w.hist.delay)
  {}

  /** Worker `a` becomes `j`; only the counters of its own job change. */
  lemma RetryMoves(w: World, a: ActorId, id: FileId, j: Worker,
                   retry: map<FileId, nat>, calls: map<FileId, nat>, delay: map<FileId, nat>)
    requires RetryOk(w) && SoleHolder(w, a, id)
    requires SameElsewhere(id, w.retry, retry)
    requires SameElsewhere(id, w.hist.calls, calls) && SameElsewhere(id, w.hist.delay, delay)
    requires WorkerOnBudget(j, retry, calls, delay) && Capped(w.hist.used, retry, calls, delay)
    ensures RetryInv(w.phase, w.creators, w.queue, w.timers, w.workers[a := j], retry, w.hist.used, calls, delay)
  {
    hide Budget, WorkerBudget, Capped, JobBudget, WorkerOnBudget, SameElsewhere;
    BudgetElsewhere(id, w.retry, w.hist.calls, w.hist.delay, retry, calls, delay);
  }

  // ---------- conversions ----------

  /** A worker that owes the same signal as before, or none before and none after. */
  lemma ConversionMoves(w: World, a: ActorId, j: Worker)
    requires ConversionOk(w) && a in w.workers
    requires var o := w.workers[a];
      || (o.Job? && j.Job? && o.id == j.id && o.token == j.token
          && (Registered(o.stage) <==> Registered(j.stage)) && (OwesSignal(o.stage) <==> OwesSignal(j.stage)))
      || ((o.Job? ==> !OwesSignal(o.stage)) && (j.Job? ==> !OwesSignal(j.stage)))
    ensures ConversionInv(w.workers[a := j], w.conversions, w.states, w.next)
  {}

  /** Worker `a` goes on with its job; what it gives up is no longer to be converted. */
  lemma PendingMoves(w: World, a: ActorId, j: Worker, rows: Table, stranded: set<FileId>)
    requires PendingOk(w) && a in w.workers && w.workers[a].Job? && j.Job? && j.id == w.workers[a].id
    requires w.hist.stranded <= stranded
    requires forall id | Live(rows, id) && IsPending(rows[id].status) ::
      Live(w.rows, id) && IsPending(w.rows[id].status) && rows[id].expiresAt == w.rows[id].expiresAt
    requires !Unsettled(j.stage) && Unsettled(w.workers[a].stage) ==>
      !Live(rows, j.id) || !IsPending(rows[j.id].status) || j.id in stranded
    ensures PendingInv(rows, w.now, w.phase, w.stopping, w.creators, w.queue, w.timers, w.workers[a := j],
                       stranded, w.hist.owner)
  {
    hide Unsettled;
  }

  /** Worker `a` goes on with its job and may strand it, as it settles. */
  lemma StrandMoves(w: World, a: ActorId, j: Worker, stranded: set<FileId>)
    requires StrandOk(w) && WorkerOk(w) && a in w.workers && w.workers[a].Job? && j.Job? && j.id == w.workers[a].id
    requires stranded <= w.hist.stranded + {j.id}
    requires Unsettled(j.stage) ==> Unsettled(w.workers[a].stage) && stranded <= w.hist.stranded
    ensures StrandInv(w.workers[a := j], w.hist.added, stranded, w.hist.owner)
  {
    hide Unsettled;
  }

  /** A worker that does not start to work on files disturbs no deleter. */
  lemma TouchMoves(w: World, a: ActorId, j: Worker, states: map<Token, Conversion>)
    requires AwaitConversionOk(w) && a in w.workers && w.states.Keys <= states.Keys
    requires j.Job? && Touching(j.stage) ==>
      w.workers[a].Job? && Touching(w.workers[a].stage) && w.workers[a].id == j.id && w.workers[a].token == j.token
    ensures AwaitConversionInv(w.deleters, w.workers[a := j], states)
  {
    hide Touching;
  }

  // ---------- directories ----------

  /** A directory is removed, perhaps not completely, after its row is marked or gone. */
  lemma DiskShrinks(w: World, p: Path, left: Option<Dir>)
    requires RowsOk(w) && DiskOk(w) && MayLeave(w.disk, p, left) && p.id in w.hist.used && !Live(w.rows, p.id)
    ensures DiskInv(w.rows, RemoveAll(w.disk, p, left), w.hist.used, w.hist.processed,
                    NoteTorn(w.hist, p, left).torn, w.hist.acked)
  {}

  /** Rows lose no more than their liveness or themselves, and none comes back to life. */
  ghost predicate RowsFade(rows: Table, rows': Table) {
    forall id | id in rows' :: id in rows && rows'[id].dir == rows[id].dir && (Live(rows', id) ==> Live(rows, id))
  }

  lemma DiskOutlivesRows(w: World, rows: Table)
    requires DiskOk(w) && RowsFade(w.rows, rows)
    ensures DiskInv(rows, w.disk, w.hist.used, w.hist.processed, w.hist.torn, w.hist.acked)
  {}

  /** Rows change, but not their directories, and none comes back to life. */
  lemma ReadersStay(w: World, rows: Table, processed: set<FileId>)
    requires ReaderOk(w) && RowsFade(w.rows, rows) && w.hist.processed <= processed
    ensures ReaderInv(w.readers, rows, w.disk, w.hist.added, processed)
  {}

  lemma DeletersStay(w: World, rows: Table, disk: Disk)
    requires DeleterOk(w) && RowsFade(w.rows, rows) && disk.Keys <= w.disk.Keys
    requires rows.Keys == w.rows.Keys && forall id | id in rows :: rows[id].tenant == w.rows[id].tenant
    ensures DeleterInv(w.deleters, rows, disk, w.hist.added, w.hist.acked)
  {}

  /** Only the stage of a deleter changes, and not beyond what it knew. */
  lemma DeleterMoves(w: World, d: ActorId, s: DeleteStage)
    requires DeleterOk(w) && d in w.deleters
    requires PastMark(s) ==> PastMark(w.deleters[d].stage) && !w.deleters[d].stage.End?
    requires !s.RemoveRow? && s != End(true)
    ensures DeleterInv(w.deleters[d := w.deleters[d].(stage := s)], w.rows, w.disk, w.hist.added, w.hist.acked)
  {}
}
