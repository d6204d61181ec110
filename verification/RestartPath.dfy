/** The restart that `Recovery` computes with loops is a path of the step model: from what a
    crash left, without a failing call, to a running service with the same table and the
    same directories. */
module RestartPath {
  import opened Rows
  import opened World
  import Actions
  import opened Protocol
  import opened Invariant
  import opened Moves
  import opened Safety
  import opened Progress
  import opened Recovery
  import Visibility

  // ---------- one record of the janitor ----------

  /** Nobody deletes, converts or reads. */
  predicate AtRest(w: World) {
    && w.phase.Running? && w.deleters == map[] && w.deleting == map[] && w.conversions == map[] && w.leases == map[]
  }

  const JANITOR: ActorId := 0

  /** The janitor has claimed `id`, with the record that `w` has of it. */
  function Claiming(w: World, id: FileId, rows: Table, disk: Disk, stage: DeleteStage): World
    requires id in w.rows
  {
    w.(rows := rows, disk := disk, deleting := map[id := JANITOR],
       deleters := map[JANITOR := Deleter(id, w.rows[id], false, stage)])
  }

  function Holding(w: World, id: FileId): World
    requires id in w.rows
  {
    w.(deleters := map[JANITOR := Deleter(id, w.rows[id], false, Snapshot)])
  }

  function Without(w: World, id: FileId): World
    requires id in w.rows
  {
    w.(rows := w.rows - {id}, disk := w.disk - {w.rows[id].dir})
  }

  function Marked(w: World, id: FileId): Table
    requires id in w.rows
  {
    MarkDeleted(w.rows, id, w.rows[id].tenant, w.now)
  }

  lemma FindsExpired(w: World, id: FileId)
    requires AtRest(w) && id in ExpiredIds(w.rows, w.now)
    ensures DeleteNext(w, FindExpired(JANITOR, id), Holding(w, id))
  {}

  lemma Begins(w: World, id: FileId)
    requires AtRest(w) && id in w.rows
    ensures var stage := if w.rows[id].deletedAt.Some? then DeleteStage.FindConversion else DeleteStage.Mark;
      DeleteNext(Holding(w, id), DeleteStep.Begin(JANITOR), Claiming(w, id, w.rows, w.disk, stage))
  {}

  lemma Marks(w: World, id: FileId)
    requires AtRest(w) && id in w.rows && w.rows[id].deletedAt.None?
    ensures DeleteNext(Claiming(w, id, w.rows, w.disk, DeleteStage.Mark), DeleteStep.Mark(JANITOR, false),
                       Claiming(w, id, Marked(w, id), w.disk, DeleteStage.FindConversion))
  {}

  lemma FindsNoConversion(w: World, id: FileId, rows: Table)
    requires AtRest(w) && id in w.rows
    ensures WaitNext(Claiming(w, id, rows, w.disk, DeleteStage.FindConversion), WaitStep.FindConversion(JANITOR),
                     Claiming(w, id, rows, w.disk, DeleteStage.FindLease))
  {}

  lemma FindsNoLease(w: World, id: FileId, rows: Table)
    requires AtRest(w) && id in w.rows
    ensures WaitNext(Claiming(w, id, rows, w.disk, DeleteStage.FindLease), WaitStep.FindLease(JANITOR),
                     Claiming(w, id, rows, w.disk, RemoveDir))
  {}

  lemma RemovesDir(w: World, id: FileId, rows: Table)
    requires AtRest(w) && id in w.rows
    ensures EraseNext(Claiming(w, id, rows, w.disk, RemoveDir), DeleteDir(JANITOR, None),
                      Claiming(w, id, rows, w.disk - {w.rows[id].dir}, RemoveRow))
  {
    var h := w.hist;
    assert Actions.NoteTorn(h, w.rows[id].dir, None) == h;
  }

  lemma RemovesRow(w: World, id: FileId, rows: Table)
    requires AtRest(w) && id in w.rows && id in rows && rows[id].tenant == w.rows[id].tenant
    requires rows - {id} == w.rows - {id}
    ensures EraseNext(Claiming(w, id, rows, w.disk - {w.rows[id].dir}, RemoveRow), DeleteRow(JANITOR, false),
                      Claiming(w, id, w.rows - {id}, w.disk - {w.rows[id].dir}, DeleteStage.End(true)))
  {}

  lemma Ends(w: World, id: FileId)
    requires AtRest(w) && id in w.rows
    ensures DeleteNext(Claiming(w, id, w.rows - {id}, w.disk - {w.rows[id].dir}, DeleteStage.End(true)),
                       DeleteStep.End(JANITOR), Without(w, id))
  {
    var h := w.hist;
    assert h.(acked := h.acked + {}) == h;
  }

  lemma ErasesFound(w: World, id: FileId, rows: Table) returns (vs: seq<World>, ts: seq<Step>)
    requires AtRest(w) && id in w.rows && id in rows && rows[id].tenant == w.rows[id].tenant
    requires rows - {id} == w.rows - {id}
    ensures Reaches(Claiming(w, id, rows, w.disk, RemoveDir), vs, ts, Without(w, id))
  {
    hide AtRest, Claiming, Without, DeleteNext, EraseNext, Reaches;
    RemovesDir(w, id, rows);
    RemovesRow(w, id, rows);
    Ends(w, id);
    var gone := w.disk - {w.rows[id].dir};
    var last := Claiming(w, id, w.rows - {id}, gone, DeleteStage.End(true));
    ReachesByStep(last, Delete(DeleteStep.End(JANITOR)), Without(w, id));
    vs, ts := ReachesByStepAndPath(Claiming(w, id, rows, gone, RemoveRow), Erase(DeleteRow(JANITOR, false)), last,
                                   [last, Without(w, id)], [Delete(DeleteStep.End(JANITOR))], Without(w, id));
    vs, ts := ReachesByStepAndPath(Claiming(w, id, rows, w.disk, RemoveDir), Erase(DeleteDir(JANITOR, None)),
                                   Claiming(w, id, rows, gone, RemoveRow), vs, ts, Without(w, id));
  }

  /** From the claim with a marked row to the end. */
  lemma ErasesMarked(w: World, id: FileId, rows: Table) returns (vs: seq<World>, ts: seq<Step>)
    requires AtRest(w) && id in w.rows && id in rows && rows[id].tenant == w.rows[id].tenant
    requires rows - {id} == w.rows - {id}
    ensures Reaches(Claiming(w, id, rows, w.disk, DeleteStage.FindConversion), vs, ts, Without(w, id))
  {
    hide AtRest, Claiming, Without, WaitNext, Reaches;
    FindsNoConversion(w, id, rows);
    FindsNoLease(w, id, rows);
    vs, ts := ErasesFound(w, id, rows);
    vs, ts := ReachesByStepAndPath(Claiming(w, id, rows, w.disk, DeleteStage.FindLease),
                                   Wait(WaitStep.FindLease(JANITOR)),
                                   Claiming(w, id, rows, w.disk, RemoveDir), vs, ts, Without(w, id));
    vs, ts := ReachesByStepAndPath(Claiming(w, id, rows, w.disk, DeleteStage.FindConversion),
                                   Wait(WaitStep.FindConversion(JANITOR)),
                                   Claiming(w, id, rows, w.disk, DeleteStage.FindLease), vs, ts, Without(w, id));
  }

  lemma MarkingKeepsTheRest(w: World, id: FileId)
    requires id in w.rows
    ensures var rows := Marked(w, id);
      id in rows && rows[id].tenant == w.rows[id].tenant && rows - {id} == w.rows - {id}
  {}

  /** The janitor deletes one expired record. */
  lemma DeletesOne(w: World, id: FileId) returns (vs: seq<World>, ts: seq<Step>)
    requires AtRest(w) && id in ExpiredIds(w.rows, w.now)
    ensures Reaches(w, vs, ts, Without(w, id))
  {
    hide AtRest, Claiming, Holding, Without, Marked, DeleteNext, Reaches;
    FindsExpired(w, id);
    Begins(w, id);
    var claim := DeleteStage.FindConversion;
    if w.rows[id].deletedAt.Some? {
      vs, ts := ErasesMarked(w, id, w.rows);
    } else {
      claim := DeleteStage.Mark;
      MarkingKeepsTheRest(w, id);
      vs, ts := ErasesMarked(w, id, Marked(w, id));
      Marks(w, id);
      vs, ts := ReachesByStepAndPath(Claiming(w, id, w.rows, w.disk, claim), Delete(DeleteStep.Mark(JANITOR, false)),
                                     Claiming(w, id, Marked(w, id), w.disk, DeleteStage.FindConversion), vs, ts,
                                     Without(w, id));
    }
    vs, ts := ReachesByStepAndPath(Holding(w, id), Delete(DeleteStep.Begin(JANITOR)),
                                   Claiming(w, id, w.rows, w.disk, claim), vs, ts, Without(w, id));
    vs, ts := ReachesByStepAndPath(w, Delete(FindExpired(JANITOR, id)), Holding(w, id), vs, ts, Without(w, id));
  }

  // ---------- a pass of the janitor ----------

  /** The table and the directories after a pass over `w`. */
  function Collected(w: World): World {
    w.(rows := VisibleRows(w.rows, w.now), disk := Kept(w.disk, w.disk.Keys - CollectedDirs(w.rows, w.now)))
  }

  ghost predicate Expirable(rows: Table) {
    && (forall id | id in rows :: rows[id].dir.id == id && rows[id].expiresAt >= 0)
  }

  lemma CollectedSplit(rows: Table, now: int, id: FileId)
    requires id in ExpiredIds(rows, now)
    ensures CollectedDirs(rows, now) == CollectedDirs(rows - {id}, now) + {rows[id].dir}
  {
    hide Collectable;
    var rest := rows - {id};
    forall x | x in rows && Collectable(rows[x], now)
      ensures rows[x].dir in CollectedDirs(rest, now) + {rows[id].dir}
    {
      assert x != id ==> x in rest && rest[x] == rows[x];
    }
    forall x | x in rest && Collectable(rest[x], now) ensures rest[x].dir in CollectedDirs(rows, now) {
      assert rows[x] == rest[x];
    }
  }

  lemma CollectsOneLess(w: World, id: FileId)
    requires Expirable(w.rows) && id in ExpiredIds(w.rows, w.now)
    ensures Collected(Without(w, id)) == Collected(w)
    ensures ExpiredIds(Without(w, id).rows, w.now) == ExpiredIds(w.rows, w.now) - {id}
    ensures Expirable(Without(w, id).rows)
  {
    var rows := w.rows - {id};
    assert VisibleRows(rows, w.now) == VisibleRows(w.rows, w.now);
    CollectedSplit(w.rows, w.now, id);
    var disk := w.disk - {w.rows[id].dir};
    assert Kept(disk, disk.Keys - CollectedDirs(rows, w.now))
        == Kept(w.disk, w.disk.Keys - CollectedDirs(w.rows, w.now));
  }

  lemma NothingToCollect(w: World)
    requires Expirable(w.rows) && ExpiredIds(w.rows, w.now) == {}
    ensures Collected(w) == w
  {
    forall id | id in w.rows ensures Visible(w.rows[id], w.now) {
      assert id !in ExpiredIds(w.rows, w.now);
    }
    assert VisibleRows(w.rows, w.now) == w.rows;
    assert CollectedDirs(w.rows, w.now) == {};
    assert Kept(w.disk, w.disk.Keys) == w.disk;
  }

  lemma {:induction false} DeletesExpired(w: World) returns (vs: seq<World>, ts: seq<Step>)
    requires AtRest(w) && Expirable(w.rows)
    ensures Reaches(w, vs, ts, Collected(w))
    decreases ExpiredIds(w.rows, w.now)
  {
    hide Reaches, Expirable, Collected, Next, ExpiredIds;
    if ExpiredIds(w.rows, w.now) == {} {
      NothingToCollect(w);
      vs, ts := [w], [];
      ReachesItself(w);
    } else {
      var id :| id in ExpiredIds(w.rows, w.now);
      AreRows(w, id);
      CollectsOneLess(w, id);
      var us, qs := DeletesOne(w, id);
      vs, ts := DeletesExpired(Without(w, id));
      vs, ts := ReachesBoth(w, us, qs, Without(w, id), vs, ts, Collected(w));
    }
  }

  lemma AreRows(w: World, id: FileId)
    requires id in ExpiredIds(w.rows, w.now)
    ensures id in w.rows
  {}

  // ---------- reconciliation ----------

  function Orphans(w: World): set<Path> {
    w.disk.Keys - SourceDirs(w.rows)
  }

  /** `w'` is `w` without the orphaned directories. */
  ghost predicate IsReconciled(w: World, w': World) {
    w' == w.(disk := Kept(w.disk, SourceDirs(w.rows)), hist := w'.hist)
  }

  lemma ReconcilesOne(w: World, p: Path) returns (w': World)
    requires w.phase.Reconciling? && p in Orphans(w)
    ensures Next(w, System(Reconcile(p, None)), w')
    ensures w' == w.(disk := w.disk - {p}, hist := w'.hist)
  {
    w' := w.(disk := Actions.RemoveAll(w.disk, p, None),
             hist := Actions.NoteTorn(w.hist, p, None).(leftover := w.hist.leftover - {p}));
  }

  lemma OneOrphanLess(w: World, p: Path, v: World)
    requires p in Orphans(w) && v == w.(disk := w.disk - {p}, hist := v.hist)
    ensures Orphans(v) == Orphans(w) - {p}
    ensures forall w' :: IsReconciled(v, w') ==> IsReconciled(w, w')
  {
    assert Kept(v.disk, SourceDirs(v.rows)) == Kept(w.disk, SourceDirs(w.rows));
    hide Kept, SourceDirs;
  }

  lemma NoOrphans(w: World)
    requires Orphans(w) == {}
    ensures IsReconciled(w, w)
  {
    AllKept(w.disk, SourceDirs(w.rows));
    hide Kept, SourceDirs;
  }

  lemma {:induction false} Reconciles(w: World) returns (vs: seq<World>, ts: seq<Step>, w': World)
    requires Inv(w) && w.phase.Reconciling?
    ensures Reaches(w, vs, ts, w') && Inv(w') && IsReconciled(w, w')
    decreases Orphans(w)
  {
    hide Inv, Next, Reaches, Orphans, IsReconciled;
    if Orphans(w) == {} {
      NoOrphans(w);
      vs, ts, w' := [w], [], w;
      ReachesItself(w);
    } else {
      var p :| p in Orphans(w);
      var v := ReconcilesOne(w, p);
      NextKeepsInv(w, System(Reconcile(p, None)), v);
      OneOrphanLess(w, p, v);
      vs, ts, w' := Reconciles(v);
      vs, ts := ReachesByStepAndPath(w, System(Reconcile(p, None)), v, vs, ts, w');
    }
  }

  lemma AllKept(disk: Disk, dirs: set<Path>)
    requires disk.Keys - dirs == {}
    ensures Kept(disk, dirs) == disk
  {
    forall p | p in disk ensures p in dirs {
      assert p !in disk.Keys - dirs;
    }
  }

  // ---------- the restart ----------

  lemma {:induction false} Listed(ids: set<FileId>) returns (s: seq<FileId>)
    ensures Actions.NoDuplicates(s) && Actions.Elements(s) == ids
    decreases ids
  {
    if ids == {} {
      s := [];
    } else {
      var id :| id in ids;
      var rest := Listed(ids - {id});
      assert id !in Actions.Elements(rest);
      TailIsFresh(rest, id);
      s := rest + [id];
      assert Actions.Elements(s) == Actions.Elements(rest) + {id};
    }
  }

  lemma Boots(w: World, consolidate: bool) returns (w': World)
    requires w.phase.Down?
    ensures Next(w, System(Boot(consolidate)), w')
    ensures w' == w.(phase := Reconciling, rows := if consolidate then ConsolidateTenants(w.rows) else w.rows)
  {
    w' := w.(phase := Reconciling, rows := if consolidate then ConsolidateTenants(w.rows) else w.rows);
  }

  lemma Starts(w: World, pool: set<ActorId>) returns (s: SystemStep, w': World)
    requires QuietOk(w) && w.phase.Reconciling? && w.disk.Keys <= SourceDirs(w.rows)
    ensures s.Run? && Next(w, System(s), w') && AtRest(w')
    ensures w'.rows == w.rows && w'.disk == w.disk && w'.now == w.now && w'.workers.Keys == pool
  {
    var backlog := Listed(PendingIds(w.rows, w.now));
    s := Run(backlog, pool);
    w' := w.(phase := Running(backlog), workers := map a | a in pool :: Idle,
             hist := w.hist.(owner := map id | id in Actions.Elements(backlog) :: InBacklog));
  }

  /** What the restart leaves: the visible rows and their directories, as they were. */
  ghost predicate Restarted(rows: Table, disk: Disk, now: int, w': World) {
    && w'.rows == VisibleRows(rows, now)
    && w'.disk == Kept(disk, SourceDirs(w'.rows))
    && w'.disk.Keys == SourceDirs(w'.rows)
  }

  lemma CollectedAfterReconciled(rows: Table, disk: Disk, w: World)
    requires Recoverable(rows, disk) && w.rows == rows && w.disk == Kept(disk, SourceDirs(rows))
    ensures Restarted(rows, disk, w.now, Collected(w)) && Expirable(rows)
  {
    hide Visible, Collectable;
    var w' := Collected(w);
    forall id | id in rows ensures Visible(rows[id], w.now) <==> !Collectable(rows[id], w.now) {
      Visibility.SeenOrCollected(rows[id], w.now);
    }
    assert w'.disk.Keys == w.disk.Keys - CollectedDirs(rows, w.now);
    VisibleRemain(rows, disk, w.now, w'.rows, w'.disk);
    assert w'.disk == Kept(disk, SourceDirs(w'.rows));
  }

  lemma KeptIsWithin(disk: Disk, dirs: set<Path>)
    ensures Kept(disk, dirs).Keys <= dirs
  {}

  /** From a stopped process, however it was stopped, to the end of the first janitor pass. */
  lemma RestartReaches(w: World, consolidate: bool, pool: set<ActorId>)
    returns (vs: seq<World>, ts: seq<Step>, w': World)
    requires Inv(w) && w.phase.Down?
    ensures Reaches(w, vs, ts, w') && AtRest(w') && w'.workers.Keys == pool
    ensures Restarted(if consolidate then ConsolidateTenants(w.rows) else w.rows, w.disk, w.now, w')
  {
    hide Inv, Next, Reaches, QuietOk, Kept, SourceDirs, Recoverable, Expirable, Restarted;
    var booted := Boots(w, consolidate);
    NextKeepsInv(w, System(Boot(consolidate)), booted);
    IsRecoverable(booted);
    var us, qs, clean := Reconciles(booted);
    QuietNow(clean);
    KeptIsWithin(booted.disk, SourceDirs(booted.rows));
    var s, up := Starts(clean, pool);
    CollectedAfterReconciled(booted.rows, booted.disk, up);
    vs, ts := DeletesExpired(up);
    w' := Collected(up);
    vs, ts := ReachesByStepAndPath(clean, System(s), up, vs, ts, w');
    vs, ts := ReachesBoth(booted, us, qs, clean, vs, ts, w');
    vs, ts := ReachesByStepAndPath(w, System(Boot(consolidate)), booted, vs, ts, w');
  }

  /** After a crash at any moment of any run the steps of the service lead, without a failing
      call, to a running service whose rows are the visible ones and whose directories are
      exactly theirs, unchanged: what `Recovery.Service.Restart` computes. */
  lemma RestartIsAPath(ws: seq<World>, ss: seq<Step>, i: nat, consolidate: bool, pool: set<ActorId>)
    returns (vs: seq<World>, ts: seq<Step>, w': World)
    requires IsRun(ws, ss) && i < |ws|
    ensures Reaches(Actions.Crashed(ws[i]), vs, ts, w') && AtRest(w') && w'.workers.Keys == pool
    ensures var rows := if consolidate then ConsolidateTenants(ws[i].rows) else ws[i].rows;
      Restarted(rows, ws[i].disk, ws[i].now, w')
  {
    hide Inv, Reaches, AtRest, Restarted, IsRun;
    RunKeepsInv(ws, ss, i);
    var w := Actions.Crashed(ws[i]);
    NextKeepsInv(ws[i], System(Crash), w);
    vs, ts, w' := RestartReaches(w, consolidate, pool);
  }
}
