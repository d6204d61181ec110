/** What a client can achieve while the service accepts requests and no call fails: an upload
    is recorded and queued, a file that can be seen can be read and deleted. */
module Requests {
  import opened Rows
  import opened World
  import Actions
  import opened Protocol
  import opened Invariant
  import opened Safety
  import opened Progress
  import Processing

  // ---------- upload ----------

  /** What Create records of an upload. */
  function Uploading(id: FileId, tenant: string, purpose: string, now: int, expiresAt: int): Row {
    Row(tenant, purpose, Uploaded, Path(tenant, id), None, None, now, expiresAt, None)
  }

  lemma MakesDir(w: World, a: ActorId, id: FileId, tenant: string) returns (w': World)
    requires Actions.Serving(w) && a !in w.creators && id !in w.hist.used
    ensures Next(w, Create(CreateDir(a, id, tenant)), w')
    ensures w' == w.(disk := w'.disk, creators := w.creators[a := Creator(id, Path(tenant, id), Made)], hist := w'.hist)
    ensures w'.disk == w.disk[Path(tenant, id) := Dir(false, None, {})]
  {
    w' := w.(disk := w.disk[Path(tenant, id) := EMPTY_DIR],
             creators := w.creators[a := Creator(id, Path(tenant, id), Made)],
             hist := w.hist.(used := w.hist.used + {id}, owner := w.hist.owner[id := InCreator(a)]));
  }

  lemma WritesSource(w: World, a: ActorId) returns (w': World)
    requires a in w.creators && w.creators[a].stage == Made && w.creators[a].dir in w.disk
    ensures Next(w, Create(WriteSource(a, false)), w')
    ensures w' == w.(disk := w'.disk, creators := w.creators[a := w.creators[a].(stage := Written)])
    ensures w.creators[a].dir in w'.disk && w'.disk[w.creators[a].dir].source
  {
    var c := w.creators[a];
    w' := w.(disk := w.disk[c.dir := w.disk[c.dir].(source := true)],
             creators := w.creators[a := c.(stage := Written)]);
  }

  lemma Records(w: World, a: ActorId, row: Row) returns (w': World)
    requires a in w.creators && w.creators[a].stage == Written && w.creators[a].id !in w.rows
    requires Actions.FreshRow(row, w.creators[a], w.now)
    ensures Next(w, Record(AddRow(a, row, false)), w')
    ensures w' == w.(rows := w.rows[w.creators[a].id := row],
                     creators := w.creators[a := w.creators[a].(stage := CreateStage.Submit)], hist := w'.hist)
  {
    var c := w.creators[a];
    w' := w.(rows := w.rows[c.id := row], creators := w.creators[a := c.(stage := CreateStage.Submit)],
             hist := w.hist.(added := w.hist.added + {c.id}));
  }

  lemma NoFaultToUpload(a: ActorId, id: FileId, tenant: string, row: Row)
    ensures !IsFault(Create(CreateDir(a, id, tenant))) && !IsFault(Create(WriteSource(a, false)))
    ensures !IsFault(Record(AddRow(a, row, false)))
  {}

  /** An upload with a new ID ends with its row, its source and its job, whatever its purpose
      and its expiry. */
  lemma UploadReaches(w: World, id: FileId, tenant: string, purpose: string, expiresAt: int)
    returns (vs: seq<World>, ts: seq<Step>, w': World)
    requires Inv(w) && Actions.Serving(w) && id !in w.hist.used && expiresAt >= 0
    ensures Reaches(w, vs, ts, w')
    ensures id in w'.rows && w'.rows[id] == Uploading(id, tenant, purpose, w.now, expiresAt)
    ensures Path(tenant, id) in w'.disk && w'.disk[Path(tenant, id)].source && id in w'.queue
  {
    hide Inv, Next, IsFault, Reaches, Processing.IsEnqueue;
    var a := Processing.NewNumber(w.creators.Keys);
    var row := Uploading(id, tenant, purpose, w.now, expiresAt);
    NewIsNoRow(w, id);
    NoFaultToUpload(a, id, tenant, row);
    var v0 := MakesDir(w, a, id, tenant);
    var v1 := WritesSource(v0, a);
    var v2 := Records(v1, a, row);
    w' := Processing.SubmitEnqueues(v2, a);
    EnqueuedIsThere(v2, w', id);
    ReachesByStep(v2, Record(RecordStep.Submit(a, false)), w');
    vs, ts := ReachesByStepAndPath(v1, Record(AddRow(a, row, false)), v2, [v2, w'],
                                   [Record(RecordStep.Submit(a, false))], w');
    vs, ts := ReachesByStepAndPath(v0, Create(WriteSource(a, false)), v1, vs, ts, w');
    vs, ts := ReachesByStepAndPath(w, Create(CreateDir(a, id, tenant)), v0, vs, ts, w');
    SubmitLeavesDisk(v2, a, w');
  }

  lemma EnqueuedIsThere(w: World, w': World, id: FileId)
    requires Processing.IsEnqueue(w, w', id)
    ensures id in w'.queue && w'.rows == w.rows
  {}

  lemma SubmitLeavesDisk(w: World, a: ActorId, w': World)
    requires Next(w, Record(RecordStep.Submit(a, false)), w')
    ensures w'.disk == w.disk
  {}

  lemma NewIsNoRow(w: World, id: FileId)
    requires Inv(w) && id !in w.hist.used
    ensures id !in w.rows
  {
    hide LeakInv, WorkDiskInv, ConversionInv, LeaseInv, ReaderInv, MarkerInv, DeleterInv, AwaitConversionInv, DiskInv,
      AwaitLeaseInv, PendingInv, StrandInv, CreatorInv, WorkerInv, BacklogInv, QueueInv, TimerInv, RetryInv, ForgetInv;
  }

  // ---------- reading ----------

  lemma FindsFile(w: World, r: ActorId, id: FileId, tenant: string, manifest: bool) returns (w': World)
    requires Actions.Serving(w) && r !in w.readers && Get(w.rows, id, tenant, w.now).Some?
    requires manifest ==> w.rows[id].status == Processed && w.rows[id].manifestPath.Some?
    ensures Next(w, Read(Find(r, id, tenant, manifest)), w')
    ensures w' == w.(readers := w.readers[r := Reader(id, w.rows[id], manifest, Found)])
  {
    w' := w.(readers := w.readers[r := Reader(id, w.rows[id], manifest, Found)]);
  }

  lemma AcquireIsEnabled(w: World, r: ActorId) returns (w': World)
    requires LeaseOk(w) && r in w.readers && w.readers[r].stage.Found? && w.readers[r].id !in w.deleting
    ensures Actions.AcquireLease(w, r, w')
  {
    var d := w.readers[r];
    var known := d.id in w.leases;
    var l := if known then w.leases[d.id] else w.next;
    var lease := if known then w.leaseObjs[l].(refs := w.leaseObjs[l].refs + 1) else Lease(d.id, 1, false);
    w' := w.(leases := if known then w.leases else w.leases[d.id := l], next := if known then w.next else w.next + 1,
             leaseObjs := w.leaseObjs[l := lease], readers := w.readers[r := d.(stage := Leased(l))]);
  }

  lemma TakesLease(w: World, r: ActorId) returns (w': World)
    requires LeaseOk(w) && r in w.readers && w.readers[r].stage.Found? && w.readers[r].id !in w.deleting
    ensures Next(w, Read(Acquire(r)), w')
    ensures w'.disk == w.disk && r in w'.readers && w'.readers[r].stage.Leased?
    ensures w'.readers[r] == w.readers[r].(stage := w'.readers[r].stage)
  {
    w' := AcquireIsEnabled(w, r);
  }

  lemma OpensFile(w: World, r: ActorId) returns (w': World)
    requires r in w.readers && w.readers[r].stage.Leased? && w.readers[r].record.dir in w.disk
    requires var x := w.readers[r];
      if x.manifest then x.record.manifestPath == Some(x.record.dir) && w.disk[x.record.dir].manifest.Some?
      else w.disk[x.record.dir].source
    ensures Next(w, Read(Open(r)), w') && w'.disk == w.disk && r in w'.readers && w'.readers[r].stage.Reading?
    ensures var x := w.readers[r];
      && w'.readers[r] == x.(stage := w'.readers[r].stage)
      && (x.manifest ==> Some(w'.readers[r].stage.named) == w.disk[x.record.dir].manifest)
  {
    var d := w.readers[r];
    var named := if d.manifest then w.disk[d.record.dir].manifest.value else {};
    w' := w.(readers := w.readers[r := d.(stage := Reading(d.stage.token, named))]);
  }

  lemma SeenIsThere(w: World, id: FileId)
    requires Inv(w) && id in w.rows && Visible(w.rows[id], w.now)
    ensures var row := w.rows[id];
      && row.dir in w.disk && w.disk[row.dir].source
      && (row.status == Processed ==> row.manifestPath == Some(row.dir) && Complete(w.disk[row.dir]))
  {
    hide LeakInv, WorkDiskInv, ConversionInv, LeaseInv, ReaderInv, MarkerInv, DeleterInv, AwaitConversionInv, Complete,
      AwaitLeaseInv, PendingInv, StrandInv, CreatorInv, WorkerInv, BacklogInv, QueueInv, TimerInv, RetryInv, ForgetInv;
  }

  lemma LeasesNow(w: World)
    requires Inv(w)
    ensures LeaseOk(w)
  {
    hide LeaseInv;
  }

  lemma NoFaultToRead(r: ActorId, id: FileId, tenant: string, manifest: bool)
    ensures !IsFault(Read(Find(r, id, tenant, manifest))) && !IsFault(Read(Acquire(r))) && !IsFault(Read(Open(r)))
  {}

  /** A file that can be seen and is not being deleted can be read: its source, and once it is
      processed its manifest with all the artifacts that it names. */
  lemma ReadReaches(w: World, id: FileId, tenant: string, manifest: bool)
    returns (vs: seq<World>, ts: seq<Step>, w': World, r: ActorId)
    requires Inv(w) && Actions.Serving(w) && Get(w.rows, id, tenant, w.now).Some? && id !in w.deleting
    requires manifest ==> w.rows[id].status == Processed
    ensures Reaches(w, vs, ts, w') && w'.disk == w.disk
    ensures r in w'.readers && w'.readers[r].id == id && w'.readers[r].stage.Reading?
    ensures var dir := w.rows[id].dir;
      && dir in w'.disk && w'.disk[dir].source
      && (manifest ==>
            && w'.disk[dir].manifest == Some(w'.readers[r].stage.named)
            && w'.readers[r].stage.named <= w'.disk[dir].parts)
  {
    hide Inv, Next, IsFault, Reaches;
    SeenIsThere(w, id);
    LeasesNow(w);
    r := Processing.NewNumber(w.readers.Keys);
    NoFaultToRead(r, id, tenant, manifest);
    var v0 := FindsFile(w, r, id, tenant, manifest);
    NextKeepsInv(w, Read(Find(r, id, tenant, manifest)), v0);
    LeasesNow(v0);
    var v1 := TakesLease(v0, r);
    w' := OpensFile(v1, r);
    ReachesByStep(v1, Read(Open(r)), w');
    vs, ts := ReachesByStepAndPath(v0, Read(Acquire(r)), v1, [v1, w'], [Read(Open(r))], w');
    vs, ts := ReachesByStepAndPath(w, Read(Find(r, id, tenant, manifest)), v0, vs, ts, w');
  }

  // ---------- deletion ----------

  lemma FindsVictim(w: World, d: ActorId, id: FileId, tenant: string) returns (w': World)
    requires Actions.Serving(w) && d !in w.deleters && Get(w.rows, id, tenant, w.now).Some?
    ensures Next(w, Delete(FindVictim(d, id, tenant)), w')
    ensures w' == w.(deleters := w.deleters[d := Deleter(id, w.rows[id], true, Snapshot)])
  {
    w' := w.(deleters := w.deleters[d := Deleter(id, w.rows[id], true, Snapshot)]);
  }

  lemma NoFaultToDelete(d: ActorId, id: FileId, tenant: string)
    ensures !IsFault(Delete(FindVictim(d, id, tenant)))
  {}

  /** A file that can be seen and is not being deleted can be deleted: row and directory go,
      and the call returns true. */
  lemma DeleteReaches(w: World, id: FileId, tenant: string)
    returns (vs: seq<World>, ts: seq<Step>, w': World)
    requires Inv(w) && Actions.Serving(w) && Get(w.rows, id, tenant, w.now).Some? && id !in w.deleting
    ensures Reaches(w, vs, ts, w') && Gone(w', id) && id in w'.hist.acked
  {
    hide Inv, Next, IsFault, Reaches, Gone;
    var d := Processing.NewNumber(w.deleters.Keys);
    NoFaultToDelete(d, id, tenant);
    var v := FindsVictim(w, d, id, tenant);
    NextKeepsInv(w, Delete(FindVictim(d, id, tenant)), v);
    vs, ts, w' := DeletionFinishes(v, d);
    vs, ts := ReachesByStepAndPath(w, Delete(FindVictim(d, id, tenant)), v, vs, ts, w');
  }

  // ---------- shutdown ----------

  lemma Interrupts(w: World) returns (w': World)
    requires w.phase.Running?
    ensures Next(w, System(Interrupt), w') && w' == w.(stopping := true)
  {
    w' := w.(stopping := true);
  }

  lemma Closes(w: World) returns (w': World)
    requires w.stopping
    ensures Next(w, System(CloseLifecycle), w') && w' == w.(closed := true)
  {
    w' := w.(closed := true);
  }

  lemma Quits(w: World, a: ActorId) returns (w': World)
    requires w.stopping && a in w.workers && w.workers[a].Idle?
    ensures Next(w, Work(Quit(a)), w') && w' == w.(workers := w.workers - {a})
  {
    w' := w.(workers := w.workers - {a});
  }

  lemma NoFaultToStop(a: ActorId)
    ensures !IsFault(System(Interrupt)) && !IsFault(System(CloseLifecycle)) && !IsFault(Work(Quit(a)))
  {}

  /** Whenever the service runs it can be told to stop; then an idle worker leaves, and what is
      stored is as it was. */
  lemma StopReaches(w: World, a: ActorId) returns (vs: seq<World>, ts: seq<Step>, w': World)
    requires w.phase.Running? && a in w.workers && w.workers[a].Idle?
    ensures Reaches(w, vs, ts, w') && w'.stopping && w'.closed && a !in w'.workers
    ensures w'.rows == w.rows && w'.disk == w.disk
  {
    hide Next, IsFault, Reaches;
    NoFaultToStop(a);
    var v0 := Interrupts(w);
    var v1 := Closes(v0);
    w' := Quits(v1, a);
    ReachesByStep(v1, Work(Quit(a)), w');
    vs, ts := ReachesByStepAndPath(v0, System(CloseLifecycle), v1, [v1, w'], [Work(Quit(a))], w');
    vs, ts := ReachesByStepAndPath(w, System(Interrupt), v0, vs, ts, w');
  }

  // ---------- over runs ----------

  /** At any moment of any run at which the service accepts requests an upload with a new ID
      can end with its row, as it was requested, its source and its job in the queue. */
  lemma UploadCanSucceed(ws: seq<World>, ss: seq<Step>, i: nat, id: FileId, tenant: string, purpose: string,
                         expiresAt: int)
    returns (vs: seq<World>, ts: seq<Step>, w': World)
    requires IsRun(ws, ss) && i < |ws| && Actions.Serving(ws[i]) && id !in ws[i].hist.used && expiresAt >= 0
    ensures Reaches(ws[i], vs, ts, w')
    ensures id in w'.rows && w'.rows[id] == Uploading(id, tenant, purpose, ws[i].now, expiresAt)
    ensures Path(tenant, id) in w'.disk && w'.disk[Path(tenant, id)].source && id in w'.queue
  {
    hide Inv, Reaches;
    RunKeepsInv(ws, ss, i);
    vs, ts, w' := UploadReaches(ws[i], id, tenant, purpose, expiresAt);
  }

  /** A visible file that is not being deleted can be read, ... */
  lemma ReadCanSucceed(ws: seq<World>, ss: seq<Step>, i: nat, id: FileId, tenant: string, manifest: bool)
    returns (vs: seq<World>, ts: seq<Step>, w': World, r: ActorId)
    requires IsRun(ws, ss) && i < |ws| && Actions.Serving(ws[i])
    requires Get(ws[i].rows, id, tenant, ws[i].now).Some? && id !in ws[i].deleting
    requires manifest ==> ws[i].rows[id].status == Processed
    ensures Reaches(ws[i], vs, ts, w') && w'.disk == ws[i].disk
    ensures r in w'.readers && w'.readers[r].id == id && w'.readers[r].stage.Reading?
    ensures var dir := ws[i].rows[id].dir;
      && dir in w'.disk && w'.disk[dir].source
      && (manifest ==>
            && w'.disk[dir].manifest == Some(w'.readers[r].stage.named)
            && w'.readers[r].stage.named <= w'.disk[dir].parts)
  {
    hide Inv, Reaches;
    RunKeepsInv(ws, ss, i);
    vs, ts, w', r := ReadReaches(ws[i], id, tenant, manifest);
  }

  /** ... and deleted: row and directory go, and the call returns true. */
  lemma DeleteCanSucceed(ws: seq<World>, ss: seq<Step>, i: nat, id: FileId, tenant: string)
    returns (vs: seq<World>, ts: seq<Step>, w': World)
    requires IsRun(ws, ss) && i < |ws| && Actions.Serving(ws[i])
    requires Get(ws[i].rows, id, tenant, ws[i].now).Some? && id !in ws[i].deleting
    ensures Reaches(ws[i], vs, ts, w') && Gone(w', id) && id in w'.hist.acked
  {
    hide Inv, Reaches;
    RunKeepsInv(ws, ss, i);
    vs, ts, w' := DeleteReaches(ws[i], id, tenant);
  }
}
