/** What can always be brought to an end, by steps of which none fails: a deletion, from
    wherever it stands. */
module Progress {
  import opened Rows
  import opened World
  import Actions
  import opened Protocol
  import opened Invariant
  import opened Safety
  import Deletion

  // ---------- paths without a fault ----------

  /** From `w` to `w'` in steps of which none fails. */
  ghost predicate Reaches(w: World, vs: seq<World>, ts: seq<Step>, w': World) {
    IsPath(vs, ts) && vs[0] == w && vs[|ts|] == w' && forall t | t in ts :: !IsFault(t)
  }

  lemma ReachesItself(w: World)
    ensures Reaches(w, [w], [], w)
  {}

  lemma ReachesBoth(u: World, us: seq<World>, qs: seq<Step>, v: World, vs: seq<World>, ts: seq<Step>, w: World)
    returns (ws: seq<World>, ss: seq<Step>)
    requires Reaches(u, us, qs, v) && Reaches(v, vs, ts, w)
    ensures Reaches(u, ws, ss, w)
  {
    hide Next, IsFault;
    PathsJoin(us, qs, vs, ts);
    ws, ss := us + vs[1..], qs + ts;
  }

  lemma ReachesByStep(w: World, s: Step, w': World)
    requires Next(w, s, w') && !IsFault(s)
    ensures Reaches(w, [w, w'], [s], w')
  {
    hide Next, IsFault;
    assert StepAt([w, w'], [s], 0);
  }

  lemma ReachesByStepAndPath(u: World, s: Step, v: World, vs: seq<World>, ts: seq<Step>, w: World)
    returns (us: seq<World>, qs: seq<Step>)
    requires Next(u, s, v) && !IsFault(s) && Reaches(v, vs, ts, w)
    ensures Reaches(u, us, qs, w)
  {
    hide Next, IsFault, Reaches;
    ReachesByStep(u, s, v);
    us, qs := ReachesBoth(u, [u, v], [s], v, vs, ts, w);
  }

  lemma QuietNow(w: World)
    requires Inv(w)
    ensures QuietOk(w)
  {
    hide QuietOk;
  }

  // ---------- deletion ----------

  /** How far a deletion is from its end. */
  function Rank(s: DeleteStage): nat {
    match s
    case Snapshot => 11
    case Mark => 10
    case FindConversion => 9
    case CheckConversion(_) => 8
    case AwaitConversion(_) => 7
    case FindLease => 6
    case CheckLease(_) => 5
    case AwaitLease(_) => 4
    case RemoveDir => 3
    case RemoveRow => 2
    case Abandon => 1
    case End(_) => 1
  }

  /** The deletion goes on to remove the file, or has removed it: the row is marked, or will
      be, and nobody else is deleting it. */
  predicate Erases(w: World, d: ActorId)
    requires d in w.deleters
  {
    var x := w.deleters[d];
    match x.stage
    case Snapshot =>
      x.id !in w.deleting && ((!x.api && x.record.deletedAt.Some?) || Markable(w.rows, x.id, x.record.tenant))
    case Mark => Markable(w.rows, x.id, x.record.tenant)
    case Abandon => false
    case End(deleted) => deleted
    case _ => true
  }

  ghost predicate Gone(w: World, id: FileId) {
    id !in w.rows && NoDirOf(w.disk, id)
  }

  /** Deleter `d` has taken a step of its own: it is nearer to its end, and still removes the
      file if it did before. */
  ghost predicate Advances(w: World, d: ActorId, w': World)
    requires d in w.deleters
  {
    && d in w'.deleters && w'.deleters[d].id == w.deleters[d].id && w'.deleters[d].api == w.deleters[d].api
    && w'.deleters == w.deleters[d := w'.deleters[d]]
    && Rank(w'.deleters[d].stage) < Rank(w.deleters[d].stage)
    && (Erases(w, d) ==> Erases(w', d))
  }

  predicate Waiting(s: DeleteStage) {
    s.AwaitConversion? || s.AwaitLease?
  }

  lemma BeginAdvances(w: World, d: ActorId) returns (w': World)
    requires Actions.Deleting(w, d, Snapshot) && w.deleters[d].id !in w.deleting
    ensures Next(w, Delete(DeleteStep.Begin(d)), w') && Advances(w, d, w')
  {
    var x := w.deleters[d];
    var stage := if !x.api && x.record.deletedAt.Some? then DeleteStage.FindConversion else DeleteStage.Mark;
    w' := w.(deleting := w.deleting[x.id := d], deleters := Actions.Advance(w, d, stage));
  }

  lemma BeginRefused(w: World, d: ActorId) returns (w': World)
    requires Actions.Deleting(w, d, Snapshot) && w.deleters[d].id in w.deleting
    ensures Next(w, Delete(DeleteStep.Begin(d)), w') && w'.deleters == w.deleters - {d}
  {
    w' := w.(deleters := w.deleters - {d});
  }

  lemma MarkAdvances(w: World, d: ActorId) returns (w': World)
    requires Actions.Deleting(w, d, DeleteStage.Mark)
    ensures Next(w, Delete(DeleteStep.Mark(d, false)), w') && Advances(w, d, w')
  {
    var x := w.deleters[d];
    var stage := if Markable(w.rows, x.id, x.record.tenant) then DeleteStage.FindConversion else DeleteStage.Abandon;
    w' := w.(rows := MarkDeleted(w.rows, x.id, x.record.tenant, w.now), deleters := Actions.Advance(w, d, stage));
  }

  lemma LookForConversionAdvances(w: World, d: ActorId) returns (w': World)
    requires Actions.Deleting(w, d, DeleteStage.FindConversion)
    ensures Next(w, Wait(WaitStep.FindConversion(d)), w') && Advances(w, d, w')
  {
    var x := w.deleters[d];
    w' := w.(deleters := Actions.Advance(w, d,
      if x.id in w.conversions then DeleteStage.CheckConversion(w.conversions[x.id]) else DeleteStage.FindLease));
  }

  lemma LookForLeaseAdvances(w: World, d: ActorId) returns (w': World)
    requires Actions.Deleting(w, d, DeleteStage.FindLease)
    ensures Next(w, Wait(WaitStep.FindLease(d)), w') && Advances(w, d, w')
  {
    var x := w.deleters[d];
    w' := w.(deleters := Actions.Advance(w, d,
      if x.id in w.leases then DeleteStage.CheckLease(w.leases[x.id]) else RemoveDir));
  }

  lemma CheckConversionAdvances(w: World, d: ActorId) returns (w': World)
    requires AwaitConversionOk(w) && d in w.deleters && w.deleters[d].stage.CheckConversion?
    ensures Next(w, Wait(WaitStep.CheckConversion(d)), w') && Advances(w, d, w')
  {
    assert KnowsConversion(w.deleters[d], w.workers, w.states);
    var t := w.deleters[d].stage.token;
    w' := w.(deleters := Actions.Advance(w, d,
      if w.states[t].active then DeleteStage.AwaitConversion(t) else DeleteStage.FindLease));
  }

  lemma CheckLeaseAdvances(w: World, d: ActorId) returns (w': World)
    requires AwaitLeaseOk(w) && d in w.deleters && w.deleters[d].stage.CheckLease?
    ensures Next(w, Wait(WaitStep.CheckLease(d)), w') && Advances(w, d, w')
  {
    assert KnowsLease(w.deleters[d], w.readers, w.leaseObjs);
    var l := w.deleters[d].stage.lease;
    w' := w.(deleters := Actions.Advance(w, d, if w.leaseObjs[l].refs == 0 then RemoveDir else DeleteStage.AwaitLease(l)));
  }

  lemma RemoveDirAdvances(w: World, d: ActorId) returns (w': World)
    requires Actions.Deleting(w, d, RemoveDir)
    ensures Next(w, Erase(EraseStep.DeleteDir(d, None)), w') && Advances(w, d, w')
  {
    var dir := w.deleters[d].record.dir;
    w' := w.(disk := Actions.RemoveAll(w.disk, dir, None), hist := Actions.NoteTorn(w.hist, dir, None),
             deleters := Actions.Advance(w, d, RemoveRow));
  }

  /** A deleter that is not waiting and still has to come to RemoveRow moves on by itself. */
  lemma DeleterAdvances(w: World, d: ActorId) returns (s: Step, w': World)
    requires Inv(w) && d in w.deleters && Rank(w.deleters[d].stage) > 2 && !Waiting(w.deleters[d].stage)
    requires w.deleters[d].stage.Snapshot? ==> w.deleters[d].id !in w.deleting
    ensures Next(w, s, w') && !IsFault(s) && Advances(w, d, w')
  {
    hide QuietOk, RowsInv, DiskInv, LeakInv, CreatorInv, BacklogInv, QueueInv, TimerInv, WorkerInv, WorkDiskInv,
      PendingInv, StrandInv, ConversionInv, LeaseInv, ReaderInv, MarkerInv, DeleterInv, AwaitConversionInv,
      AwaitLeaseInv, RetryInv, ForgetInv, Next, Advances;
    match w.deleters[d].stage
    case Snapshot =>
      s := Delete(DeleteStep.Begin(d));
      w' := BeginAdvances(w, d);
    case Mark =>
      s := Delete(DeleteStep.Mark(d, false));
      w' := MarkAdvances(w, d);
    case FindConversion =>
      s := Wait(WaitStep.FindConversion(d));
      w' := LookForConversionAdvances(w, d);
    case CheckConversion(_) =>
      s := Wait(WaitStep.CheckConversion(d));
      w' := CheckConversionAdvances(w, d);
    case FindLease =>
      s := Wait(WaitStep.FindLease(d));
      w' := LookForLeaseAdvances(w, d);
    case CheckLease(_) =>
      s := Wait(WaitStep.CheckLease(d));
      w' := CheckLeaseAdvances(w, d);
    case RemoveDir =>
      s := Erase(EraseStep.DeleteDir(d, None));
      w' := RemoveDirAdvances(w, d);
    case _ =>
  }

  /** A deleter that waits: first the others, then its own step. */
  lemma WaiterAdvances(w: World, d: ActorId) returns (vs: seq<World>, ts: seq<Step>, w': World)
    requires Inv(w) && d in w.deleters && Waiting(w.deleters[d].stage)
    ensures Reaches(w, vs, ts, w') && Inv(w') && Advances(w, d, w')
  {
    hide Inv, Next, IsFault, Deletion.Debt, Reaches;
    var us, qs := Deletion.WaitCanEnd(w, d);
    var v := us[|qs|];
    assert Reaches(w, us, qs, v) by { ReachesMeans(w, us, qs, v); }
    var s: Step;
    if w.deleters[d].stage.AwaitConversion? {
      s := Wait(ConversionDone(d));
      w' := Deletion.SignalEndsWait(v, d);
    } else {
      s := Wait(LeaseDone(d));
      w' := Deletion.ReleaseEndsWait(v, d);
    }
    StepOfWaiter(v, s, w');
    NextKeepsInv(v, s, w');
    ReachesByStep(v, s, w');
    vs, ts := ReachesBoth(w, us, qs, v, [v, w'], [s], w');
    OnlyOneMoves(v, s, w', d);
  }

  lemma ReachesMeans(w: World, vs: seq<World>, ts: seq<Step>, w': World)
    requires IsPath(vs, ts) && vs[0] == w && vs[|ts|] == w' && forall t | t in ts :: !IsFault(t)
    ensures Reaches(w, vs, ts, w')
  {
    hide IsPath, IsFault;
  }

  lemma StepOfWaiter(v: World, s: Step, w': World)
    requires s.Wait? && WaitNext(v, s.wait, w')
    ensures Next(v, s, w') && !IsFault(s)
  {}

  lemma OnlyOneMoves(v: World, s: Step, w': World, d: ActorId)
    requires Next(v, s, w') && (s == Wait(ConversionDone(d)) || s == Wait(LeaseDone(d))) && d in v.deleters
    ensures d in w'.deleters && w'.deleters[d].id == v.deleters[d].id && w'.deleters[d].api == v.deleters[d].api
    ensures w'.deleters == v.deleters[d := w'.deleters[d]]
  {}

  lemma EndIsEnabled(w: World, d: ActorId) returns (w': World)
    requires d in w.deleters && (w.deleters[d].stage.Abandon? || w.deleters[d].stage.End?)
    ensures Actions.EndDeletion(w, d, w')
  {
    var x := w.deleters[d];
    w' := w.(deleting := if x.id in w.deleting && w.deleting[x.id] == d then w.deleting - {x.id} else w.deleting,
             deleters := w.deleters - {d},
             hist := w.hist.(acked := w.hist.acked + (if x.api && x.stage == DeleteStage.End(true) then {x.id} else {})));
  }

  lemma EndStep(w: World, d: ActorId) returns (w': World)
    requires d in w.deleters && (w.deleters[d].stage.Abandon? || w.deleters[d].stage.End?)
    ensures Next(w, Delete(DeleteStep.End(d)), w') && w'.deleters == w.deleters - {d}
    ensures w'.rows == w.rows && w'.disk == w.disk
    ensures w.deleters[d].api && w.deleters[d].stage == DeleteStage.End(true) ==> w.deleters[d].id in w'.hist.acked
  {
    w' := EndIsEnabled(w, d);
  }

  lemma DeleteRowStep(w: World, d: ActorId) returns (w': World)
    requires DeleterOk(w) && Actions.Deleting(w, d, RemoveRow)
    ensures Next(w, Erase(EraseStep.DeleteRow(d, false)), w') && Gone(w', w.deleters[d].id)
    ensures d in w'.deleters && w'.deleters == w.deleters[d := w'.deleters[d]]
    ensures w'.deleters[d].id == w.deleters[d].id && w'.deleters[d].api == w.deleters[d].api
    ensures w'.deleters[d].stage.End? && (w.deleters[d].api ==> w'.deleters[d].stage == DeleteStage.End(true))
  {
    var x := w.deleters[d];
    w' := w.(rows := Remove(w.rows, x.id, x.record.tenant),
             deleters := Actions.Advance(w, d, DeleteStage.End(Owned(w.rows, x.id, x.record.tenant))));
  }

  /** The deletion is over: `d` is gone, no other deletion has moved, and the file is gone if
      it was to be; then a Delete call has returned true. */
  ghost predicate Finished(w: World, d: ActorId, w': World)
    requires d in w.deleters
  {
    && w'.deleters == w.deleters - {d}
    && (Erases(w, d) ==> Gone(w', w.deleters[d].id))
    && (Erases(w, d) && w.deleters[d].api ==> w.deleters[d].id in w'.hist.acked)
  }

  lemma DeletedIsGone(w: World, d: ActorId)
    requires DeleterOk(w) && d in w.deleters
    ensures w.deleters[d].stage == DeleteStage.End(true) ==> Gone(w, w.deleters[d].id)
  {}

  lemma LastSteps(w: World, d: ActorId) returns (vs: seq<World>, ts: seq<Step>, w': World)
    requires Inv(w) && d in w.deleters && Rank(w.deleters[d].stage) <= 2
    ensures Reaches(w, vs, ts, w') && Finished(w, d, w')
  {
    hide QuietOk, RowsInv, DiskInv, LeakInv, CreatorInv, BacklogInv, QueueInv, TimerInv, WorkerInv, WorkDiskInv,
      PendingInv, StrandInv, ConversionInv, LeaseInv, ReaderInv, MarkerInv, DeleterInv, AwaitConversionInv,
      AwaitLeaseInv, RetryInv, ForgetInv, Next, Reaches;
    if w.deleters[d].stage.RemoveRow? {
      var v := DeleteRowStep(w, d);
      w' := EndStep(v, d);
      ReachesByStep(v, Delete(DeleteStep.End(d)), w');
      vs, ts := ReachesByStepAndPath(w, Erase(EraseStep.DeleteRow(d, false)), v, [v, w'], [Delete(DeleteStep.End(d))], w');
    } else {
      DeletedIsGone(w, d);
      w' := EndStep(w, d);
      vs, ts := [w, w'], [Delete(DeleteStep.End(d))];
      ReachesByStep(w, ts[0], w');
    }
  }

  lemma FinishedLater(w: World, d: ActorId, v: World, w': World)
    requires d in w.deleters && Advances(w, d, v) && Finished(v, d, w')
    ensures Finished(w, d, w')
  {
    hide Erases, Gone;
  }

  lemma {:induction false} DeletionFinishes(w: World, d: ActorId) returns (vs: seq<World>, ts: seq<Step>, w': World)
    requires Inv(w) && d in w.deleters
    ensures Reaches(w, vs, ts, w') && Finished(w, d, w')
    decreases Rank(w.deleters[d].stage)
  {
    hide Inv, Next, IsFault, Reaches, Finished;
    var stage := w.deleters[d].stage;
    if stage.Snapshot? && w.deleters[d].id in w.deleting {
      w' := BeginRefused(w, d);
      vs, ts := [w, w'], [Delete(DeleteStep.Begin(d))];
      NoFaultToBegin(d);
      ReachesByStep(w, ts[0], w');
      RefusedIsFinished(w, d, w');
    } else if Rank(stage) <= 2 {
      vs, ts, w' := LastSteps(w, d);
    } else if Waiting(stage) {
      var us, qs, v := WaiterAdvances(w, d);
      vs, ts, w' := DeletionFinishes(v, d);
      vs, ts := ReachesBoth(w, us, qs, v, vs, ts, w');
      FinishedLater(w, d, v, w');
    } else {
      var s, v := DeleterAdvances(w, d);
      NextKeepsInv(w, s, v);
      vs, ts, w' := DeletionFinishes(v, d);
      vs, ts := ReachesByStepAndPath(w, s, v, vs, ts, w');
      FinishedLater(w, d, v, w');
    }
  }

  lemma NoFaultToBegin(d: ActorId)
    ensures !IsFault(Delete(DeleteStep.Begin(d)))
  {}

  lemma RefusedIsFinished(w: World, d: ActorId, w': World)
    requires Actions.Deleting(w, d, Snapshot) && w.deleters[d].id in w.deleting && w'.deleters == w.deleters - {d}
    ensures Finished(w, d, w')
  {}

  /** From every moment of every run each deletion can come to its end without a failing call:
      a Delete call or a janitor that holds a record, waits or is about to remove.  Other
      deletions stand as they did, and row and directory of the file are gone, unless the
      call has nothing to remove; a Delete call that removes the file returns true. */
  lemma DeletionCanFinish(ws: seq<World>, ss: seq<Step>, i: nat, d: ActorId)
    returns (vs: seq<World>, ts: seq<Step>, w': World)
    requires IsRun(ws, ss) && i < |ws| && d in ws[i].deleters
    ensures Reaches(ws[i], vs, ts, w') && Finished(ws[i], d, w')
  {
    hide Inv, Next, Reaches, Finished;
    RunKeepsInv(ws, ss, i);
    vs, ts, w' := DeletionFinishes(ws[i], d);
  }
}
