/** Main result about conversion: a file that waits for its conversion can be processed, by
    steps of which none fails, exactly as long as no worker has settled that it will not. */
module Processing {
  import opened Rows
  import opened World
  import Actions
  import opened Protocol
  import opened Invariant
  import opened Frames
  import opened Moves
  import opened Safety
  import Jobs
  import Deletion
  import opened Retries
  import opened Outcomes
  import opened Progress

  // ---------- what is wanted ----------

  /** The conversion that ended so is over, with `retries` retries made. */
  predicate IsBeyond(out: Outcome, retries: nat) {
    out.Fatal? || out.Finished? || retries >= MAX_RETRIES
  }

  /** From here a worker settles the file without processing it. */
  predicate IsHopeless(s: WorkStage, retries: nat) {
    match s
    case Reject => true
    case GiveUp => true
    case Forget => true
    case Unregister(out) => IsBeyond(out, retries)
    case Signal(out) => IsBeyond(out, retries)
    case Handle(out) => IsBeyond(out, retries)
    case _ => false
  }

  predicate HoldsHopeless(w: World, a: ActorId, id: FileId) {
    Holds(w, a, id) && IsHopeless(w.workers[a].stage, At(w.retry, id, 0))
  }

  ghost predicate IsDoomed(w: World, id: FileId) {
    exists a :: HoldsHopeless(w, a, id)
  }

  /** The file can be seen, is processed, and has all the artifacts its manifest names. */
  predicate IsProcessed(w: World, id: FileId) {
    && id in w.rows && Visible(w.rows[id], w.now)
    && w.rows[id].status == Processed && w.rows[id].manifestPath == Some(w.rows[id].dir)
    && w.rows[id].dir in w.disk && Complete(w.disk[w.rows[id].dir])
  }

  /** The file waits for its conversion, and the service has workers. */
  predicate Waits(w: World, id: FileId) {
    && w.phase.Running? && !w.stopping && w.workers != map[]
    && id in w.rows && Visible(w.rows[id], w.now) && IsPending(w.rows[id].status) && id !in w.hist.stranded
  }

  ghost predicate IsOpen(w: World, id: FileId) {
    Waits(w, id) && !IsDoomed(w, id)
  }

  // ---------- one turn of a worker ----------

  /** The next point of a worker when nothing fails; none when its job is over. */
  function NextStage(s: WorkStage, live: bool, retries: nat): Option<WorkStage> {
    match s
    case Begin => Some(WorkStage.Lookup)
    case Lookup => Some(if live then WorkStage.Claim else WorkStage.Unregister(Outcome.Finished))
    case Claim => Some(if live then WorkStage.Start else WorkStage.Unregister(Outcome.Finished))
    case Start => Some(Converting)
    case Converting => Some(WorkStage.Publish)
    case Publish => Some(WorkStage.Unregister(Outcome.Finished))
    case Reject => Some(WorkStage.Unregister(Outcome.Finished))
    case Unregister(out) => Some(WorkStage.Signal(out))
    case Signal(out) => Some(WorkStage.Handle(out))
    case Handle(out) =>
      Some(match out
           case Finished => WorkStage.Forget
           case Fatal => WorkStage.GiveUp
           case Retryable => if retries >= MAX_RETRIES then WorkStage.GiveUp else WorkStage.Inspect(retries))
    case GiveUp => Some(WorkStage.Forget)
    case Inspect(n) => Some(if live then WorkStage.Bump(n) else WorkStage.Forget)
    case Bump(n) => Some(WorkStage.Arm(n))
    case Arm(_) => None
    case Forget => None
  }

  function StageRank(s: WorkStage): nat {
    match s
    case Begin => 15
    case Lookup => 14
    case Claim => 13
    case Start => 12
    case Converting => 11
    case Publish => 10
    case Reject => 10
    case Unregister(_) => 9
    case Signal(_) => 8
    case Handle(_) => 7
    case Inspect(_) => 6
    case Bump(_) => 5
    case Arm(_) => 4
    case GiveUp => 2
    case Forget => 1
  }

  /** What no turn of worker `b` changes. */
  ghost predicate Leaves(w: World, w': World, b: ActorId) {
    && b in w.workers && b in w'.workers && w'.workers == w.workers[b := w'.workers[b]]
    && w'.phase == w.phase && w'.stopping == w.stopping && w'.now == w.now && w'.creators == w.creators
    && w'.queue == w.queue && w'.hist.stranded == w.hist.stranded
    && (forall t | t in w.timers :: t in w'.timers && w'.timers[t] == w.timers[t])
  }

  ghost predicate LeavesOthers(w: World, w': World, own: FileId) {
    forall x | x != own :: RowOf(w'.rows, x) == RowOf(w.rows, x) && At(w'.retry, x, 0) == At(w.retry, x, 0)
  }

  /** The file waits on, unless this is the turn that settles it. */
  ghost predicate LeavesWaiting(w: World, w': World, id: FileId) {
    id in w.rows && Visible(w.rows[id], w.now) && IsPending(w.rows[id].status) ==>
      && id in w'.rows && Visible(w'.rows[id], w.now) && IsPending(w'.rows[id].status)
      && w'.rows[id].dir == w.rows[id].dir
  }

  predicate Settles(s: WorkStage) {
    s.Publish? || s.Reject? || s.GiveUp?
  }

  /** Worker `b` has done the next thing about its job, and nothing failed. */
  ghost predicate IsTurn(w: World, w': World, b: ActorId)
    requires b in w.workers && w.workers[b].Job?
  {
    var id, stage := w.workers[b].id, w.workers[b].stage;
    var next := NextStage(stage, Live(w.rows, id), At(w.retry, id, 0));
    && Leaves(w, w', b) && LeavesOthers(w, w', id)
    && (if next.None? then w'.workers[b].Idle?
        else w'.workers[b].Job? && w'.workers[b].id == id && w'.workers[b].stage == next.value)
    && (!Settles(stage) ==> LeavesWaiting(w, w', id))
    && (!stage.Bump? && !stage.Forget? ==> w'.retry == w.retry)
    && (stage.Arm? ==> exists t :: t in w'.timers && w'.timers[t] == id)
  }

  lemma BeginTurn(w: World, b: ActorId) returns (w': World)
    requires Actions.Working(w, b, WorkStage.Begin)
    ensures Next(w, Work(WorkStep.Begin(b)), w') && IsTurn(w, w', b)
  {
    var j := w.workers[b];
    w' := w.(states := w.states[w.next := Conversion(j.id, b, true)],
             conversions := w.conversions[j.id := w.next], next := w.next + 1,
             workers := w.workers[b := j.(token := w.next, stage := WorkStage.Lookup)]);
  }

  lemma LookupTurn(w: World, b: ActorId) returns (w': World)
    requires Actions.Working(w, b, WorkStage.Lookup)
    ensures Next(w, Work(WorkStep.Lookup(b, false)), w') && IsTurn(w, w', b)
  {
    w' := Deletion.LookupIsEnabled(w, b, false);
  }

  lemma ClaimTurn(w: World, b: ActorId) returns (w': World)
    requires Actions.Working(w, b, WorkStage.Claim)
    ensures Next(w, Work(WorkStep.Claim(b, false)), w') && IsTurn(w, w', b)
  {
    w' := Deletion.ClaimIsEnabled(w, b, false);
  }

  lemma StartTurn(w: World, b: ActorId) returns (w': World)
    requires Actions.Working(w, b, WorkStage.Start)
    ensures Next(w, Work(WorkStep.Start(b, true)), w') && IsTurn(w, w', b)
  {
    w' := Deletion.StartIsEnabled(w, b, true);
  }

  lemma PublishTurn(w: World, b: ActorId) returns (w': World)
    requires WorkerOk(w) && WorkDiskOk(w) && Actions.Working(w, b, WorkStage.Publish)
    ensures Next(w, Convert(ConvertStep.Publish(b, false)), w') && IsTurn(w, w', b)
    ensures Waits(w, w.workers[b].id) ==> IsProcessed(w', w.workers[b].id)
  {
    w' := Deletion.PublishIsEnabled(w, b, false);
  }

  lemma RejectTurn(w: World, b: ActorId) returns (w': World)
    requires Actions.Working(w, b, WorkStage.Reject)
    ensures Next(w, Convert(ConvertStep.Reject(b, "no converter", false)), w') && IsTurn(w, w', b)
  {
    w' := Deletion.RejectIsEnabled(w, b, "no converter", false);
  }

  lemma UnregisterTurn(w: World, b: ActorId) returns (w': World)
    requires b in w.workers && w.workers[b].Job? && w.workers[b].stage.Unregister?
    ensures Next(w, Convert(ConvertStep.Unregister(b)), w') && IsTurn(w, w', b)
  {
    w' := Deletion.UnregisterIsEnabled(w, b);
  }

  lemma SignalTurn(w: World, b: ActorId) returns (w': World)
    requires ConversionOk(w) && b in w.workers && w.workers[b].Job? && w.workers[b].stage.Signal?
    ensures Next(w, Convert(ConvertStep.Signal(b)), w') && IsTurn(w, w', b)
  {
    w' := Deletion.SignalIsEnabled(w, b);
  }

  lemma HandleIsEnabled(w: World, b: ActorId) returns (w': World)
    requires b in w.workers && w.workers[b].Job? && w.workers[b].stage.Handle?
    ensures Actions.HandleErr(w, b, w')
  {
    var id := w.workers[b].id;
    var next := NextStage(w.workers[b].stage, Live(w.rows, id), At(w.retry, id, 0)).value;
    w' := w.(workers := Actions.ToStage(w, b, next));
  }

  lemma HandleTurn(w: World, b: ActorId) returns (w': World)
    requires b in w.workers && w.workers[b].Job? && w.workers[b].stage.Handle?
    ensures Next(w, Step.Retry(RetryStep.Handle(b)), w') && IsTurn(w, w', b)
  {
    w' := HandleIsEnabled(w, b);
  }

  lemma GiveUpIsEnabled(w: World, b: ActorId, message: string) returns (w': World)
    requires Actions.Working(w, b, WorkStage.GiveUp)
    ensures Actions.GiveUpJob(w, b, message, false, w')
  {
    var id := w.workers[b].id;
    w' := w.(rows := Actions.MarkFailed(w.rows, id, message, false),
             hist := Actions.NoteFailed(w.hist, w.rows, id, false),
             workers := Actions.ToStage(w, b, WorkStage.Forget));
  }

  lemma GiveUpTurn(w: World, b: ActorId) returns (w': World)
    requires Actions.Working(w, b, WorkStage.GiveUp)
    ensures Next(w, Step.Retry(RetryStep.GiveUp(b, "conversion failed", false)), w') && IsTurn(w, w', b)
  {
    w' := GiveUpIsEnabled(w, b, "conversion failed");
  }

  lemma InspectIsEnabled(w: World, b: ActorId) returns (w': World)
    requires b in w.workers && w.workers[b].Job? && w.workers[b].stage.Inspect?
    ensures Actions.FileActive(w, b, false, w')
  {
    var j := w.workers[b];
    w' := w.(workers := Actions.ToStage(w, b,
               if Live(w.rows, j.id) then WorkStage.Bump(j.stage.retries) else WorkStage.Forget),
             hist := w.hist.(stranded := w.hist.stranded + {}));
  }

  lemma InspectTurn(w: World, b: ActorId) returns (w': World)
    requires b in w.workers && w.workers[b].Job? && w.workers[b].stage.Inspect?
    ensures Next(w, Step.Retry(RetryStep.Inspect(b, false)), w') && IsTurn(w, w', b)
  {
    w' := InspectIsEnabled(w, b);
  }

  lemma BumpIsEnabled(w: World, b: ActorId) returns (w': World)
    requires b in w.workers && w.workers[b].Job? && w.workers[b].stage.Bump?
    ensures Actions.BumpRetry(w, b, w')
  {
    var j := w.workers[b];
    w' := w.(retry := w.retry[j.id := At(w.retry, j.id, 0) + 1],
             workers := Actions.ToStage(w, b, WorkStage.Arm(j.stage.retries)));
  }

  lemma BumpTurn(w: World, b: ActorId) returns (w': World)
    requires b in w.workers && w.workers[b].Job? && w.workers[b].stage.Bump?
    ensures Next(w, Backoff(BackoffStep.Bump(b)), w') && IsTurn(w, w', b)
  {
    w' := BumpIsEnabled(w, b);
  }

  lemma {:induction false} NewNumber(used: set<ActorId>) returns (t: ActorId)
    ensures forall x | x in used :: x < t
    decreases used
  {
    t := 0;
    if used != {} {
      var x :| x in used;
      t := NewNumber(used - {x});
      t := if t > x then t else x + 1;
      assert forall y | y in used :: y == x || y in used - {x};
    }
  }

  lemma ArmIsEnabled(w: World, b: ActorId, t: ActorId) returns (w': World)
    requires b in w.workers && w.workers[b].Job? && w.workers[b].stage.Arm? && t !in w.timers
    ensures Actions.ArmTimer(w, b, t, w') && t in w'.timers && w'.timers[t] == w.workers[b].id
  {
    var j := w.workers[b];
    w' := w.(timers := w.timers[t := j.id], workers := w.workers[b := Idle],
             hist := w.hist.(owner := w.hist.owner[j.id := InTimer(t)],
                             delay := w.hist.delay[j.id := At(w.hist.delay, j.id, 0) + Pow2(j.stage.retries)]));
  }

  lemma ArmTurn(w: World, b: ActorId, t: ActorId) returns (w': World)
    requires b in w.workers && w.workers[b].Job? && w.workers[b].stage.Arm? && t !in w.timers
    ensures Next(w, Backoff(BackoffStep.Arm(b, t)), w') && IsTurn(w, w', b)
  {
    w' := ArmIsEnabled(w, b, t);
  }

  lemma ForgetTurn(w: World, b: ActorId) returns (w': World)
    requires Actions.Working(w, b, WorkStage.Forget)
    ensures Next(w, Backoff(BackoffStep.Forget(b)), w') && IsTurn(w, w', b)
  {
    w' := w.(retry := w.retry - {w.workers[b].id}, workers := w.workers[b := Idle]);
  }

  /** Convert writes its manifest and returns. */
  lemma ConvertTurn(w: World, b: ActorId) returns (vs: seq<World>, ts: seq<Step>, w': World)
    requires Inv(w) && Actions.Working(w, b, Converting)
    ensures Reaches(w, vs, ts, w') && Inv(w') && IsTurn(w, w', b)
  {
    hide Inv, Next, Reaches, IsTurn;
    var v, d := ConvertWritesAll(w, b);
    NextKeepsInv(w, Convert(Write(b, d)), v);
    w' := ConvertReturnsWell(w, v, b);
    NextKeepsInv(v, Convert(Return(b, Outcome.Finished)), w');
    ReachesByStep(v, Convert(Return(b, Outcome.Finished)), w');
    vs, ts := ReachesByStepAndPath(w, Convert(Write(b, d)), v, [v, w'], [Convert(Return(b, Outcome.Finished))], w');
  }

  lemma ConvertWritesAll(w: World, b: ActorId) returns (w': World, d: Dir)
    requires Inv(w) && Actions.Working(w, b, Converting)
    ensures Next(w, Convert(Write(b, d)), w') && w' == w.(disk := w'.disk)
    ensures w.workers[b].dir in w'.disk && Complete(w'.disk[w.workers[b].dir])
  {
    hide QuietOk, RowsInv, LeakInv, DiskInv, ConversionInv, LeaseInv, ReaderInv, MarkerInv, DeleterInv,
      AwaitConversionInv, AwaitLeaseInv, PendingInv, StrandInv, CreatorInv, WorkerInv, BacklogInv, QueueInv, TimerInv,
      RetryInv, ForgetInv;
    var dir := w.workers[b].dir;
    d := w.disk[dir].(manifest := Some({}));
    w' := w.(disk := w.disk[dir := d]);
  }

  lemma ConvertReturnsWell(w: World, v: World, b: ActorId) returns (w': World)
    requires Actions.Working(w, b, Converting) && v == w.(disk := v.disk)
    requires w.workers[b].dir in v.disk && Complete(v.disk[w.workers[b].dir])
    ensures Next(v, Convert(Return(b, Outcome.Finished)), w') && IsTurn(w, w', b)
  {
    w' := Deletion.ReturnIsEnabled(v, b, Outcome.Finished);
  }

  lemma FaultlessTurns(b: ActorId, t: ActorId)
    ensures !IsFault(Work(WorkStep.Begin(b))) && !IsFault(Work(WorkStep.Lookup(b, false)))
    ensures !IsFault(Work(WorkStep.Claim(b, false))) && !IsFault(Work(WorkStep.Start(b, true)))
    ensures !IsFault(Convert(ConvertStep.Publish(b, false)))
    ensures !IsFault(Convert(ConvertStep.Reject(b, "no converter", false)))
    ensures !IsFault(Convert(ConvertStep.Unregister(b))) && !IsFault(Convert(ConvertStep.Signal(b)))
    ensures !IsFault(Step.Retry(RetryStep.Handle(b))) && !IsFault(Step.Retry(RetryStep.Inspect(b, false)))
    ensures !IsFault(Step.Retry(RetryStep.GiveUp(b, "conversion failed", false)))
    ensures !IsFault(Backoff(BackoffStep.Bump(b))) && !IsFault(Backoff(BackoffStep.Arm(b, t)))
    ensures !IsFault(Backoff(BackoffStep.Forget(b)))
  {}

  /** The steps of a turn but for Convert's. */
  lemma StepTurn(w: World, b: ActorId) returns (s: Step, w': World)
    requires Inv(w) && b in w.workers && w.workers[b].Job? && !w.workers[b].stage.Converting?
    ensures Next(w, s, w') && !IsFault(s) && IsTurn(w, w', b)
  {
    hide QuietOk, RowsInv, LeakInv, DiskInv, ConversionInv, LeaseInv, ReaderInv, MarkerInv, DeleterInv, WorkDiskInv,
      AwaitConversionInv, AwaitLeaseInv, PendingInv, StrandInv, CreatorInv, WorkerInv, BacklogInv, QueueInv, TimerInv,
      RetryInv, ForgetInv, Next, IsTurn, IsFault;
    var t := NewNumber(w.timers.Keys);
    FaultlessTurns(b, t);
    match w.workers[b].stage
    case Begin => s := Work(WorkStep.Begin(b)); w' := BeginTurn(w, b);
    case Lookup => s := Work(WorkStep.Lookup(b, false)); w' := LookupTurn(w, b);
    case Claim => s := Work(WorkStep.Claim(b, false)); w' := ClaimTurn(w, b);
    case Start => s := Work(WorkStep.Start(b, true)); w' := StartTurn(w, b);
    case Publish => s := Convert(ConvertStep.Publish(b, false)); w' := PublishTurn(w, b);
    case Reject => s := Convert(ConvertStep.Reject(b, "no converter", false)); w' := RejectTurn(w, b);
    case Unregister(_) => s := Convert(ConvertStep.Unregister(b)); w' := UnregisterTurn(w, b);
    case Signal(_) => s := Convert(ConvertStep.Signal(b)); w' := SignalTurn(w, b);
    case Handle(_) => s := Step.Retry(RetryStep.Handle(b)); w' := HandleTurn(w, b);
    case GiveUp => s := Step.Retry(RetryStep.GiveUp(b, "conversion failed", false)); w' := GiveUpTurn(w, b);
    case Inspect(_) => s := Step.Retry(RetryStep.Inspect(b, false)); w' := InspectTurn(w, b);
    case Bump(_) => s := Backoff(BackoffStep.Bump(b)); w' := BumpTurn(w, b);
    case Arm(_) => s := Backoff(BackoffStep.Arm(b, t)); w' := ArmTurn(w, b, t);
    case Forget => s := Backoff(BackoffStep.Forget(b)); w' := ForgetTurn(w, b);
    case Converting =>
  }

  lemma TakesTurn(w: World, b: ActorId) returns (vs: seq<World>, ts: seq<Step>, w': World)
    requires Inv(w) && b in w.workers && w.workers[b].Job?
    ensures Reaches(w, vs, ts, w') && Inv(w') && IsTurn(w, w', b)
  {
    hide Inv, Next, Reaches, IsTurn, IsFault;
    if w.workers[b].stage.Converting? {
      vs, ts, w' := ConvertTurn(w, b);
    } else {
      var s;
      s, w' := StepTurn(w, b);
      NextKeepsInv(w, s, w');
      ReachesByStep(w, s, w');
      vs, ts := [w, w'], [s];
    }
  }

  // ---------- the other jobs ----------

  lemma OthersTurn(w: World, w': World, b: ActorId, id: FileId)
    requires b in w.workers && w.workers[b].Job? && w.workers[b].id != id && IsOpen(w, id) && IsTurn(w, w', b)
    ensures IsOpen(w', id) && w'.queue == w.queue && !Holds(w', b, id)
  {
    hide IsHopeless, NextStage;
    assert RowOf(w'.rows, id) == RowOf(w.rows, id);
    forall a | HoldsHopeless(w', a, id) ensures HoldsHopeless(w, a, id) {}
  }

  lemma RankFalls(w: World, w': World, b: ActorId)
    requires b in w.workers && w.workers[b].Job? && IsTurn(w, w', b)
    ensures b in w'.workers
    ensures w'.workers[b].Job? ==> StageRank(w'.workers[b].stage) < StageRank(w.workers[b].stage)
  {}

  /** A worker finishes what it does about other files. */
  lemma {:induction false} ComesFree(w: World, b: ActorId, id: FileId)
    returns (vs: seq<World>, ts: seq<Step>, w': World)
    requires Inv(w) && IsOpen(w, id) && b in w.workers && !Holds(w, b, id)
    ensures Reaches(w, vs, ts, w') && Inv(w') && IsOpen(w', id) && w'.queue == w.queue
    ensures b in w'.workers && w'.workers[b].Idle?
    decreases if w.workers[b].Job? then StageRank(w.workers[b].stage) else 0
  {
    hide Inv, Next, Reaches, IsTurn, IsOpen, StageRank;
    if w.workers[b].Idle? {
      vs, ts, w' := [w], [], w;
      ReachesItself(w);
    } else {
      var us, qs, v := TakesTurn(w, b);
      OthersTurn(w, v, b, id);
      RankFalls(w, v, b);
      RankIsPositive(w.workers[b].stage);
      vs, ts, w' := ComesFree(v, b, id);
      vs, ts := ReachesBoth(w, us, qs, v, vs, ts, w');
    }
  }

  lemma RankIsPositive(s: WorkStage)
    ensures StageRank(s) > 0
  {}

  lemma TakesFirst(w: World, b: ActorId, id: FileId) returns (w': World)
    requires IsOpen(w, id) && b in w.workers && w.workers[b].Idle? && w.queue != []
    ensures Next(w, Work(Take(b)), w') && IsOpen(w', id) && w'.queue == w.queue[1..]
    ensures b in w'.workers && w'.workers[b] == Job(w.queue[0], 0, Path("", w.queue[0]), WorkStage.Begin)
  {
    var first := w.queue[0];
    w' := w.(queue := w.queue[1..], workers := w.workers[b := Job(first, 0, Path("", first), WorkStage.Begin)],
             hist := w.hist.(owner := w.hist.owner[first := InWorker(b)]));
    forall a | HoldsHopeless(w', a, id) ensures HoldsHopeless(w, a, id) {}
  }

  // ---------- the file's own job ----------

  predicate Converts(s: WorkStage) {
    s.Begin? || s.Lookup? || s.Claim? || s.Start? || s.Converting? || s.Publish?
  }

  predicate Fails(s: WorkStage) {
    s.Unregister? || s.Signal? || s.Handle? || s.Inspect? || s.Bump? || s.Arm?
  }

  lemma IsSoleHolder(w: World, b: ActorId, id: FileId)
    requires Inv(w) && Holds(w, b, id)
    ensures SoleHolder(w, b, id)
  {
    hide QuietOk, RowsInv, LeakInv, DiskInv, ConversionInv, LeaseInv, ReaderInv, MarkerInv, DeleterInv, WorkDiskInv,
      AwaitConversionInv, AwaitLeaseInv, PendingInv, StrandInv, CreatorInv, WorkerInv, BacklogInv, QueueInv, TimerInv,
      RetryInv, ForgetInv, SoleHolder;
    JobHasOneHolder(w, b);
  }

  lemma OwnTurn(w: World, w': World, b: ActorId, id: FileId)
    requires IsOpen(w, id) && Holds(w, b, id) && SoleHolder(w, b, id) && IsTurn(w, w', b)
    requires !w.workers[b].stage.Publish?
    ensures IsOpen(w', id)
    ensures Converts(w.workers[b].stage) ==> Holds(w', b, id) && Converts(w'.workers[b].stage)
    ensures Fails(w.workers[b].stage) && !w.workers[b].stage.Arm? ==> Holds(w', b, id) && Fails(w'.workers[b].stage)
  {
    assert !HoldsHopeless(w, b, id);
    forall a ensures !HoldsHopeless(w', a, id) {
      if a == b && Holds(w', b, id) {
        assert Live(w.rows, id);
      }
    }
  }

  lemma PublishedTurn(w: World, b: ActorId, id: FileId) returns (vs: seq<World>, ts: seq<Step>, w': World)
    requires Inv(w) && IsOpen(w, id) && Holds(w, b, id) && w.workers[b].stage.Publish?
    ensures Reaches(w, vs, ts, w') && IsProcessed(w', id)
  {
    hide QuietOk, RowsInv, LeakInv, DiskInv, ConversionInv, LeaseInv, ReaderInv, MarkerInv, DeleterInv, WorkDiskInv,
      AwaitConversionInv, AwaitLeaseInv, PendingInv, StrandInv, CreatorInv, WorkerInv, BacklogInv, QueueInv, TimerInv,
      RetryInv, ForgetInv, Next, IsTurn, IsFault, Reaches, IsProcessed;
    w' := PublishTurn(w, b);
    FaultlessTurns(b, 0);
    vs, ts := [w, w'], [Convert(ConvertStep.Publish(b, false))];
    ReachesByStep(w, ts[0], w');
  }

  /** The job is with a worker that is about to convert, or converts. */
  lemma {:induction false} ConvertingEnds(w: World, b: ActorId, id: FileId)
    returns (vs: seq<World>, ts: seq<Step>, w': World)
    requires Inv(w) && IsOpen(w, id) && Holds(w, b, id) && Converts(w.workers[b].stage)
    ensures Reaches(w, vs, ts, w') && IsProcessed(w', id)
    decreases StageRank(w.workers[b].stage)
  {
    hide Inv, Next, Reaches, IsTurn, IsOpen, StageRank, SoleHolder, IsProcessed, Converts;
    if w.workers[b].stage.Publish? {
      vs, ts, w' := PublishedTurn(w, b, id);
    } else {
      var us, qs, v := TakesTurn(w, b);
      IsSoleHolder(w, b, id);
      OwnTurn(w, v, b, id);
      RankFalls(w, v, b);
      vs, ts, w' := ConvertingEnds(v, b, id);
      vs, ts := ReachesBoth(w, us, qs, v, vs, ts, w');
    }
  }

  lemma QueuedIsNotHeld(w: World, b: ActorId, id: FileId)
    requires Inv(w) && id in w.queue
    ensures !Holds(w, b, id)
  {
    hide Inv, SoleHolder;
    NotSole(w, b, id);
    if Holds(w, b, id) {
      IsSoleHolder(w, b, id);
    }
  }

  lemma NotSole(w: World, b: ActorId, id: FileId)
    requires id in w.queue
    ensures !SoleHolder(w, b, id)
  {}

  lemma AWorker(w: World, id: FileId) returns (b: ActorId)
    requires IsOpen(w, id)
    ensures b in w.workers
  {
    NoKeys(w.workers);
    b :| b in w.workers;
  }

  lemma NoKeys(workers: map<ActorId, Worker>)
    ensures workers.Keys == {} ==> workers == map[]
  {}

  /** The job waits in the queue behind `k` others. */
  lemma {:induction false} QueueDrains(w: World, id: FileId, k: nat)
    returns (vs: seq<World>, ts: seq<Step>, w': World)
    requires Inv(w) && IsOpen(w, id) && k < |w.queue| && w.queue[k] == id
    ensures Reaches(w, vs, ts, w') && IsProcessed(w', id)
    decreases k
  {
    hide Inv, Next, Reaches, IsOpen, IsProcessed, IsFault;
    var b := AWorker(w, id);
    QueuedIsNotHeld(w, b, id);
    var us, qs, v := ComesFree(w, b, id);
    var u := TakesFirst(v, b, id);
    NextKeepsInv(v, Work(Take(b)), u);
    assert !IsFault(Work(Take(b))) by { TakeIsNoFault(b); }
    if k == 0 {
      vs, ts, w' := ConvertingEnds(u, b, id);
    } else {
      vs, ts, w' := QueueDrains(u, id, k - 1);
    }
    vs, ts := ReachesByStepAndPath(v, Work(Take(b)), u, vs, ts, w');
    vs, ts := ReachesBoth(w, us, qs, v, vs, ts, w');
  }

  lemma TakeIsNoFault(b: ActorId)
    ensures !IsFault(Work(Take(b)))
  {}

  /** What an enqueue changes. */
  ghost predicate IsEnqueue(w: World, w': World, id: FileId) {
    && w'.queue == w.queue + [id] && w'.workers == w.workers && w'.rows == w.rows && w'.now == w.now
    && w'.stopping == w.stopping && w'.phase.Running? && w'.retry == w.retry && w'.hist.stranded == w.hist.stranded
  }

  lemma EnqueueKeepsOpen(w: World, w': World, x: FileId, id: FileId)
    requires IsOpen(w, id) && IsEnqueue(w, w', x)
    ensures IsOpen(w', id)
  {
    forall a | HoldsHopeless(w', a, id) ensures HoldsHopeless(w, a, id) {}
  }

  /** The job comes into the queue by step `s`. */
  lemma EnqueuedEnds(w: World, s: Step, v: World, id: FileId) returns (vs: seq<World>, ts: seq<Step>, w': World)
    requires Inv(w) && IsOpen(w, id) && Next(w, s, v) && !IsFault(s) && IsEnqueue(w, v, id)
    ensures Reaches(w, vs, ts, w') && IsProcessed(w', id)
  {
    hide Inv, Next, Reaches, IsOpen, IsProcessed, IsFault;
    NextKeepsInv(w, s, v);
    EnqueueKeepsOpen(w, v, id, id);
    vs, ts, w' := QueueDrains(v, id, |w.queue|);
    vs, ts := ReachesByStepAndPath(w, s, v, vs, ts, w');
  }

  lemma FireEnqueues(w: World, t: ActorId) returns (w': World)
    requires t in w.timers && w.phase.Running?
    ensures Next(w, Backoff(Fire(t, false)), w') && !IsFault(Backoff(Fire(t, false))) && IsEnqueue(w, w', w.timers[t])
  {
    var id := w.timers[t];
    w' := w.(timers := w.timers - {t}, queue := w.queue + [id],
             hist := w.hist.(owner := w.hist.owner[id := InQueue]));
  }

  lemma SubmitEnqueues(w: World, a: ActorId) returns (w': World)
    requires a in w.creators && w.creators[a].stage.Submit? && w.phase.Running?
    ensures Next(w, Record(RecordStep.Submit(a, false)), w') && !IsFault(Record(RecordStep.Submit(a, false)))
    ensures IsEnqueue(w, w', w.creators[a].id)
  {
    var id := w.creators[a].id;
    w' := w.(creators := w.creators - {a}, queue := w.queue + [id],
             hist := w.hist.(owner := w.hist.owner[id := InQueue]));
  }

  lemma ResubmitEnqueues(w: World) returns (w': World)
    requires w.phase.Running? && w.phase.backlog != []
    ensures Next(w, System(Resubmit(false)), w') && !IsFault(System(Resubmit(false)))
    ensures IsEnqueue(w, w', w.phase.backlog[0]) && w'.phase == Running(w.phase.backlog[1..])
  {
    var id := w.phase.backlog[0];
    w' := w.(phase := Running(w.phase.backlog[1..]), queue := w.queue + [id],
             hist := w.hist.(owner := w.hist.owner[id := InQueue]));
  }

  lemma {:induction false} BacklogEnds(w: World, id: FileId, k: nat)
    returns (vs: seq<World>, ts: seq<Step>, w': World)
    requires Inv(w) && IsOpen(w, id) && w.phase.Running? && k < |w.phase.backlog| && w.phase.backlog[k] == id
    ensures Reaches(w, vs, ts, w') && IsProcessed(w', id)
    decreases k
  {
    hide Inv, Next, Reaches, IsOpen, IsProcessed, IsFault, IsEnqueue;
    var v := ResubmitEnqueues(w);
    if k == 0 {
      vs, ts, w' := EnqueuedEnds(w, System(Resubmit(false)), v, id);
    } else {
      NextKeepsInv(w, System(Resubmit(false)), v);
      EnqueueKeepsOpen(w, v, w.phase.backlog[0], id);
      vs, ts, w' := BacklogEnds(v, id, k - 1);
      vs, ts := ReachesByStepAndPath(w, System(Resubmit(false)), v, vs, ts, w');
    }
  }

  lemma OpenIsRunning(w: World, id: FileId)
    requires IsOpen(w, id)
    ensures w.phase.Running? && Waits(w, id)
  {}

  lemma TimerEnds(w: World, t: ActorId, id: FileId) returns (vs: seq<World>, ts: seq<Step>, w': World)
    requires Inv(w) && IsOpen(w, id) && t in w.timers && w.timers[t] == id
    ensures Reaches(w, vs, ts, w') && IsProcessed(w', id)
  {
    hide Inv, Next, Reaches, IsOpen, IsProcessed, IsFault, IsEnqueue;
    OpenIsRunning(w, id);
    var v := FireEnqueues(w, t);
    vs, ts, w' := EnqueuedEnds(w, Backoff(Fire(t, false)), v, id);
  }

  lemma ArmedTurn(w: World, w': World, b: ActorId, id: FileId) returns (t: ActorId)
    requires Holds(w, b, id) && IsTurn(w, w', b) && w.workers[b].stage.Arm?
    ensures t in w'.timers && w'.timers[t] == id
  {
    t :| t in w'.timers && w'.timers[t] == id;
  }

  /** The job is with a worker that has still a retry to make. */
  lemma {:induction false} FailingEnds(w: World, b: ActorId, id: FileId)
    returns (vs: seq<World>, ts: seq<Step>, w': World)
    requires Inv(w) && IsOpen(w, id) && Holds(w, b, id) && Fails(w.workers[b].stage)
    ensures Reaches(w, vs, ts, w') && IsProcessed(w', id)
    decreases StageRank(w.workers[b].stage)
  {
    hide Inv, Next, Reaches, IsTurn, IsOpen, StageRank, SoleHolder, IsProcessed, Converts;
    var us, qs, v := TakesTurn(w, b);
    IsSoleHolder(w, b, id);
    OwnTurn(w, v, b, id);
    RankFalls(w, v, b);
    if w.workers[b].stage.Arm? {
      var t := ArmedTurn(w, v, b, id);
      vs, ts, w' := TimerEnds(v, t, id);
    } else {
      vs, ts, w' := FailingEnds(v, b, id);
    }
    vs, ts := ReachesBoth(w, us, qs, v, vs, ts, w');
  }

  lemma StageIsKnown(w: World, b: ActorId, id: FileId)
    requires IsOpen(w, id) && Holds(w, b, id)
    ensures Converts(w.workers[b].stage) || Fails(w.workers[b].stage)
  {
    assert !HoldsHopeless(w, b, id);
  }

  lemma OpenEnds(w: World, id: FileId) returns (vs: seq<World>, ts: seq<Step>, w': World)
    requires Inv(w) && IsOpen(w, id)
    ensures Reaches(w, vs, ts, w') && IsProcessed(w', id)
  {
    hide Inv, Next, Reaches, IsOpen, IsProcessed, IsFault, IsEnqueue;
    OpenIsRunning(w, id);
    Jobs.JobsGoOn(w, id);
    match w.hist.owner[id]
    case InCreator(a) =>
      var v := SubmitEnqueues(w, a);
      vs, ts, w' := EnqueuedEnds(w, Record(RecordStep.Submit(a, false)), v, id);
    case InBacklog =>
      var k :| 0 <= k < |w.phase.backlog| && w.phase.backlog[k] == id;
      vs, ts, w' := BacklogEnds(w, id, k);
    case InQueue =>
      var k :| 0 <= k < |w.queue| && w.queue[k] == id;
      vs, ts, w' := QueueDrains(w, id, k);
    case InTimer(t) =>
      vs, ts, w' := TimerEnds(w, t, id);
    case InWorker(a) =>
      StageIsKnown(w, a, id);
      if Converts(w.workers[a].stage) {
        vs, ts, w' := ConvertingEnds(w, a, id);
      } else {
        vs, ts, w' := FailingEnds(w, a, id);
      }
  }

  // ---------- a hopeless job ----------

  /** The file is not processed, and its only job, if there is still one, will not do it. */
  ghost predicate IsLost(w: World, a: ActorId, id: FileId) {
    && w.phase.Running? && id in w.hist.used
    && (id in w.rows ==> w.rows[id].status != Processed)
    && (HoldsHopeless(w, a, id) || Over(w, a, id))
  }

  lemma ConvertStaysHopeless(w: World, s: ConvertStep, w': World, id: FileId)
    requires ConvertNext(w, s, w') && HoldsHopeless(w, s.a, id)
    ensures HoldsHopeless(w', s.a, id)
  {}

  lemma RetryStaysHopeless(w: World, s: RetryStep, w': World, id: FileId)
    requires RetryNext(w, s, w') && HoldsHopeless(w, s.a, id)
    ensures HoldsHopeless(w', s.a, id)
  {}

  lemma NothingElseIsHopeless(w: World, s: Step, w': World, a: ActorId, id: FileId)
    requires Next(w, s, w') && IsStepOf(s, a) && HoldsHopeless(w, a, id) && StepsLeft(w, a, id) == 0
    ensures s.Convert? || s.Retry?
  {}

  lemma OwnStepStaysHopeless(w: World, s: Step, w': World, a: ActorId, id: FileId)
    requires Next(w, s, w') && IsStepOf(s, a) && HoldsHopeless(w, a, id) && StepsLeft(w, a, id) == 0
    ensures HoldsHopeless(w', a, id)
  {
    NothingElseIsHopeless(w, s, w', a, id);
    hide ConvertNext, RetryNext, HoldsHopeless;
    if s.Convert? {
      ConvertStaysHopeless(w, s.convert, w', id);
    } else {
      RetryStaysHopeless(w, s.retry, w', id);
    }
  }

  lemma BackoffKeepsCount(w: World, s: BackoffStep, w': World, a: ActorId, id: FileId)
    requires SoleHolder(w, a, id) && BackoffNext(w, s, w') && (s.Fire? || s.a != a)
    ensures At(w'.retry, id, 0) == At(w.retry, id, 0)
  {}

  lemma OthersKeepCount(w: World, s: Step, w': World, a: ActorId, id: FileId)
    requires SoleHolder(w, a, id) && Next(w, s, w') && !IsStepOf(s, a) && s != System(Crash)
    ensures At(w'.retry, id, 0) == At(w.retry, id, 0)
  {
    hide SystemNext, CreateNext, RecordNext, WorkNext, ConvertNext, RetryNext, BackoffNext, ReadNext,
      DeleteNext, WaitNext, EraseNext, SoleHolder;
    match s
    case System(x) => SystemFrame(w, x, w');
    case Create(x) => CreateFrame(w, x, w');
    case Record(x) => RecordFrame(w, x, w');
    case Work(x) => WorkFrame(w, x, w');
    case Convert(x) => ConvertFrame(w, x, w');
    case Retry(x) => RetryFrame(w, x, w');
    case Backoff(x) => BackoffKeepsCount(w, x, w', a, id);
    case Read(x) => ReadFrame(w, x, w');
    case Delete(x) => DeleteFrame(w, x, w');
    case Wait(x) => WaitFrame(w, x, w');
    case Erase(x) => EraseFrame(w, x, w');
  }

  lemma HopelessStays(w: World, s: Step, w': World, a: ActorId, id: FileId)
    requires Inv(w) && HoldsHopeless(w, a, id) && StepsLeft(w, a, id) == 0 && Next(w, s, w') && s != System(Crash)
    ensures HoldsHopeless(w', a, id)
  {
    hide Inv, Next, SoleHolder, IsHopeless;
    if IsStepOf(s, a) {
      OwnStepStaysHopeless(w, s, w', a, id);
    } else {
      IsSoleHolder(w, a, id);
      OthersKeepCount(w, s, w', a, id);
      QuietNow(w);
      OthersLeaveWorker(w, s, w', a);
    }
  }

  lemma HopelessRuns(w: World, a: ActorId, id: FileId)
    requires QuietOk(w) && HoldsHopeless(w, a, id)
    ensures w.phase.Running?
  {}

  lemma WorkersNow(w: World)
    requires Inv(w)
    ensures WorkerOk(w) && RowsOk(w)
  {
    hide WorkerInv, RowsInv;
  }

  lemma RowIsNotProcessed(w: World, s: Step, w': World, a: ActorId, id: FileId)
    requires Inv(w) && IsLost(w, a, id) && Next(w, s, w')
    ensures id in w'.rows ==> w'.rows[id].status != Processed
  {
    hide Inv, Next, AfterStep, SoleHolder, NoJob;
    WorkersNow(w);
    StepWrites(w, s, w', id);
    if id in w'.rows && w'.rows[id].status == Processed {
      if id in w.rows {
        IsPublish(w, s, w', id);
        PublishStep(w, s.convert.a, s.convert.fail, w');
        IsSoleHolder(w, s.convert.a, id);
        NobodyPublishes(w, s.convert.a, a, id);
      } else {
        ProcessedIsNoNewRow(w, s, w', id);
      }
    }
  }

  lemma NobodyPublishes(w: World, b: ActorId, a: ActorId, id: FileId)
    requires SoleHolder(w, b, id) && Holds(w, b, id) && w.workers[b].stage.Publish?
    ensures !HoldsHopeless(w, a, id) && !Over(w, a, id)
  {}

  lemma ProcessedIsNoNewRow(w: World, s: Step, w': World, id: FileId)
    requires id !in w.rows && id in w'.rows && Next(w, s, w') && RowOf(w'.rows, id) == AfterStep(w, s, id)
    ensures w'.rows[id].status == Uploaded
  {
    hide Next, Actions.AddRow;
    AddStep(w, s, w');
    AddedRowIsNew(w, s.record.a, s.record.row, w');
  }

  lemma StepKeepsLost(w: World, s: Step, w': World, a: ActorId, id: FileId)
    requires Inv(w) && Inv(w') && IsLost(w, a, id) && Next(w, s, w') && s != System(Crash)
    ensures IsLost(w', a, id)
  {
    hide Inv, Next, HoldsHopeless, Winds, NoJob;
    RowIsNotProcessed(w, s, w', a, id);
    if Over(w, a, id) {
      StepWinds(w, s, w', a, id);
      WindsMeans(w, s, w', a, id);
    } else {
      NotOver(w, a, id);
      HopelessStays(w, s, w', a, id);
      QuietNow(w');
      HopelessRuns(w', a, id);
      UsedNow(w', a, id);
    }
  }

  lemma NotOver(w: World, a: ActorId, id: FileId)
    requires w.phase.Running? && id in w.hist.used && !Over(w, a, id)
    ensures StepsLeft(w, a, id) == 0
  {}

  lemma UsedNow(w: World, a: ActorId, id: FileId)
    requires Inv(w) && HoldsHopeless(w, a, id)
    ensures id in w.hist.used
  {
    hide QuietOk, LeakInv, DiskInv, ConversionInv, LeaseInv, ReaderInv, MarkerInv, DeleterInv, WorkDiskInv,
      AwaitConversionInv, AwaitLeaseInv, PendingInv, StrandInv, CreatorInv, BacklogInv, QueueInv, TimerInv,
      RetryInv, ForgetInv, IsHopeless;
  }

  lemma {:induction false} LostForGood(vs: seq<World>, ts: seq<Step>, j: nat, a: ActorId, id: FileId)
    requires IsPath(vs, ts) && j < |vs| && Inv(vs[0]) && IsLost(vs[0], a, id)
    requires forall k | 0 <= k < j :: ts[k] != System(Crash)
    ensures Inv(vs[j]) && IsLost(vs[j], a, id)
    decreases j
  {
    hide Inv, Next, IsLost;
    if j > 0 {
      LostForGood(vs, ts, j - 1, a, id);
      assert StepAt(vs, ts, j - 1);
      NextKeepsInv(vs[j - 1], ts[j - 1], vs[j]);
      StepKeepsLost(vs[j - 1], ts[j - 1], vs[j], a, id);
    }
  }

  lemma DoomedIsLost(w: World, id: FileId) returns (a: ActorId)
    requires Inv(w) && Waits(w, id) && IsDoomed(w, id)
    ensures IsLost(w, a, id)
  {
    hide Inv, IsHopeless;
    a :| HoldsHopeless(w, a, id);
    UsedNow(w, a, id);
  }

  lemma DoomedIsNotReached(w: World, id: FileId, vs: seq<World>, ts: seq<Step>, w': World)
    requires Inv(w) && Waits(w, id) && IsDoomed(w, id) && Reaches(w, vs, ts, w')
    ensures !IsProcessed(w', id)
  {
    hide Inv, Next, IsDoomed, IsFault;
    var a := DoomedIsLost(w, id);
    forall k | 0 <= k < |ts| ensures ts[k] != System(Crash) {
      assert ts[k] in ts;
      CrashIsFault();
    }
    LostForGood(vs, ts, |ts|, a, id);
  }

  lemma CrashIsFault()
    ensures IsFault(System(Crash))
  {}

  /** At any moment of any run at which the service is up and has a worker: a visible file
      that waits for its conversion, and that no store error stranded, can come to be
      processed with a complete manifest, in steps of which none fails, if and only if no
      worker has settled that it will not: it found no converter, met an error that no retry
      can mend, or met one with all three retries made. */
  lemma ProcessedExactlyWhen(ws: seq<World>, ss: seq<Step>, i: nat, id: FileId)
    requires IsRun(ws, ss) && i < |ws| && Waits(ws[i], id)
    ensures (exists vs, ts, w' :: Reaches(ws[i], vs, ts, w') && IsProcessed(w', id)) <==> !IsDoomed(ws[i], id)
  {
    hide IsPath, Inv, Next, Reaches, IsProcessed, IsDoomed, Waits;
    RunKeepsInv(ws, ss, i);
    var w := ws[i];
    if IsDoomed(w, id) {
      forall vs, ts, w' | Reaches(w, vs, ts, w') ensures !IsProcessed(w', id) {
        DoomedIsNotReached(w, id, vs, ts, w');
      }
    } else {
      var vs, ts, w' := OpenEnds(w, id);
    }
  }
}
