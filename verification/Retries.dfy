/** Main results about retries: what a retry needs, and what an error that gets none leaves. */
module Retries {
  import opened Rows
  import opened World
  import Actions
  import opened Protocol
  import opened Invariant
  import opened Moves
  import opened Frames
  import opened Safety

  /** Worker `a` has the job of `id` and has come to `stage`. */
  predicate Stands(w: World, a: ActorId, id: FileId, stage: WorkStage) {
    a in w.workers && w.workers[a].Job? && w.workers[a].id == id && w.workers[a].stage == stage
  }

  /** An error worth a retry is on its way from the conversion to handleErr. */
  predicate Fails(w: World, a: ActorId, id: FileId) {
    || Stands(w, a, id, WorkStage.Unregister(Retryable)) || Stands(w, a, id, WorkStage.Signal(Retryable))
    || Stands(w, a, id, WorkStage.Handle(Retryable))
  }

  /** A store call of convertHandler failed, or Convert returned an error worth a retry. */
  predicate IsError(s: Step, a: ActorId) {
    || s == Work(WorkStep.Lookup(a, true)) || s == Work(WorkStep.Claim(a, true))
    || s == Convert(Return(a, Retryable)) || s == Convert(ConvertStep.Publish(a, true))
  }

  // ---------- what a retry needs ----------

  /** handleErr was called for an error worth a retry, and `n` retries had been made. */
  ghost predicate Accepts(w: World, s: Step, a: ActorId, id: FileId, n: nat) {
    && s == Step.Retry(RetryStep.Handle(a)) && Stands(w, a, id, WorkStage.Handle(Retryable))
    && At(w.retry, id, 0) == n < MAX_RETRIES
  }

  /** fileActive found the file. */
  ghost predicate SeesFile(w: World, s: Step, a: ActorId, id: FileId, n: nat) {
    s == Step.Retry(RetryStep.Inspect(a, false)) && Stands(w, a, id, WorkStage.Inspect(n)) && Live(w.rows, id)
  }

  /** There is one way to each of these points, and it is step `s`. */
  ghost predicate CameBy(w: World, s: Step, w': World, a: ActorId, id: FileId) {
    && (Fails(w', a, id) ==> Fails(w, a, id) || IsError(s, a))
    && (forall n :: Stands(w', a, id, WorkStage.Inspect(n)) ==>
          Stands(w, a, id, WorkStage.Inspect(n)) || Accepts(w, s, a, id, n))
    && (forall n :: Stands(w', a, id, WorkStage.Bump(n)) ==>
          Stands(w, a, id, WorkStage.Bump(n)) || SeesFile(w, s, a, id, n))
  }

  lemma SystemComes(w: World, s: SystemStep, w': World, a: ActorId, id: FileId)
    requires SystemNext(w, s, w')
    ensures CameBy(w, System(s), w', a, id)
  {}

  /** Worker `b` goes on and does not enter handleErr. */
  lemma WorkerComes(w: World, s: Step, w': World, b: ActorId, j: Worker, a: ActorId, id: FileId)
    requires b in w.workers && w'.workers == w.workers[b := j]
    requires j.Job? ==> !j.stage.Inspect? && !j.stage.Bump?
    requires j.Job? && Fails(w', b, j.id) ==> Fails(w, b, j.id) || IsError(s, b)
    ensures CameBy(w, s, w', a, id)
  {
    hide IsError;
  }

  lemma QuitComes(w: World, b: ActorId, w': World, a: ActorId, id: FileId)
    requires Actions.Quit(w, b, w')
    ensures CameBy(w, Work(Quit(b)), w', a, id)
  {
    hide IsError;
  }

  lemma WorkComes(w: World, s: WorkStep, w': World, a: ActorId, id: FileId)
    requires WorkNext(w, s, w')
    ensures CameBy(w, Work(s), w', a, id)
  {
    hide CameBy;
    match s
    case Quit(b) => hide *; QuitComes(w, b, w', a, id);
    case _ => WorkerComes(w, Work(s), w', s.a, w'.workers[s.a], a, id);
  }

  lemma ConvertComes(w: World, s: ConvertStep, w': World, a: ActorId, id: FileId)
    requires ConvertNext(w, s, w')
    ensures CameBy(w, Convert(s), w', a, id)
  {
    hide CameBy;
    WorkerComes(w, Convert(s), w', s.a, w'.workers[s.a], a, id);
  }

  lemma RetryComes(w: World, s: RetryStep, w': World, a: ActorId, id: FileId)
    requires RetryNext(w, s, w')
    ensures CameBy(w, Step.Retry(s), w', a, id)
  {
    hide IsError;
    if s.GiveUp? {
      hide CameBy;
      WorkerComes(w, Step.Retry(s), w', s.a, w'.workers[s.a], a, id);
    } else if a != s.a {
      hide Accepts, SeesFile;
    }
  }

  lemma BackoffComes(w: World, s: BackoffStep, w': World, a: ActorId, id: FileId)
    requires BackoffNext(w, s, w')
    ensures CameBy(w, Backoff(s), w', a, id)
  {}

  lemma StaysPut(w: World, s: Step, w': World, a: ActorId, id: FileId)
    requires w'.workers == w.workers
    ensures CameBy(w, s, w', a, id)
  {}

  lemma StepComes(w: World, s: Step, w': World, a: ActorId, id: FileId)
    requires Next(w, s, w')
    ensures CameBy(w, s, w', a, id)
  {
    hide SystemNext, CreateNext, RecordNext, WorkNext, ConvertNext, RetryNext, BackoffNext, ReadNext,
      DeleteNext, WaitNext, EraseNext, CameBy;
    match s
    case System(x) => SystemComes(w, x, w', a, id);
    case Create(x) => CreateFrame(w, x, w'); StaysPut(w, s, w', a, id);
    case Record(x) => RecordFrame(w, x, w'); StaysPut(w, s, w', a, id);
    case Work(x) => WorkComes(w, x, w', a, id);
    case Convert(x) => ConvertComes(w, x, w', a, id);
    case Retry(x) => RetryComes(w, x, w', a, id);
    case Backoff(x) => BackoffComes(w, x, w', a, id);
    case Read(x) => ReadFrame(w, x, w'); StaysPut(w, s, w', a, id);
    case Delete(x) => DeleteFrame(w, x, w'); StaysPut(w, s, w', a, id);
    case Wait(x) => WaitFrame(w, x, w'); StaysPut(w, s, w', a, id);
    case Erase(x) => EraseFrame(w, x, w'); StaysPut(w, s, w', a, id);
  }

  lemma RunComes(ws: seq<World>, ss: seq<Step>, i: nat, a: ActorId, id: FileId)
    requires IsRun(ws, ss) && i < |ss|
    ensures CameBy(ws[i], ss[i], ws[i + 1], a, id)
  {
    hide Next, CameBy;
    assert StepAt(ws, ss, i);
    StepComes(ws[i], ss[i], ws[i + 1], a, id);
  }

  lemma RunBegins(ws: seq<World>, ss: seq<Step>, a: ActorId)
    requires IsRun(ws, ss)
    ensures |ws| == |ss| + 1 && a !in ws[0].workers
  {}

  lemma {:induction false} WhoFails(ws: seq<World>, ss: seq<Step>, j: nat, a: ActorId, id: FileId) returns (e: nat)
    requires IsRun(ws, ss) && j < |ws| && Fails(ws[j], a, id)
    ensures e < j && IsError(ss[e], a) && forall i | e < i <= j :: Fails(ws[i], a, id)
    decreases j
  {
    hide IsRun, IsError;
    RunBegins(ws, ss, a);
    RunComes(ws, ss, j - 1, a, id);
    e := j - 1;
    if Fails(ws[j - 1], a, id) {
      e := WhoFails(ws, ss, j - 1, a, id);
    }
  }

  lemma {:induction false} WhoInspects(ws: seq<World>, ss: seq<Step>, j: nat, a: ActorId, id: FileId, n: nat)
    returns (h: nat)
    requires IsRun(ws, ss) && j < |ws| && Stands(ws[j], a, id, WorkStage.Inspect(n))
    ensures h < j && Accepts(ws[h], ss[h], a, id, n)
    ensures forall i | h < i <= j :: Stands(ws[i], a, id, WorkStage.Inspect(n))
    decreases j
  {
    hide IsRun, Accepts, SeesFile, Fails, IsError;
    RunBegins(ws, ss, a);
    RunComes(ws, ss, j - 1, a, id);
    h := j - 1;
    if Stands(ws[j - 1], a, id, WorkStage.Inspect(n)) {
      h := WhoInspects(ws, ss, j - 1, a, id, n);
    }
  }

  lemma {:induction false} WhoBumps(ws: seq<World>, ss: seq<Step>, j: nat, a: ActorId, id: FileId, n: nat)
    returns (k: nat)
    requires IsRun(ws, ss) && j < |ws| && Stands(ws[j], a, id, WorkStage.Bump(n))
    ensures k < j && SeesFile(ws[k], ss[k], a, id, n)
    ensures forall i | k < i <= j :: Stands(ws[i], a, id, WorkStage.Bump(n))
    decreases j
  {
    hide IsRun, Accepts, SeesFile, Fails, IsError;
    RunBegins(ws, ss, a);
    RunComes(ws, ss, j - 1, a, id);
    k := j - 1;
    if Stands(ws[j - 1], a, id, WorkStage.Bump(n)) {
      k := WhoBumps(ws, ss, j - 1, a, id, n);
    }
  }

  lemma BackoffCounts(w: World, s: BackoffStep, w': World, id: FileId)
    requires Inv(w) && BackoffNext(w, s, w')
    requires At(w'.retry, id, 0) > At(w.retry, id, 0)
    ensures s.Bump? && Stands(w, s.a, id, WorkStage.Bump(At(w.retry, id, 0)))
    ensures At(w'.retry, id, 0) == At(w.retry, id, 0) + 1
  {
    hide LeakInv, RowsInv, DiskInv, WorkDiskInv, ConversionInv, LeaseInv, ReaderInv, MarkerInv, DeleterInv,
      AwaitConversionInv, AwaitLeaseInv, PendingInv, StrandInv, CreatorInv, BacklogInv, QueueInv, TimerInv, WorkerInv,
      ForgetInv;
    if s.Bump? {
      assert WorkerOnBudget(w.workers[s.a], w.retry, w.hist.calls, w.hist.delay);
    }
  }

  /** Only the step of a worker in enqueueAfter adds a retry, and only one. */
  lemma StepCounts(w: World, s: Step, w': World, id: FileId) returns (a: ActorId)
    requires Inv(w) && Next(w, s, w')
    requires At(w'.retry, id, 0) > At(w.retry, id, 0)
    ensures s == Backoff(BackoffStep.Bump(a)) && Stands(w, a, id, WorkStage.Bump(At(w.retry, id, 0)))
    ensures At(w'.retry, id, 0) == At(w.retry, id, 0) + 1
  {
    hide Inv, SystemNext, CreateNext, RecordNext, WorkNext, ConvertNext, RetryNext, BackoffNext, ReadNext,
      DeleteNext, WaitNext, EraseNext;
    match s
    case System(x) => SystemFrame(w, x, w');
    case Create(x) => CreateFrame(w, x, w');
    case Record(x) => RecordFrame(w, x, w');
    case Work(x) => WorkFrame(w, x, w');
    case Convert(x) => ConvertFrame(w, x, w');
    case Retry(x) => RetryFrame(w, x, w');
    case Backoff(x) =>
      BackoffCounts(w, x, w', id);
      a := x.a;
    case Read(x) => ReadFrame(w, x, w');
    case Delete(x) => DeleteFrame(w, x, w');
    case Wait(x) => WaitFrame(w, x, w');
    case Erase(x) => EraseFrame(w, x, w');
  }

  /** A retry of `id`, added by step `i`, and the steps it goes back to: the error at `e`,
      handleErr at `h` and fileActive at `k`.  Nothing happened to the worker in between. */
  ghost predicate Justified(ws: seq<World>, ss: seq<Step>, e: nat, h: nat, k: nat, i: nat, a: ActorId, id: FileId)
    requires |ws| == |ss| + 1 && e < h < k < i < |ss|
  {
    var n := At(ws[i].retry, id, 0);
    && IsError(ss[e], a) && (forall j | e < j <= h :: Fails(ws[j], a, id))
    && Accepts(ws[h], ss[h], a, id, n) && (forall j | h < j <= k :: Stands(ws[j], a, id, WorkStage.Inspect(n)))
    && SeesFile(ws[k], ss[k], a, id, n) && (forall j | k < j <= i :: Stands(ws[j], a, id, WorkStage.Bump(n)))
    && ss[i] == Backoff(BackoffStep.Bump(a)) && At(ws[i + 1].retry, id, 0) == n + 1
  }

  /** A retry is added, one at a time, only for an error worth it, seen for at most the third
      time, of a file that was still there when handleErr asked. */
  lemma RetryNeedsRetryableError(ws: seq<World>, ss: seq<Step>, i: nat, id: FileId)
    returns (e: nat, h: nat, k: nat, a: ActorId)
    requires IsRun(ws, ss) && i < |ss|
    requires At(ws[i + 1].retry, id, 0) > At(ws[i].retry, id, 0)
    ensures e < h < k < i && Justified(ws, ss, e, h, k, i, a, id)
  {
    hide Inv, Next, IsError;
    RunKeepsInv(ws, ss, i);
    assert StepAt(ws, ss, i);
    a := StepCounts(ws[i], ss[i], ws[i + 1], id);
    var n := At(ws[i].retry, id, 0);
    k := WhoBumps(ws, ss, i, a, id, n);
    h := WhoInspects(ws, ss, k, a, id, n);
    e := WhoFails(ws, ss, h, a, id);
  }

  // ---------- what a failure needs ----------

  /** An error that no retry can mend is on its way to handleErr. */
  predicate FailsForGood(w: World, a: ActorId, id: FileId) {
    || Stands(w, a, id, WorkStage.Unregister(Fatal)) || Stands(w, a, id, WorkStage.Signal(Fatal))
    || Stands(w, a, id, WorkStage.Handle(Fatal))
  }

  /** handleErr gives the file up: the error is not worth a retry, or all retries were made. */
  ghost predicate Refuses(w: World, s: Step, a: ActorId, id: FileId) {
    && s == Step.Retry(RetryStep.Handle(a))
    && (Stands(w, a, id, WorkStage.Handle(Fatal))
        || (Stands(w, a, id, WorkStage.Handle(Retryable)) && At(w.retry, id, 0) >= MAX_RETRIES))
  }

  ghost predicate FailedBy(w: World, s: Step, w': World, a: ActorId, id: FileId) {
    && (FailsForGood(w', a, id) ==> FailsForGood(w, a, id) || s == Convert(Return(a, Fatal)))
    && (Stands(w', a, id, WorkStage.GiveUp) ==> Stands(w, a, id, WorkStage.GiveUp) || Refuses(w, s, a, id))
  }

  /** Worker `b` goes on and does not enter handleErr. */
  lemma WorkerFails(w: World, s: Step, w': World, b: ActorId, j: Worker, a: ActorId, id: FileId)
    requires b in w.workers && w'.workers == w.workers[b := j]
    requires j.Job? ==> !j.stage.GiveUp?
    requires j.Job? && FailsForGood(w', b, j.id) ==> FailsForGood(w, b, j.id) || s == Convert(Return(b, Fatal))
    ensures FailedBy(w, s, w', a, id)
  {}

  lemma SystemFails(w: World, s: SystemStep, w': World, a: ActorId, id: FileId)
    requires SystemNext(w, s, w')
    ensures FailedBy(w, System(s), w', a, id)
  {}

  lemma QuitFails(w: World, b: ActorId, w': World, a: ActorId, id: FileId)
    requires Actions.Quit(w, b, w')
    ensures FailedBy(w, Work(Quit(b)), w', a, id)
  {}

  lemma WorkFails(w: World, s: WorkStep, w': World, a: ActorId, id: FileId)
    requires WorkNext(w, s, w')
    ensures FailedBy(w, Work(s), w', a, id)
  {
    hide FailedBy;
    match s
    case Quit(b) => hide *; QuitFails(w, b, w', a, id);
    case _ => WorkerFails(w, Work(s), w', s.a, w'.workers[s.a], a, id);
  }

  lemma ConvertFails(w: World, s: ConvertStep, w': World, a: ActorId, id: FileId)
    requires ConvertNext(w, s, w')
    ensures FailedBy(w, Convert(s), w', a, id)
  {
    hide FailedBy;
    WorkerFails(w, Convert(s), w', s.a, w'.workers[s.a], a, id);
  }

  lemma RetryFails(w: World, s: RetryStep, w': World, a: ActorId, id: FileId)
    requires RetryNext(w, s, w')
    ensures FailedBy(w, Step.Retry(s), w', a, id)
  {}

  lemma BackoffFails(w: World, s: BackoffStep, w': World, a: ActorId, id: FileId)
    requires BackoffNext(w, s, w')
    ensures FailedBy(w, Backoff(s), w', a, id)
  {}

  lemma NothingFails(w: World, s: Step, w': World, a: ActorId, id: FileId)
    requires w'.workers == w.workers
    ensures FailedBy(w, s, w', a, id)
  {}

  lemma StepFails(w: World, s: Step, w': World, a: ActorId, id: FileId)
    requires Next(w, s, w')
    ensures FailedBy(w, s, w', a, id)
  {
    hide SystemNext, CreateNext, RecordNext, WorkNext, ConvertNext, RetryNext, BackoffNext, ReadNext,
      DeleteNext, WaitNext, EraseNext, FailedBy;
    match s
    case System(x) => SystemFails(w, x, w', a, id);
    case Create(x) => CreateFrame(w, x, w'); NothingFails(w, s, w', a, id);
    case Record(x) => RecordFrame(w, x, w'); NothingFails(w, s, w', a, id);
    case Work(x) => WorkFails(w, x, w', a, id);
    case Convert(x) => ConvertFails(w, x, w', a, id);
    case Retry(x) => RetryFails(w, x, w', a, id);
    case Backoff(x) => BackoffFails(w, x, w', a, id);
    case Read(x) => ReadFrame(w, x, w'); NothingFails(w, s, w', a, id);
    case Delete(x) => DeleteFrame(w, x, w'); NothingFails(w, s, w', a, id);
    case Wait(x) => WaitFrame(w, x, w'); NothingFails(w, s, w', a, id);
    case Erase(x) => EraseFrame(w, x, w'); NothingFails(w, s, w', a, id);
  }

  lemma {:induction false} WhoRefused(ws: seq<World>, ss: seq<Step>, j: nat, a: ActorId, id: FileId) returns (h: nat)
    requires IsRun(ws, ss) && j < |ws| && Stands(ws[j], a, id, WorkStage.GiveUp)
    ensures h < j && Refuses(ws[h], ss[h], a, id)
    ensures forall i | h < i <= j :: Stands(ws[i], a, id, WorkStage.GiveUp)
    decreases j
  {
    hide IsPath, Next, Refuses, FailsForGood;
    RunBegins(ws, ss, a);
    assert StepAt(ws, ss, j - 1) by { RunSteps(ws, ss, j - 1); }
    StepFails(ws[j - 1], ss[j - 1], ws[j], a, id);
    h := j - 1;
    if Stands(ws[j - 1], a, id, WorkStage.GiveUp) {
      h := WhoRefused(ws, ss, j - 1, a, id);
    }
  }

  lemma RunSteps(ws: seq<World>, ss: seq<Step>, i: nat)
    requires IsRun(ws, ss) && i < |ss|
    ensures |ws| == |ss| + 1 && StepAt(ws, ss, i)
  {}

  lemma {:induction false} WhoFailedForGood(ws: seq<World>, ss: seq<Step>, j: nat, a: ActorId, id: FileId)
    returns (e: nat)
    requires IsRun(ws, ss) && j < |ws| && FailsForGood(ws[j], a, id)
    ensures e < j && ss[e] == Convert(Return(a, Fatal)) && forall i | e < i <= j :: FailsForGood(ws[i], a, id)
    decreases j
  {
    hide IsPath, Next, Refuses;
    RunBegins(ws, ss, a);
    assert StepAt(ws, ss, j - 1) by { RunSteps(ws, ss, j - 1); }
    StepFails(ws[j - 1], ss[j - 1], ws[j], a, id);
    e := j - 1;
    if FailsForGood(ws[j - 1], a, id) {
      e := WhoFailedForGood(ws, ss, j - 1, a, id);
    }
  }

  /** A file is given up only when Convert returned an error that no retry can mend, or after
      an error worth a retry when three retries had been made. */
  lemma GivenUpForCause(ws: seq<World>, ss: seq<Step>, j: nat, a: ActorId, id: FileId) returns (e: nat, h: nat)
    requires IsRun(ws, ss) && j < |ws| && Stands(ws[j], a, id, WorkStage.GiveUp)
    ensures e < h < j && ss[h] == Step.Retry(RetryStep.Handle(a))
    ensures forall i | h < i <= j :: Stands(ws[i], a, id, WorkStage.GiveUp)
    ensures
      || (ss[e] == Convert(Return(a, Fatal)) && forall i | e < i <= h :: FailsForGood(ws[i], a, id))
      || (IsError(ss[e], a) && (forall i | e < i <= h :: Fails(ws[i], a, id))
          && At(ws[h].retry, id, 0) >= MAX_RETRIES)
  {
    hide IsRun, IsError;
    RunBegins(ws, ss, a);
    h := WhoRefused(ws, ss, j, a, id);
    if FailsForGood(ws[h], a, id) {
      e := WhoFailedForGood(ws, ss, h, a, id);
    } else {
      e := WhoFails(ws, ss, h, a, id);
    }
  }

  // ---------- a retry is made ----------

  lemma OthersWork(w: World, s: WorkStep, w': World, a: ActorId)
    requires a in w.workers && WorkNext(w, s, w') && s.a != a
    ensures a in w'.workers && w'.workers[a] == w.workers[a]
  {}

  lemma OthersConvert(w: World, s: ConvertStep, w': World, a: ActorId)
    requires a in w.workers && ConvertNext(w, s, w') && s.a != a
    ensures a in w'.workers && w'.workers[a] == w.workers[a]
  {}

  lemma OthersRetry(w: World, s: RetryStep, w': World, a: ActorId)
    requires a in w.workers && RetryNext(w, s, w') && s.a != a
    ensures a in w'.workers && w'.workers[a] == w.workers[a]
  {}

  lemma OthersBackOff(w: World, s: BackoffStep, w': World, a: ActorId)
    requires a in w.workers && BackoffNext(w, s, w') && (s.Fire? || s.a != a)
    ensures a in w'.workers && w'.workers[a] == w.workers[a]
  {}

  lemma SystemLeavesWorkers(w: World, s: SystemStep, w': World)
    requires QuietOk(w) && SystemNext(w, s, w') && !s.Crash? && w.workers != map[]
    ensures w'.workers == w.workers
  {}

  /** Nobody moves a worker but itself. */
  lemma OthersLeaveWorker(w: World, s: Step, w': World, a: ActorId)
    requires QuietOk(w) && a in w.workers && Next(w, s, w') && !IsStepOf(s, a) && s != System(Crash)
    ensures a in w'.workers && w'.workers[a] == w.workers[a]
  {
    hide SystemNext, CreateNext, RecordNext, WorkNext, ConvertNext, RetryNext, BackoffNext, ReadNext,
      DeleteNext, WaitNext, EraseNext, QuietOk;
    match s
    case System(x) => SystemLeavesWorkers(w, x, w');
    case Create(x) => CreateFrame(w, x, w');
    case Record(x) => RecordFrame(w, x, w');
    case Work(x) => OthersWork(w, x, w', a);
    case Convert(x) => OthersConvert(w, x, w', a);
    case Retry(x) => OthersRetry(w, x, w', a);
    case Backoff(x) => OthersBackOff(w, x, w', a);
    case Read(x) => ReadFrame(w, x, w');
    case Delete(x) => DeleteFrame(w, x, w');
    case Wait(x) => WaitFrame(w, x, w');
    case Erase(x) => EraseFrame(w, x, w');
  }

  /** Step `j` is the next one of worker `a` after step `i`, and the process goes on in
      between. */
  predicate IsNextOwn(ss: seq<Step>, i: nat, j: nat, a: ActorId) {
    && i < j < |ss| && IsStepOf(ss[j], a)
    && forall k | i < k < j :: !IsStepOf(ss[k], a) && ss[k] != System(Crash)
  }

  lemma QuietInRun(ws: seq<World>, ss: seq<Step>, i: nat)
    requires IsRun(ws, ss) && i < |ws|
    ensures QuietOk(ws[i])
  {
    hide QuietOk;
    RunKeepsInv(ws, ss, i);
  }

  lemma {:induction false} WorkerRests(ws: seq<World>, ss: seq<Step>, i: nat, j: nat, a: ActorId)
    requires IsRun(ws, ss) && i <= j < |ws| && a in ws[i].workers
    requires forall k | i <= k < j :: !IsStepOf(ss[k], a) && ss[k] != System(Crash)
    ensures a in ws[j].workers && ws[j].workers[a] == ws[i].workers[a]
    decreases j
  {
    hide IsPath, Next, QuietOk, IsStepOf;
    RunBegins(ws, ss, a);
    if i < j {
      WorkerRests(ws, ss, i, j - 1, a);
      RunSteps(ws, ss, j - 1);
      QuietInRun(ws, ss, j - 1);
      OthersLeaveWorker(ws[j - 1], ss[j - 1], ws[j], a);
    }
  }

  lemma HandleGoesOn(w: World, w': World, a: ActorId, id: FileId)
    requires Next(w, Step.Retry(RetryStep.Handle(a)), w') && Stands(w, a, id, WorkStage.Handle(Retryable))
    requires At(w.retry, id, 0) < MAX_RETRIES
    ensures Stands(w', a, id, WorkStage.Inspect(At(w.retry, id, 0)))
  {}

  lemma InspectGoesOn(w: World, s: Step, w': World, a: ActorId, id: FileId, n: nat)
    requires Next(w, s, w') && IsStepOf(s, a) && Stands(w, a, id, WorkStage.Inspect(n))
    ensures s.Retry? && s.retry.Inspect?
    ensures !s.retry.fail && Live(w.rows, id) ==> Stands(w', a, id, WorkStage.Bump(n))
  {
    RetryComesNext(w, s, w', a, id);
  }

  /** Which group of steps a worker takes in handleErr and after it. */
  lemma RetryComesNext(w: World, s: Step, w': World, a: ActorId, id: FileId)
    requires Next(w, s, w') && IsStepOf(s, a) && a in w.workers && w.workers[a].Job?
    requires var stage := w.workers[a].stage; stage.Inspect? || stage.Bump? || stage.Arm?
    ensures if w.workers[a].stage.Inspect? then s.Retry? && s.retry.Inspect?
      else if w.workers[a].stage.Bump? then s == Backoff(BackoffStep.Bump(a))
      else s.Backoff? && s.backoff.Arm?
  {}

  lemma BumpGoesOn(w: World, s: Step, w': World, a: ActorId, id: FileId, n: nat)
    requires RetryOk(w) && Next(w, s, w') && IsStepOf(s, a) && Stands(w, a, id, WorkStage.Bump(n))
    ensures s == Backoff(BackoffStep.Bump(a)) && Stands(w', a, id, WorkStage.Arm(n))
    ensures At(w.retry, id, 0) == n && At(w'.retry, id, 0) == n + 1
  {
    RetryComesNext(w, s, w', a, id);
    assert WorkerOnBudget(w.workers[a], w.retry, w.hist.calls, w.hist.delay);
  }

  lemma ArmGoesOn(w: World, s: Step, w': World, a: ActorId, id: FileId, n: nat)
    requires Next(w, s, w') && IsStepOf(s, a) && Stands(w, a, id, WorkStage.Arm(n))
    ensures s.Backoff? && s.backoff.Arm?
    ensures s.backoff.t in w'.timers && w'.timers[s.backoff.t] == id && a in w'.workers && w'.workers[a].Idle?
  {
    RetryComesNext(w, s, w', a, id);
  }

  lemma RetryOkInRun(ws: seq<World>, ss: seq<Step>, i: nat)
    requires IsRun(ws, ss) && i < |ws|
    ensures RetryOk(ws[i])
  {
    hide RetryInv;
    RunKeepsInv(ws, ss, i);
  }

  /** After an error worth a retry with fewer than three retries made, the worker's next step
      is the question whether the file is still there; if it can be asked and the answer is
      yes, the next one adds exactly one retry, and the one after that arms a timer for the
      job, unless the process ends in between. */
  lemma RetryIsMade(ws: seq<World>, ss: seq<Step>, h: nat, k: nat, i: nat, m: nat, a: ActorId, id: FileId)
    requires IsRun(ws, ss) && h < |ss|
    requires ss[h] == Step.Retry(RetryStep.Handle(a)) && Stands(ws[h], a, id, WorkStage.Handle(Retryable))
    requires At(ws[h].retry, id, 0) < MAX_RETRIES
    requires IsNextOwn(ss, h, k, a) && IsNextOwn(ss, k, i, a) && IsNextOwn(ss, i, m, a)
    ensures ss[k].Retry? && ss[k].retry.Inspect?
    ensures !ss[k].retry.fail && Live(ws[k].rows, id) ==>
      && ss[i] == Backoff(BackoffStep.Bump(a))
      && At(ws[i].retry, id, 0) == At(ws[h].retry, id, 0) && At(ws[i + 1].retry, id, 0) == At(ws[h].retry, id, 0) + 1
      && ss[m].Backoff? && ss[m].backoff.Arm?
      && ss[m].backoff.t in ws[m + 1].timers && ws[m + 1].timers[ss[m].backoff.t] == id
      && a in ws[m + 1].workers && ws[m + 1].workers[a].Idle?
  {
    hide IsRun, Next, IsStepOf;
    RunBegins(ws, ss, a);
    var n := At(ws[h].retry, id, 0);
    RunSteps(ws, ss, h);
    HandleGoesOn(ws[h], ws[h + 1], a, id);
    WorkerRests(ws, ss, h + 1, k, a);
    RunSteps(ws, ss, k);
    InspectGoesOn(ws[k], ss[k], ws[k + 1], a, id, n);
    if !ss[k].retry.fail && Live(ws[k].rows, id) {
      BumpAndArm(ws, ss, k, i, m, a, id, n);
    }
  }

  lemma BumpAndArm(ws: seq<World>, ss: seq<Step>, k: nat, i: nat, m: nat, a: ActorId, id: FileId, n: nat)
    requires IsRun(ws, ss) && k + 1 < |ws| && Stands(ws[k + 1], a, id, WorkStage.Bump(n))
    requires IsNextOwn(ss, k, i, a) && IsNextOwn(ss, i, m, a) && |ws| == |ss| + 1
    ensures ss[i] == Backoff(BackoffStep.Bump(a))
    ensures At(ws[i].retry, id, 0) == n && At(ws[i + 1].retry, id, 0) == n + 1
    ensures ss[m].Backoff? && ss[m].backoff.Arm?
    ensures ss[m].backoff.t in ws[m + 1].timers && ws[m + 1].timers[ss[m].backoff.t] == id
    ensures a in ws[m + 1].workers && ws[m + 1].workers[a].Idle?
  {
    hide IsRun, Next, RetryInv, IsStepOf;
    WorkerRests(ws, ss, k + 1, i, a);
    RunSteps(ws, ss, i);
    RetryOkInRun(ws, ss, i);
    BumpGoesOn(ws[i], ss[i], ws[i + 1], a, id, n);
    WorkerRests(ws, ss, i + 1, m, a);
    RunSteps(ws, ss, m);
    ArmGoesOn(ws[m], ss[m], ws[m + 1], a, id, n);
  }

  // ---------- what an error without a retry leaves ----------

  /** handleErr decides that the job is over: there was no error, the error is not worth a
      retry, three retries were made, or the file is gone or cannot be looked up. */
  ghost predicate Dismisses(w: World, s: Step, a: ActorId, id: FileId) {
    || (s == Step.Retry(RetryStep.Handle(a))
        && (Stands(w, a, id, WorkStage.Handle(Finished)) || Stands(w, a, id, WorkStage.Handle(Fatal))
            || (Stands(w, a, id, WorkStage.Handle(Retryable)) && At(w.retry, id, 0) >= MAX_RETRIES)))
    || (s.Retry? && s.retry.Inspect? && s.retry.a == a && (s.retry.fail || !Live(w.rows, id))
        && exists n :: Stands(w, a, id, WorkStage.Inspect(n)))
  }

  ghost predicate NoJob(w: World, id: FileId) {
    && (forall c | c in w.creators :: w.creators[c].id != id)
    && (w.phase.Running? ==> id !in w.phase.backlog)
    && id !in w.queue
    && (forall t | t in w.timers :: w.timers[t] != id)
    && (forall b | b in w.workers && w.workers[b].Job? :: w.workers[b].id != id)
  }

  /** How many steps worker `a` is away from having dropped the job and its count. */
  function StepsLeft(w: World, a: ActorId, id: FileId): nat {
    if Stands(w, a, id, WorkStage.GiveUp) then 2 else if Stands(w, a, id, WorkStage.Forget) then 1 else 0
  }

  /** The job of `id` is over but for what worker `a` still has to do about it. */
  ghost predicate Over(w: World, a: ActorId, id: FileId) {
    && w.phase.Running? && id in w.hist.used
    && (StepsLeft(w, a, id) > 0 || (NoJob(w, id) && id !in w.retry))
  }

  /** No retry is added, the worker comes no further away from the end, and its own step
      brings it nearer. */
  ghost predicate Winds(w: World, s: Step, w': World, a: ActorId, id: FileId) {
    && Over(w', a, id)
    && At(w'.retry, id, 0) <= At(w.retry, id, 0)
    && StepsLeft(w', a, id) <= StepsLeft(w, a, id)
    && (IsStepOf(s, a) && StepsLeft(w, a, id) > 0 ==> StepsLeft(w', a, id) < StepsLeft(w, a, id))
  }

  ghost predicate OverAlone(w: World, a: ActorId, id: FileId) {
    Over(w, a, id) && (StepsLeft(w, a, id) > 0 ==> SoleHolder(w, a, id))
  }

  lemma OverMeansAlone(w: World, a: ActorId, id: FileId)
    requires Inv(w) && Over(w, a, id)
    ensures OverAlone(w, a, id)
  {
    hide LeakInv, RowsInv, DiskInv, WorkDiskInv, ConversionInv, LeaseInv, ReaderInv, MarkerInv, DeleterInv,
      AwaitConversionInv, AwaitLeaseInv, PendingInv, StrandInv, CreatorInv, BacklogInv, QueueInv, TimerInv, WorkerInv,
      RetryInv, ForgetInv, NoJob, SoleHolder;
    if StepsLeft(w, a, id) > 0 {
      JobHasOneHolder(w, a);
    }
  }

  lemma SystemWinds(w: World, s: SystemStep, w': World, a: ActorId, id: FileId)
    requires OverAlone(w, a, id) && SystemNext(w, s, w') && !s.Crash?
    ensures Winds(w, System(s), w', a, id)
  {}

  lemma CreateWinds(w: World, s: CreateStep, w': World, a: ActorId, id: FileId)
    requires OverAlone(w, a, id) && CreateNext(w, s, w')
    ensures Winds(w, Create(s), w', a, id)
  {}

  lemma RecordWinds(w: World, s: RecordStep, w': World, a: ActorId, id: FileId)
    requires OverAlone(w, a, id) && RecordNext(w, s, w')
    ensures Winds(w, Record(s), w', a, id)
  {}

  /** Another worker goes on with its job, or with one that is not over. */
  lemma OtherWinds(w: World, s: Step, w': World, a: ActorId, id: FileId, b: ActorId, j: Worker)
    requires OverAlone(w, a, id)
    requires b in w.workers && w'.workers == w.workers[b := j]
    requires w.workers[b].Job? ==> !w.workers[b].stage.GiveUp? && !w.workers[b].stage.Forget?
    requires j.Job? ==> j.id in w.queue || (w.workers[b].Job? && w.workers[b].id == j.id)
    requires w'.phase == w.phase && w'.hist.used == w.hist.used && w'.creators == w.creators && w'.timers == w.timers
    requires w'.retry == w.retry && forall x | x in w'.queue :: x in w.queue
    requires IsStepOf(s, a) ==> a == b
    ensures Winds(w, s, w', a, id)
  {}

  /** A worker that has no job may leave the pool. */
  lemma QuitWinds(w: World, b: ActorId, w': World, a: ActorId, id: FileId)
    requires OverAlone(w, a, id) && Actions.Quit(w, b, w')
    ensures Winds(w, Work(Quit(b)), w', a, id)
  {}

  lemma WorkWinds(w: World, s: WorkStep, w': World, a: ActorId, id: FileId)
    requires OverAlone(w, a, id) && WorkNext(w, s, w')
    ensures Winds(w, Work(s), w', a, id)
  {
    hide Winds, OverAlone;
    if s.Quit? {
      QuitWinds(w, s.a, w', a, id);
    } else {
      OtherWinds(w, Work(s), w', a, id, s.a, w'.workers[s.a]);
    }
  }

  lemma ConvertWinds(w: World, s: ConvertStep, w': World, a: ActorId, id: FileId)
    requires OverAlone(w, a, id) && ConvertNext(w, s, w')
    ensures Winds(w, Convert(s), w', a, id)
  {
    hide Winds, OverAlone;
    OtherWinds(w, Convert(s), w', a, id, s.a, w'.workers[s.a]);
  }

  lemma RetryWinds(w: World, s: RetryStep, w': World, a: ActorId, id: FileId)
    requires OverAlone(w, a, id) && RetryNext(w, s, w')
    ensures Winds(w, Step.Retry(s), w', a, id)
  {}

  lemma FireWinds(w: World, t: ActorId, drop: bool, w': World, a: ActorId, id: FileId)
    requires OverAlone(w, a, id) && Actions.FireTimer(w, t, drop, w')
    ensures Winds(w, Backoff(Fire(t, drop)), w', a, id)
  {}

  lemma BumpWinds(w: World, b: ActorId, w': World, a: ActorId, id: FileId)
    requires OverAlone(w, a, id) && Actions.BumpRetry(w, b, w')
    ensures Winds(w, Backoff(BackoffStep.Bump(b)), w', a, id)
  {}

  lemma ArmWinds(w: World, b: ActorId, t: ActorId, w': World, a: ActorId, id: FileId)
    requires OverAlone(w, a, id) && Actions.ArmTimer(w, b, t, w')
    ensures Winds(w, Backoff(BackoffStep.Arm(b, t)), w', a, id)
  {}

  lemma ForgetWinds(w: World, b: ActorId, w': World, a: ActorId, id: FileId)
    requires OverAlone(w, a, id) && Actions.ForgetRetries(w, b, w')
    ensures Winds(w, Backoff(BackoffStep.Forget(b)), w', a, id)
  {}

  lemma BackoffWinds(w: World, s: BackoffStep, w': World, a: ActorId, id: FileId)
    requires OverAlone(w, a, id) && BackoffNext(w, s, w')
    ensures Winds(w, Backoff(s), w', a, id)
  {
    hide Winds, OverAlone, Actions.FireTimer, Actions.BumpRetry, Actions.ArmTimer, Actions.ForgetRetries;
    match s
    case Fire(t, drop) => FireWinds(w, t, drop, w', a, id);
    case Bump(b) => BumpWinds(w, b, w', a, id);
    case Arm(b, t) => ArmWinds(w, b, t, w', a, id);
    case Forget(b) => ForgetWinds(w, b, w', a, id);
  }

  lemma NothingWinds(w: World, s: Step, w': World, a: ActorId, id: FileId)
    requires OverAlone(w, a, id) && !IsStepOf(s, a)
    requires w'.phase == w.phase && w'.hist.used == w.hist.used && w'.creators == w.creators && w'.queue == w.queue
    requires w'.timers == w.timers && w'.workers == w.workers && w'.retry == w.retry
    ensures Winds(w, s, w', a, id)
  {}

  lemma ReadWinds(w: World, s: ReadStep, w': World, a: ActorId, id: FileId)
    requires OverAlone(w, a, id) && ReadNext(w, s, w')
    ensures Winds(w, Read(s), w', a, id)
  {
    hide Winds, OverAlone;
    NothingWinds(w, Read(s), w', a, id);
  }

  lemma DeleteWinds(w: World, s: DeleteStep, w': World, a: ActorId, id: FileId)
    requires OverAlone(w, a, id) && DeleteNext(w, s, w')
    ensures Winds(w, Delete(s), w', a, id)
  {
    hide Winds, OverAlone;
    NothingWinds(w, Delete(s), w', a, id);
  }

  lemma WaitWinds(w: World, s: WaitStep, w': World, a: ActorId, id: FileId)
    requires OverAlone(w, a, id) && WaitNext(w, s, w')
    ensures Winds(w, Wait(s), w', a, id)
  {
    hide Winds, OverAlone;
    NothingWinds(w, Wait(s), w', a, id);
  }

  lemma EraseWinds(w: World, s: EraseStep, w': World, a: ActorId, id: FileId)
    requires OverAlone(w, a, id) && EraseNext(w, s, w')
    ensures Winds(w, Erase(s), w', a, id)
  {
    hide Winds, OverAlone;
    NothingWinds(w, Erase(s), w', a, id);
  }

  /** Without a crash a job that is over stays over, and the count of its retries never
      grows. */
  lemma StepWinds(w: World, s: Step, w': World, a: ActorId, id: FileId)
    requires Inv(w) && Over(w, a, id) && Next(w, s, w') && s != System(Crash)
    ensures Winds(w, s, w', a, id)
  {
    hide Inv, SystemNext, CreateNext, RecordNext, WorkNext, ConvertNext, RetryNext, BackoffNext, ReadNext,
      DeleteNext, WaitNext, EraseNext, Winds, Over, OverAlone;
    OverMeansAlone(w, a, id);
    match s
    case System(x) => SystemWinds(w, x, w', a, id);
    case Create(x) => CreateWinds(w, x, w', a, id);
    case Record(x) => RecordWinds(w, x, w', a, id);
    case Work(x) => WorkWinds(w, x, w', a, id);
    case Convert(x) => ConvertWinds(w, x, w', a, id);
    case Retry(x) => RetryWinds(w, x, w', a, id);
    case Backoff(x) => BackoffWinds(w, x, w', a, id);
    case Read(x) => ReadWinds(w, x, w', a, id);
    case Delete(x) => DeleteWinds(w, x, w', a, id);
    case Wait(x) => WaitWinds(w, x, w', a, id);
    case Erase(x) => EraseWinds(w, x, w', a, id);
  }

  lemma DismissalEnds(w: World, s: RetryStep, w': World, a: ActorId, id: FileId)
    requires QuietOk(w) && RowsOk(w) && WorkerOk(w) && RetryNext(w, s, w') && Dismisses(w, Step.Retry(s), a, id)
    ensures Over(w', a, id) && StepsLeft(w', a, id) > 0 && w'.retry == w.retry
  {
    hide NoJob;
  }

  lemma StepDismisses(w: World, s: Step, w': World, a: ActorId, id: FileId)
    requires Inv(w) && Next(w, s, w') && Dismisses(w, s, a, id)
    ensures Over(w', a, id) && w'.retry == w.retry
  {
    hide QuietOk, RowsInv, LeakInv, DiskInv, WorkDiskInv, ConversionInv, LeaseInv, ReaderInv, MarkerInv, DeleterInv,
      AwaitConversionInv, AwaitLeaseInv, PendingInv, StrandInv, CreatorInv, WorkerInv, BacklogInv, QueueInv, TimerInv,
      RetryInv, ForgetInv, Over, RetryNext;
    DismissalEnds(w, s.retry, w', a, id);
  }

  /** Once handleErr has decided against a retry, no later step of the process adds one:
      at each later moment worker `a` still has to give the job up or to forget it, or no
      place has a job of the file and its count is dropped.  The worker's own next steps
      lead there. */
  lemma {:induction false} DismissedForGood(ws: seq<World>, ss: seq<Step>, h: nat, j: nat, a: ActorId, id: FileId)
    requires IsRun(ws, ss) && h < j < |ws| && Dismisses(ws[h], ss[h], a, id)
    requires forall i | h < i < j :: ss[i] != System(Crash)
    ensures Over(ws[j], a, id)
    ensures At(ws[j].retry, id, 0) <= At(ws[h].retry, id, 0)
    ensures forall i | h < i < j :: Winds(ws[i], ss[i], ws[i + 1], a, id)
    decreases j
  {
    hide Inv, Next, Winds, Over, Dismisses;
    RunKeepsInv(ws, ss, j - 1);
    assert StepAt(ws, ss, j - 1);
    if j == h + 1 {
      StepDismisses(ws[h], ss[h], ws[j], a, id);
    } else {
      DismissedForGood(ws, ss, h, j - 1, a, id);
      StepWinds(ws[j - 1], ss[j - 1], ws[j], a, id);
      WindsMeans(ws[j - 1], ss[j - 1], ws[j], a, id);
    }
  }

  lemma WindsMeans(w: World, s: Step, w': World, a: ActorId, id: FileId)
    requires Winds(w, s, w', a, id)
    ensures Over(w', a, id) && At(w'.retry, id, 0) <= At(w.retry, id, 0)
  {}
}
