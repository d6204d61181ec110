/** Main results about Delete and the janitor: one owner for a deletion, one
    acknowledgement, nothing left behind it, and no wait that cannot end. */
module Deletion {
  import opened Rows
  import opened World
  import Actions
  import opened Protocol
  import opened Invariant
  import opened Frames
  import opened Safety
  import Jobs

  // ---------- ownership ----------

  /** At any moment at most one call is between beginDeletion and endDeletion of a file. */
  lemma OneDeleter(ws: seq<World>, ss: seq<Step>, i: nat, d: ActorId, e: ActorId)
    requires IsRun(ws, ss) && i < |ws| && d in ws[i].deleters && e in ws[i].deleters
    requires Claimed(ws[i].deleters[d].stage) && Claimed(ws[i].deleters[e].stage)
    requires ws[i].deleters[d].id == ws[i].deleters[e].id
    ensures d == e
  {
    RunKeepsInv(ws, ss, i);
    hide LeakInv, RowsInv, DiskInv, WorkDiskInv, ConversionInv, LeaseInv, ReaderInv, DeleterInv, AwaitConversionInv,
      AwaitLeaseInv, PendingInv, StrandInv, CreatorInv, WorkerInv, BacklogInv, QueueInv, TimerInv, RetryInv, ForgetInv;
  }

  /** A row is removed by at most one step of a run. */
  lemma RowRemovedOnce(ws: seq<World>, ss: seq<Step>, i: nat, j: nat, id: FileId)
    requires IsRun(ws, ss) && i < j < |ss|
    requires id in ws[i].rows && id !in ws[i + 1].rows
    ensures !(id in ws[j].rows && id !in ws[j + 1].rows)
  {
    hide Next, LeakInv, DiskInv, WorkDiskInv, ConversionInv, LeaseInv, ReaderInv, DeleterInv,
      AwaitConversionInv, MarkerInv,
      AwaitLeaseInv, PendingInv, StrandInv, CreatorInv, WorkerInv, BacklogInv, QueueInv, TimerInv, RetryInv, ForgetInv;
    RunKeepsInv(ws, ss, i);
    Jobs.StatusesSettle(ws, ss, i, i + 1);
    Jobs.StatusesSettle(ws, ss, i + 1, j);
  }

  // ---------- acknowledgement ----------

  /** In this step a Delete call of `id` returns true. */
  predicate Acks(w: World, s: Step, id: FileId) {
    && s.Delete? && s.delete.End? && s.delete.x in w.deleters
    && var x := w.deleters[s.delete.x]; x.id == id && x.api && x.stage == DeleteStage.End(true)
  }

  ghost predicate Gone(w: World, id: FileId) {
    id in w.hist.added && id !in w.rows && NoDirOf(w.disk, id)
  }

  lemma AckFacts(w: World, s: Step, w': World, id: FileId)
    requires Inv(w) && Next(w, s, w') && Acks(w, s, id)
    ensures id !in w.hist.acked && id in w'.hist.acked && Gone(w, id)
  {
    hide LeakInv, WorkDiskInv, ConversionInv, LeaseInv, ReaderInv, AwaitConversionInv, MarkerInv, RowsInv, DiskInv,
      AwaitLeaseInv, PendingInv, StrandInv, CreatorInv, WorkerInv, BacklogInv, QueueInv, TimerInv, RetryInv, ForgetInv;
  }

  lemma AckedMeansGone(w: World, id: FileId)
    requires Inv(w) && id in w.hist.acked
    ensures Gone(w, id)
  {
    hide LeakInv, WorkDiskInv, ConversionInv, LeaseInv, ReaderInv, AwaitConversionInv, MarkerInv, DeleterInv,
      AwaitLeaseInv, PendingInv, StrandInv, CreatorInv, WorkerInv, BacklogInv, QueueInv, TimerInv, RetryInv, ForgetInv;
  }

  lemma DeleteKeepsAcks(w: World, s: DeleteStep, w': World)
    requires DeleteNext(w, s, w')
    ensures w.hist.acked <= w'.hist.acked
  {}

  lemma StepKeepsAcks(w: World, s: Step, w': World)
    requires Next(w, s, w')
    ensures w.hist.acked <= w'.hist.acked
  {
    hide SystemNext, CreateNext, RecordNext, WorkNext, ConvertNext, RetryNext, BackoffNext, ReadNext,
      DeleteNext, WaitNext,
      EraseNext;
    match s
    case System(x) => SystemFrame(w, x, w');
    case Create(x) => CreateFrame(w, x, w');
    case Record(x) => RecordFrame(w, x, w');
    case Work(x) => WorkFrame(w, x, w');
    case Convert(x) => ConvertFrame(w, x, w');
    case Retry(x) => RetryFrame(w, x, w');
    case Backoff(x) => BackoffFrame(w, x, w');
    case Read(x) => ReadFrame(w, x, w');
    case Delete(x) => DeleteKeepsAcks(w, x, w');
    case Wait(x) => WaitFrame(w, x, w');
    case Erase(x) => EraseFrame(w, x, w');
  }

  lemma {:induction false} AcksStay(ws: seq<World>, ss: seq<Step>, i: nat, j: nat)
    requires IsRun(ws, ss) && i <= j < |ws|
    ensures ws[i].hist.acked <= ws[j].hist.acked
    decreases j - i
  {
    hide Next;
    if i < j {
      AcksStay(ws, ss, i, j - 1);
      assert StepAt(ws, ss, j - 1);
      StepKeepsAcks(ws[j - 1], ss[j - 1], ws[j]);
    }
  }

  /** Delete returns true at most once for a file in a whole run, whatever the number of
      concurrent calls, janitor passes, crashes and restarts. */
  lemma AckedOnce(ws: seq<World>, ss: seq<Step>, i: nat, j: nat, id: FileId)
    requires IsRun(ws, ss) && i < j < |ss|
    requires Acks(ws[i], ss[i], id)
    ensures !Acks(ws[j], ss[j], id)
  {
    hide Next, Inv;
    RunKeepsInv(ws, ss, i);
    assert StepAt(ws, ss, i);
    AckFacts(ws[i], ss[i], ws[i + 1], id);
    AcksStay(ws, ss, i + 1, j);
    if Acks(ws[j], ss[j], id) {
      RunKeepsInv(ws, ss, j);
      assert StepAt(ws, ss, j);
      AckFacts(ws[j], ss[j], ws[j + 1], id);
    }
  }

  /** After Delete has returned true, row and directory are gone for the rest of the run. */
  lemma AckedIsForGood(ws: seq<World>, ss: seq<Step>, i: nat, j: nat, id: FileId)
    requires IsRun(ws, ss) && i < |ss| && i <= j < |ws|
    requires Acks(ws[i], ss[i], id)
    ensures Gone(ws[j], id)
  {
    hide Next, Inv;
    RunKeepsInv(ws, ss, i);
    assert StepAt(ws, ss, i);
    AckFacts(ws[i], ss[i], ws[i + 1], id);
    if i < j {
      AcksStay(ws, ss, i + 1, j);
      RunKeepsInv(ws, ss, j);
      AckedMeansGone(ws[j], id);
    }
  }

  // ---------- waits end ----------

  /** How many steps of its own a worker is away from closing `done`. */
  function Distance(s: WorkStage): nat {
    match s
    case Lookup => 7
    case Claim => 6
    case Start => 5
    case Converting => 4
    case Publish => 3
    case Reject => 3
    case Unregister(_) => 2
    case Signal(_) => 1
    case _ => 0
  }

  ghost predicate Waits(w: World, d: ActorId) {
    d in w.deleters && (w.deleters[d].stage.AwaitConversion? || w.deleters[d].stage.AwaitLease?)
  }

  /** What a waiting deleter still waits for: the rest of one conversion, or the readers
      of one lease. */
  ghost function Debt(w: World, d: ActorId): nat {
    if !Waits(w, d) then 0
    else
      match w.deleters[d].stage
      case AwaitConversion(t) =>
        if t in w.states && w.states[t].active && w.states[t].owner in w.workers && w.workers[w.states[t].owner].Job? then
          Distance(w.workers[w.states[t].owner].stage)
        else 0
      case AwaitLease(l) => if l in w.leaseObjs then w.leaseObjs[l].refs else 0
  }

  lemma DebtIsDefined(w: World, d: ActorId)
    requires Inv(w) && Waits(w, d)
    ensures match w.deleters[d].stage
      case AwaitConversion(t) =>
        && t in w.states
        && (w.states[t].active ==>
              var a := w.states[t].owner;
              a in w.workers && w.workers[a].Job? && w.workers[a].token == t && OwesSignal(w.workers[a].stage))
      case AwaitLease(l) => l in w.leaseObjs && w.leaseObjs[l].id == w.deleters[d].id
        && w.leaseObjs[l].refs == |Holders(w.readers, l)| && (w.leaseObjs[l].closed <==> w.leaseObjs[l].refs == 0)
      case _ => true
  {
    hide LeakInv, RowsInv, DiskInv, WorkDiskInv, ReaderInv, DeleterInv, MarkerInv,
      PendingInv, StrandInv, CreatorInv, WorkerInv, BacklogInv, QueueInv, TimerInv, RetryInv, ForgetInv;
  }

  /** A signal that was sent stays sent; one that is owed is owed by the same worker, at
      most as far away as before. */
  ghost predicate NotFurther(w: World, w': World, t: Token)
    requires t in w.states
  {
    && t in w'.states
    && (w'.states[t].active ==>
          && w.states[t].active
          && var a := w.states[t].owner;
             && w'.states[t].owner == a
             && a in w.workers && w.workers[a].Job? && a in w'.workers && w'.workers[a].Job?
             && Distance(w'.workers[a].stage) <= Distance(w.workers[a].stage))
  }

  lemma WorkNotFurther(w: World, s: WorkStep, w': World, t: Token)
    requires ConversionOk(w) && t in w.states && WorkNext(w, s, w')
    ensures NotFurther(w, w', t)
  {}

  lemma ConvertNotFurther(w: World, s: ConvertStep, w': World, t: Token)
    requires ConversionOk(w) && t in w.states && ConvertNext(w, s, w')
    ensures NotFurther(w, w', t)
  {}

  lemma RetryNotFurther(w: World, s: RetryStep, w': World, t: Token)
    requires ConversionOk(w) && t in w.states && RetryNext(w, s, w')
    ensures NotFurther(w, w', t)
  {}

  lemma BackoffNotFurther(w: World, s: BackoffStep, w': World, t: Token)
    requires ConversionOk(w) && t in w.states && BackoffNext(w, s, w')
    ensures NotFurther(w, w', t)
  {}

  lemma SystemNotFurther(w: World, s: SystemStep, w': World, t: Token)
    requires QuietOk(w) && ConversionOk(w) && t in w.states && SystemNext(w, s, w') && !s.Crash?
    ensures NotFurther(w, w', t)
  {}

  /** Nobody takes a lease on a file whose deletion has begun. */
  lemma ReadersOnlyLeave(w: World, s: ReadStep, w': World, l: Token)
    requires LeaseOk(w) && l in w.leaseObjs && w.leaseObjs[l].id in w.deleting && ReadNext(w, s, w')
    ensures l in w'.leaseObjs && w'.leaseObjs[l].refs <= w.leaseObjs[l].refs
  {}

  lemma StillNotFurther(w: World, w': World, t: Token)
    requires ConversionOk(w) && t in w.states && w'.states == w.states && w'.workers == w.workers
    ensures NotFurther(w, w', t)
  {}

  lemma SignalComesNearer(w: World, s: Step, w': World, t: Token)
    requires QuietOk(w) && ConversionOk(w) && t in w.states && Next(w, s, w') && s != System(Crash)
    ensures NotFurther(w, w', t)
  {
    hide QuietOk, ConversionInv, NotFurther, SystemNext, CreateNext, RecordNext, WorkNext, ConvertNext, RetryNext,
      BackoffNext, ReadNext, DeleteNext, WaitNext, EraseNext;
    match s
    case System(x) => SystemNotFurther(w, x, w', t);
    case Create(x) => CreateFrame(w, x, w'); StillNotFurther(w, w', t);
    case Record(x) => RecordFrame(w, x, w'); StillNotFurther(w, w', t);
    case Work(x) => WorkNotFurther(w, x, w', t);
    case Convert(x) => ConvertNotFurther(w, x, w', t);
    case Retry(x) => RetryNotFurther(w, x, w', t);
    case Backoff(x) => BackoffNotFurther(w, x, w', t);
    case Read(x) => ReadFrame(w, x, w'); StillNotFurther(w, w', t);
    case Delete(x) => DeleteFrame(w, x, w'); StillNotFurther(w, w', t);
    case Wait(x) => WaitFrame(w, x, w'); StillNotFurther(w, w', t);
    case Erase(x) => EraseFrame(w, x, w'); StillNotFurther(w, w', t);
  }

  lemma NoReaderJoins(w: World, s: Step, w': World, l: Token)
    requires LeaseOk(w) && l in w.leaseObjs && w.leaseObjs[l].id in w.deleting && Next(w, s, w') && s != System(Crash)
    ensures l in w'.leaseObjs && w'.leaseObjs[l].refs <= w.leaseObjs[l].refs
  {
    hide LeaseInv, SystemNext, CreateNext, RecordNext, WorkNext, ConvertNext, RetryNext, BackoffNext, ReadNext,
      DeleteNext, WaitNext, EraseNext;
    match s
    case System(x) => SystemFrame(w, x, w');
    case Create(x) => CreateFrame(w, x, w');
    case Record(x) => RecordFrame(w, x, w');
    case Work(x) => WorkFrame(w, x, w');
    case Convert(x) => ConvertFrame(w, x, w');
    case Retry(x) => RetryFrame(w, x, w');
    case Backoff(x) => BackoffFrame(w, x, w');
    case Read(x) => ReadersOnlyLeave(w, x, w', l);
    case Delete(x) => DeleteFrame(w, x, w');
    case Wait(x) => WaitFrame(w, x, w');
    case Erase(x) => EraseFrame(w, x, w');
  }

  lemma CrashForgets(w: World, w': World)
    requires Next(w, System(Crash), w')
    ensures w'.deleters == map[]
  {}

  /** While a deleter waits, what it waits for only comes nearer. */
  lemma WaitComesNearer(w: World, s: Step, w': World, d: ActorId)
    requires Inv(w) && Next(w, s, w') && Waits(w, d) && d in w'.deleters
    ensures match w.deleters[d].stage
      case AwaitConversion(t) => t in w.states && NotFurther(w, w', t)
      case AwaitLease(l) => l in w.leaseObjs && l in w'.leaseObjs && w'.leaseObjs[l].refs <= w.leaseObjs[l].refs
      case _ => true
  {
    hide LeakInv, RowsInv, DiskInv, WorkDiskInv, ReaderInv, DeleterInv, ConversionInv, LeaseInv, NotFurther,
      PendingInv, StrandInv, CreatorInv, WorkerInv, BacklogInv, QueueInv, TimerInv, RetryInv, ForgetInv, OnlyTouchedBy,
      OnlyLeasedBy, QuietOk, Next;
    if s == System(Crash) {
      CrashForgets(w, w');
      assert false;
    } else if w.deleters[d].stage.AwaitConversion? {
      SignalComesNearer(w, s, w', w.deleters[d].stage.conversion);
    } else {
      NoReaderJoins(w, s, w', w.deleters[d].stage.readers);
    }
  }

  /** In every run the debt of a waiting deleter never grows: no new lease, no new
      conversion of the file. */
  lemma DebtNeverGrows(ws: seq<World>, ss: seq<Step>, i: nat, d: ActorId)
    requires IsRun(ws, ss) && i < |ss| && Waits(ws[i], d)
    requires d in ws[i + 1].deleters && ws[i + 1].deleters[d] == ws[i].deleters[d]
    ensures Debt(ws[i + 1], d) <= Debt(ws[i], d)
  {
    hide Inv, Next;
    RunKeepsInv(ws, ss, i);
    RunKeepsInv(ws, ss, i + 1);
    assert StepAt(ws, ss, i);
    DebtIsDefined(ws[i], d);
    DebtIsDefined(ws[i + 1], d);
    WaitComesNearer(ws[i], ss[i], ws[i + 1], d);
  }

  lemma SignalEndsWait(w: World, d: ActorId) returns (w': World)
    requires Inv(w) && Waits(w, d) && w.deleters[d].stage.AwaitConversion? && Debt(w, d) == 0
    ensures WaitNext(w, ConversionDone(d), w') && d in w'.deleters && w'.deleters[d].stage == DeleteStage.FindLease
  {
    hide Inv;
    DebtIsDefined(w, d);
    w' := w.(deleters := Actions.Advance(w, d, DeleteStage.FindLease));
  }

  lemma ReleaseEndsWait(w: World, d: ActorId) returns (w': World)
    requires Inv(w) && Waits(w, d) && w.deleters[d].stage.AwaitLease? && Debt(w, d) == 0
    ensures WaitNext(w, LeaseDone(d), w') && d in w'.deleters && w'.deleters[d].stage == RemoveDir
  {
    hide Inv;
    DebtIsDefined(w, d);
    w' := w.(deleters := Actions.Advance(w, d, RemoveDir));
  }

  /** Without debt the wait is over. */
  lemma NoDebtEndsWait(ws: seq<World>, ss: seq<Step>, i: nat, d: ActorId) returns (s: WaitStep, w': World)
    requires IsRun(ws, ss) && i < |ws| && Waits(ws[i], d) && Debt(ws[i], d) == 0
    ensures WaitNext(ws[i], s, w') && d in w'.deleters
    ensures w'.deleters[d].stage == if ws[i].deleters[d].stage.AwaitLease? then RemoveDir else DeleteStage.FindLease
  {
    hide Inv, WaitNext, Debt;
    RunKeepsInv(ws, ss, i);
    if ws[i].deleters[d].stage.AwaitConversion? {
      s := ConversionDone(d);
      w' := SignalEndsWait(ws[i], d);
    } else {
      s := LeaseDone(d);
      w' := ReleaseEndsWait(ws[i], d);
    }
  }

  /** Worker `a` has sent its signal, or is nearer to it. */
  ghost predicate Nearer(w: World, a: ActorId, w': World)
    requires a in w.workers && w.workers[a].Job?
  {
    && w'.deleters == w.deleters
    && var t := w.workers[a].token;
       || (t in w'.states && !w'.states[t].active)
       || (w'.states == w.states && a in w'.workers && w'.workers[a].Job?
           && Distance(w'.workers[a].stage) < Distance(w.workers[a].stage))
  }

  // ---------- the steps a wait depends on ----------

  /** Step `s` is what worker `a`, which owes a signal, does next, however the call in it
      turns out.  Convert returns without an error only when its manifest is whole. */
  ghost predicate IsNextStep(w: World, s: Step, a: ActorId) {
    && a in w.workers && w.workers[a].Job? && IsStepOf(s, a)
    && match w.workers[a].stage
       case Lookup => s.Work? && s.work.Lookup?
       case Claim => s.Work? && s.work.Claim?
       case Start => s.Work? && s.work.Start?
       case Converting =>
         && s.Convert? && s.convert.Return?
         && var dir := w.workers[a].dir; s.convert.out.Finished? ==> dir in w.disk && Complete(w.disk[dir])
       case Publish => s.Convert? && s.convert.Publish?
       case Reject => s.Convert? && s.convert.Reject?
       case Unregister(_) => s.Convert? && s.convert.Unregister?
       case Signal(_) => s.Convert? && s.convert.Signal?
       case _ => false
  }

  lemma LookupIsEnabled(w: World, a: ActorId, fail: bool) returns (w': World)
    requires Actions.Working(w, a, WorkStage.Lookup)
    ensures Actions.LookupRow(w, a, fail, w')
  {
    var j := w.workers[a];
    var record := GetInternal(w.rows, j.id);
    var wanted := !fail && record.Some? && record.value.deletedAt.None?;
    w' := w.(workers := w.workers[a := j.(
      dir := if wanted then record.value.dir else j.dir,
      stage := if fail then WorkStage.Unregister(Retryable)
               else if wanted then WorkStage.Claim else WorkStage.Unregister(Finished))]);
  }

  lemma ClaimIsEnabled(w: World, a: ActorId, fail: bool) returns (w': World)
    requires Actions.Working(w, a, WorkStage.Claim)
    ensures Actions.ClaimStatus(w, a, fail, w')
  {
    var id := w.workers[a].id;
    var stage := if fail then WorkStage.Unregister(Retryable)
                 else if Live(w.rows, id) then WorkStage.Start else WorkStage.Unregister(Finished);
    w' := w.(rows := if fail then w.rows else UpdateStatus(w.rows, id, Processing, None, ""),
             workers := Actions.ToStage(w, a, stage));
  }

  lemma StartIsEnabled(w: World, a: ActorId, resolved: bool) returns (w': World)
    requires Actions.Working(w, a, WorkStage.Start)
    ensures Actions.StartConvert(w, a, resolved, w')
  {
    var id := w.workers[a].id;
    var calls := if resolved then w.hist.calls[id := At(w.hist.calls, id, 0) + 1] else w.hist.calls;
    w' := w.(workers := Actions.ToStage(w, a, if resolved then WorkStage.Converting else WorkStage.Reject),
             hist := w.hist.(calls := calls));
  }

  lemma ReturnIsEnabled(w: World, a: ActorId, out: Outcome) returns (w': World)
    requires Actions.Working(w, a, WorkStage.Converting)
    requires var dir := w.workers[a].dir; out.Finished? ==> dir in w.disk && Complete(w.disk[dir])
    ensures Actions.ConvertReturns(w, a, out, w')
  {
    var stage := if out.Finished? then WorkStage.Publish else WorkStage.Unregister(out);
    w' := w.(workers := Actions.ToStage(w, a, stage));
  }

  lemma PublishIsEnabled(w: World, a: ActorId, fail: bool) returns (w': World)
    requires Actions.Working(w, a, WorkStage.Publish)
    ensures Actions.PublishStatus(w, a, fail, w')
  {
    var j := w.workers[a];
    var done := if !fail && Live(w.rows, j.id) then {j.id} else {};
    w' := w.(rows := if fail then w.rows else UpdateStatus(w.rows, j.id, Processed, Some(j.dir), ""),
             workers := Actions.ToStage(w, a, WorkStage.Unregister(if fail then Retryable else Finished)),
             hist := w.hist.(settled := w.hist.settled + done, processed := w.hist.processed + done));
  }

  lemma RejectIsEnabled(w: World, a: ActorId, message: string, fail: bool) returns (w': World)
    requires Actions.Working(w, a, WorkStage.Reject)
    ensures Actions.RejectFile(w, a, message, fail, w')
  {
    var id := w.workers[a].id;
    w' := w.(rows := Actions.MarkFailed(w.rows, id, message, fail),
             hist := Actions.NoteFailed(w.hist, w.rows, id, fail),
             workers := Actions.ToStage(w, a, WorkStage.Unregister(Finished)));
  }

  lemma UnregisterIsEnabled(w: World, a: ActorId) returns (w': World)
    requires a in w.workers && w.workers[a].Job? && w.workers[a].stage.Unregister?
    ensures Actions.EndConversion(w, a, w')
  {
    var j := w.workers[a];
    var current := j.id in w.conversions && w.conversions[j.id] == j.token;
    w' := w.(conversions := if current then w.conversions - {j.id} else w.conversions,
             workers := Actions.ToStage(w, a, WorkStage.Signal(j.stage.out)));
  }

  lemma SignalIsEnabled(w: World, a: ActorId) returns (w': World)
    requires a in w.workers && w.workers[a].Job? && w.workers[a].token in w.states && w.workers[a].stage.Signal?
    ensures Actions.SignalDone(w, a, w')
  {
    var j := w.workers[a];
    w' := w.(states := w.states[j.token := w.states[j.token].(active := false)],
             workers := Actions.ToStage(w, a, WorkStage.Handle(j.stage.out)));
  }

  /** A worker that owes a signal can always go on, and no fault is needed for it. */
  lemma NextStepIsEnabled(w: World, s: Step, a: ActorId) returns (w': World)
    requires IsNextStep(w, s, a) && w.workers[a].token in w.states
    ensures Next(w, s, w')
  {
    hide Actions.LookupRow, Actions.ClaimStatus, Actions.StartConvert, Actions.ConvertReturns, Actions.PublishStatus,
      Actions.RejectFile, Actions.EndConversion, Actions.SignalDone;
    match s
    case Work(Lookup(_, fail)) => w' := LookupIsEnabled(w, a, fail);
    case Work(Claim(_, fail)) => w' := ClaimIsEnabled(w, a, fail);
    case Work(Start(_, resolved)) => w' := StartIsEnabled(w, a, resolved);
    case Convert(Return(_, out)) => w' := ReturnIsEnabled(w, a, out);
    case Convert(Publish(_, fail)) => w' := PublishIsEnabled(w, a, fail);
    case Convert(Reject(_, message, fail)) => w' := RejectIsEnabled(w, a, message, fail);
    case Convert(Unregister(_)) => w' := UnregisterIsEnabled(w, a);
    case Convert(Signal(_)) => w' := SignalIsEnabled(w, a);
  }

  lemma WorkGoesOn(w: World, s: WorkStep, w': World)
    requires s.a in w.workers && w.workers[s.a].Job? && OwesSignal(w.workers[s.a].stage) && WorkNext(w, s, w')
    ensures Nearer(w, s.a, w') && IsNextStep(w, Work(s), s.a)
  {}

  lemma ConvertGoesOn(w: World, s: ConvertStep, w': World)
    requires s.a in w.workers && w.workers[s.a].Job? && OwesSignal(w.workers[s.a].stage) && ConvertNext(w, s, w')
    ensures !s.Write? ==> Nearer(w, s.a, w') && IsNextStep(w, Convert(s), s.a)
  {}

  lemma NoRetryYet(w: World, s: RetryStep, w': World)
    requires RetryNext(w, s, w')
    ensures s.a in w.workers && w.workers[s.a].Job? && !OwesSignal(w.workers[s.a].stage)
  {}

  lemma NoBackoffYet(w: World, s: BackoffStep, w': World)
    requires BackoffNext(w, s, w') && !s.Fire?
    ensures s.a in w.workers && w.workers[s.a].Job? && !OwesSignal(w.workers[s.a].stage)
  {}

  /** Each step of a worker that owes a signal, but for the writing of artifacts, brings the
      signal nearer. */
  lemma WorkerMovesOn(w: World, s: Step, w': World, a: ActorId)
    requires a in w.workers && w.workers[a].Job? && OwesSignal(w.workers[a].stage)
    requires Next(w, s, w') && IsStepOf(s, a) && !(s.Convert? && s.convert.Write?)
    ensures Nearer(w, a, w') && IsNextStep(w, s, a) && (s.Work? || s.Convert?)
  {
    hide WorkNext, ConvertNext, RetryNext, BackoffNext, Nearer, IsNextStep, OwesSignal;
    match s
    case Work(x) => WorkGoesOn(w, x, w');
    case Convert(x) => ConvertGoesOn(w, x, w');
    case Retry(x) => NoRetryYet(w, x, w');
    case Backoff(x) => NoBackoffYet(w, x, w');
    case _ =>
  }

  lemma ReleaseIsEnabled(w: World, r: ActorId) returns (w': World)
    requires r in w.readers && HoldsLease(w.readers[r])
    requires var l := LeaseOf(w.readers[r]); l in w.leaseObjs && w.leaseObjs[l].refs > 0
    ensures Next(w, Read(Release(r)), w')
  {
    var d := w.readers[r];
    var l := LeaseOf(d);
    var left := w.leaseObjs[l].refs - 1;
    var closing := left == 0 && !w.leaseObjs[l].closed;
    w' := w.(leaseObjs := w.leaseObjs[l := w.leaseObjs[l].(refs := left, closed := w.leaseObjs[l].closed || closing)],
             leases := if closing then w.leases - {d.id} else w.leases,
             readers := w.readers - {r});
  }

  lemma ReleaseCounts(w: World, r: ActorId, w': World)
    requires ReadNext(w, Release(r), w')
    ensures r in w.readers && HoldsLease(w.readers[r]) && w'.deleters == w.deleters
    ensures var l := LeaseOf(w.readers[r]);
      l in w.leaseObjs && l in w'.leaseObjs && w'.leaseObjs[l].refs == w.leaseObjs[l].refs - 1
  {}

  /** Step `s` is one that deleter `d` waits for: any step of the worker that owes it the
      signal but for the writing of artifacts, or the release of a lease on its file. */
  ghost predicate AwaitedBy(w: World, d: ActorId, s: Step) {
    && Waits(w, d)
    && match w.deleters[d].stage
       case AwaitConversion(t) =>
         t in w.states && w.states[t].active && IsStepOf(s, w.states[t].owner) && !(s.Convert? && s.convert.Write?)
       case AwaitLease(l) => s.Read? && s.read.Release? && s.read.r in Holders(w.readers, l)
       case _ => false
  }

  /** The worker is where it takes this step; a lease can be given back at any time. */
  ghost predicate IsDue(w: World, s: Step) {
    s.Read? || (s.Work? && IsNextStep(w, s, s.work.a)) || (s.Convert? && IsNextStep(w, s, s.convert.a))
  }

  lemma AwaitedStepCounts(w: World, s: Step, w': World, d: ActorId)
    requires Inv(w) && AwaitedBy(w, d, s) && Next(w, s, w')
    ensures IsDue(w, s) && w'.deleters == w.deleters && Debt(w', d) < Debt(w, d)
  {
    hide Inv, WorkNext, ConvertNext, RetryNext, BackoffNext, ReadNext, IsNextStep;
    DebtIsDefined(w, d);
    if w.deleters[d].stage.AwaitConversion? {
      WorkerMovesOn(w, s, w', w.states[w.deleters[d].stage.conversion].owner);
    } else {
      ReleaseCounts(w, s.read.r, w');
    }
  }

  lemma AwaitedStepIsEnabled(w: World, s: Step, d: ActorId) returns (w': World)
    requires Inv(w) && AwaitedBy(w, d, s) && IsDue(w, s)
    ensures Next(w, s, w')
  {
    hide Inv, Next, IsNextStep;
    DebtIsDefined(w, d);
    if w.deleters[d].stage.AwaitConversion? {
      w' := NextStepIsEnabled(w, s, w.states[w.deleters[d].stage.conversion].owner);
    } else {
      w' := ReleaseIsEnabled(w, s.read.r);
    }
  }

  /** Each step that a waiting deleter depends on shortens the wait, in every run. */
  lemma AwaitedStepsShortenWait(ws: seq<World>, ss: seq<Step>, i: nat, d: ActorId)
    requires IsRun(ws, ss) && i < |ss| && AwaitedBy(ws[i], d, ss[i])
    ensures ws[i + 1].deleters == ws[i].deleters && Debt(ws[i + 1], d) < Debt(ws[i], d)
  {
    hide Inv, Next, AwaitedBy, Debt, IsDue;
    RunKeepsInv(ws, ss, i);
    assert StepAt(ws, ss, i);
    AwaitedStepCounts(ws[i], ss[i], ws[i + 1], d);
  }

  // ---------- no deadlock ----------

  /** From `w` without a fault to a state in which deleter `d` owes less of its wait. */
  ghost predicate LeadsOn(w: World, vs: seq<World>, ts: seq<Step>, d: ActorId) {
    && IsPath(vs, ts) && vs[0] == w && Inv(vs[|ts|]) && (forall t | t in ts :: !IsFault(t))
    && vs[|ts|].deleters == w.deleters && Debt(vs[|ts|], d) < Debt(w, d)
  }

  /** The next step of a worker when nothing fails; Convert must have written its manifest. */
  function FaultlessStep(stage: WorkStage, a: ActorId): Step {
    match stage
    case Lookup => Work(WorkStep.Lookup(a, false))
    case Claim => Work(WorkStep.Claim(a, false))
    case Start => Work(WorkStep.Start(a, true))
    case Converting => Convert(Return(a, Finished))
    case Publish => Convert(ConvertStep.Publish(a, false))
    case Reject => Convert(ConvertStep.Reject(a, "no converter", false))
    case Unregister(_) => Convert(ConvertStep.Unregister(a))
    case _ => Convert(ConvertStep.Signal(a))
  }

  lemma FaultlessStepIsDue(w: World, a: ActorId)
    requires a in w.workers && w.workers[a].Job? && OwesSignal(w.workers[a].stage)
    requires var j := w.workers[a]; j.stage.Converting? ==> j.dir in w.disk && Complete(w.disk[j.dir])
    ensures var s := FaultlessStep(w.workers[a].stage, a);
      IsStepOf(s, a) && IsNextStep(w, s, a) && IsDue(w, s) && !IsFault(s) && !(s.Convert? && s.convert.Write?)
  {}

  lemma AwaitedStepLeadsOn(w: World, s: Step, d: ActorId) returns (vs: seq<World>, ts: seq<Step>)
    requires Inv(w) && AwaitedBy(w, d, s) && IsDue(w, s) && !IsFault(s)
    ensures LeadsOn(w, vs, ts, d)
  {
    hide Inv, Next, AwaitedBy, IsDue, Debt;
    var w' := AwaitedStepIsEnabled(w, s, d);
    AwaitedStepCounts(w, s, w', d);
    NextKeepsInv(w, s, w');
    vs, ts := [w, w'], [s];
    assert StepAt(vs, ts, 0);
  }

  /** Convert can write an empty manifest; nothing that a deleter waits for changes. */
  lemma ConvertCanWrite(w: World, a: ActorId, d: ActorId) returns (w': World, s: Step)
    requires Inv(w) && Actions.Working(w, a, Converting)
    ensures Next(w, s, w') && !IsFault(s) && Actions.Working(w', a, Converting)
    ensures w'.workers[a].dir in w'.disk && Complete(w'.disk[w'.workers[a].dir])
    ensures w'.deleters == w.deleters && w'.states == w.states && Debt(w', d) == Debt(w, d)
  {
    hide QuietOk, RowsInv, LeakInv, DiskInv, ConversionInv, LeaseInv, ReaderInv, MarkerInv, DeleterInv,
      AwaitConversionInv, AwaitLeaseInv, PendingInv, StrandInv, CreatorInv, WorkerInv, BacklogInv, QueueInv, TimerInv,
      RetryInv, ForgetInv;
    var dir := w.workers[a].dir;
    var written := w.disk[dir].(manifest := Some({}));
    s := Convert(Write(a, written));
    w' := w.(disk := w.disk[dir := written]);
  }

  lemma ConversionLeadsOn(w: World, a: ActorId, d: ActorId) returns (vs: seq<World>, ts: seq<Step>)
    requires Inv(w) && Waits(w, d) && w.deleters[d].stage.AwaitConversion?
    requires var t := w.deleters[d].stage.conversion; t in w.states && w.states[t].active && w.states[t].owner == a
    ensures LeadsOn(w, vs, ts, d)
  {
    hide Inv, Next, IsDue, IsNextStep, IsFault, Debt, LeadsOn;
    DebtIsDefined(w, d);
    if w.workers[a].stage.Converting? {
      var u, q := ConvertCanWrite(w, a, d);
      NextKeepsInv(w, q, u);
      FaultlessStepIsDue(u, a);
      vs, ts := AwaitedStepLeadsOn(u, FaultlessStep(Converting, a), d);
      vs, ts := LeadsOnAfter(w, q, u, vs, ts, d);
    } else {
      FaultlessStepIsDue(w, a);
      vs, ts := AwaitedStepLeadsOn(w, FaultlessStep(w.workers[a].stage, a), d);
    }
  }

  lemma LeadsOnAfter(w: World, q: Step, u: World, vs: seq<World>, ts: seq<Step>, d: ActorId)
    returns (vs': seq<World>, ts': seq<Step>)
    requires Next(w, q, u) && !IsFault(q) && u.deleters == w.deleters && Debt(u, d) == Debt(w, d)
    requires LeadsOn(u, vs, ts, d)
    ensures LeadsOn(w, vs', ts', d)
  {
    hide Inv, Next, IsFault, Debt;
    var us, qs := [w, u], [q];
    assert StepAt(us, qs, 0);
    PathsJoin(us, qs, vs, ts);
    vs', ts' := us + vs[1..], qs + ts;
  }

  lemma ReleaseLeadsOn(w: World, d: ActorId) returns (vs: seq<World>, ts: seq<Step>)
    requires Inv(w) && Waits(w, d) && w.deleters[d].stage.AwaitLease? && Debt(w, d) > 0
    ensures LeadsOn(w, vs, ts, d)
  {
    hide Inv, LeadsOn;
    DebtIsDefined(w, d);
    var l := w.deleters[d].stage.readers;
    assert |Holders(w.readers, l)| > 0;
    var r :| r in Holders(w.readers, l);
    vs, ts := AwaitedStepLeadsOn(w, Read(Release(r)), d);
  }

  lemma WaitLeadsOn(w: World, d: ActorId) returns (vs: seq<World>, ts: seq<Step>)
    requires Inv(w) && Waits(w, d) && Debt(w, d) > 0
    ensures LeadsOn(w, vs, ts, d)
  {
    hide Inv, LeadsOn;
    DebtIsDefined(w, d);
    if w.deleters[d].stage.AwaitConversion? {
      vs, ts := ConversionLeadsOn(w, w.states[w.deleters[d].stage.conversion].owner, d);
    } else {
      vs, ts := ReleaseLeadsOn(w, d);
    }
  }

  lemma {:induction false} WaitCanEnd(w: World, d: ActorId) returns (vs: seq<World>, ts: seq<Step>)
    requires Inv(w) && Waits(w, d)
    ensures IsPath(vs, ts) && vs[0] == w && (forall t | t in ts :: !IsFault(t))
    ensures Inv(vs[|ts|]) && vs[|ts|].deleters == w.deleters && Debt(vs[|ts|], d) == 0
    decreases Debt(w, d)
  {
    hide Inv, Next, IsFault, Debt;
    if Debt(w, d) == 0 {
      vs, ts := [w], [];
    } else {
      var us, qs := WaitLeadsOn(w, d);
      vs, ts := WaitCanEnd(us[|qs|], d);
      PathsJoin(us, qs, vs, ts);
      vs, ts := us + vs[1..], qs + ts;
    }
  }

  /** No deadlock: at any moment of any run, a step that a waiting deleter depends on can be
      taken when it is due, whether the call in it fails or not. */
  lemma DueStepsAreEnabled(ws: seq<World>, ss: seq<Step>, i: nat, d: ActorId, s: Step) returns (w': World)
    requires IsRun(ws, ss) && i < |ws| && AwaitedBy(ws[i], d, s) && IsDue(ws[i], s)
    ensures Next(ws[i], s, w') && w'.deleters == ws[i].deleters && Debt(w', d) < Debt(ws[i], d)
  {
    hide Inv, Next, AwaitedBy, IsDue, Debt;
    RunKeepsInv(ws, ss, i);
    w' := AwaitedStepIsEnabled(ws[i], s, d);
    AwaitedStepCounts(ws[i], s, w', d);
  }

  /** And no fault is needed: from any moment of any run on there is a continuation, made of
      steps of which none fails, after which the wait is over. */
  lemma WaitIsNeverStuck(ws: seq<World>, ss: seq<Step>, i: nat, d: ActorId) returns (vs: seq<World>, ts: seq<Step>)
    requires IsRun(ws, ss) && i < |ws| && Waits(ws[i], d)
    ensures IsPath(vs, ts) && vs[0] == ws[i] && (forall t | t in ts :: !IsFault(t))
    ensures Waits(vs[|ts|], d) && vs[|ts|].deleters == ws[i].deleters && Debt(vs[|ts|], d) == 0
  {
    hide Inv, Next, IsFault, Debt;
    RunKeepsInv(ws, ss, i);
    vs, ts := WaitCanEnd(ws[i], d);
  }
}
