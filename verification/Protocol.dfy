/** The transition relation: at every point any enabled step of any actor may happen. */
module Protocol {
  import opened Rows
  import opened World
  import Actions

  datatype SystemStep =
    | Tick(time: int) | Crash | Boot(consolidate: bool) | Reconcile(p: Path, left: Option<Dir>)
    | Run(backlog: seq<FileId>, pool: set<ActorId>) | Resubmit(drop: bool) | Interrupt | CloseLifecycle

  datatype CreateStep =
    | CreateDir(a: ActorId, id: FileId, tenant: string) | WriteSource(a: ActorId, fail: bool)
    | Cleanup(a: ActorId, left: Option<Dir>)

  datatype RecordStep =
    | AddRow(a: ActorId, row: Row, fail: bool) | Submit(a: ActorId, drop: bool)

  datatype WorkStep =
    | Take(a: ActorId) | Quit(a: ActorId) | Begin(a: ActorId) | Lookup(a: ActorId, fail: bool)
    | Claim(a: ActorId, fail: bool) | Start(a: ActorId, resolved: bool)

  datatype ConvertStep =
    | Write(a: ActorId, d: Dir) | Return(a: ActorId, out: Outcome) | Publish(a: ActorId, fail: bool)
    | Reject(a: ActorId, message: string, fail: bool) | Unregister(a: ActorId) | Signal(a: ActorId)

  datatype RetryStep =
    | Handle(a: ActorId) | GiveUp(a: ActorId, message: string, fail: bool) | Inspect(a: ActorId, fail: bool)

  datatype BackoffStep =
    | Bump(a: ActorId) | Arm(a: ActorId, t: ActorId) | Forget(a: ActorId) | Fire(t: ActorId, drop: bool)

  datatype ReadStep =
    | Find(r: ActorId, id: FileId, tenant: string, manifest: bool) | Acquire(r: ActorId)
    | Open(r: ActorId) | Release(r: ActorId)

  datatype DeleteStep =
    | FindVictim(x: ActorId, id: FileId, tenant: string) | FindExpired(x: ActorId, id: FileId)
    | Begin(x: ActorId) | Mark(x: ActorId, fail: bool) | End(x: ActorId)

  datatype EraseStep =
    | DeleteDir(x: ActorId, left: Option<Dir>) | DeleteRow(x: ActorId, fail: bool)

  datatype WaitStep =
    | FindConversion(x: ActorId) | CheckConversion(x: ActorId) | ConversionDone(x: ActorId)
    | FindLease(x: ActorId) | CheckLease(x: ActorId) | LeaseDone(x: ActorId)

  predicate SystemNext(w: World, s: SystemStep, w': World) {
    match s
    case Tick(time) => Actions.Tick(w, time, w')
    case Crash => w' == Actions.Crashed(w)
    case Boot(consolidate) => Actions.Boot(w, consolidate, w')
    case Reconcile(p, left) => Actions.ReconcileDir(w, p, left, w')
    case Run(backlog, pool) => Actions.Run(w, backlog, pool, w')
    case Resubmit(drop) => Actions.Resubmit(w, drop, w')
    case Interrupt => Actions.Interrupt(w, w')
    case CloseLifecycle => Actions.CloseLifecycle(w, w')
  }

  predicate CreateNext(w: World, s: CreateStep, w': World) {
    match s
    case CreateDir(a, id, tenant) => Actions.CreateDir(w, a, id, tenant, w')
    case WriteSource(a, fail) => Actions.WriteSource(w, a, fail, w')
    case Cleanup(a, left) => Actions.CleanupDir(w, a, left, w')
  }

  predicate RecordNext(w: World, s: RecordStep, w': World) {
    match s
    case AddRow(a, row, fail) => Actions.AddRow(w, a, row, fail, w')
    case Submit(a, drop) => Actions.SubmitJob(w, a, drop, w')
  }

  predicate WorkNext(w: World, s: WorkStep, w': World) {
    match s
    case Take(a) => Actions.Take(w, a, w')
    case Quit(a) => Actions.Quit(w, a, w')
    case Begin(a) => Actions.BeginConversion(w, a, w')
    case Lookup(a, fail) => Actions.LookupRow(w, a, fail, w')
    case Claim(a, fail) => Actions.ClaimStatus(w, a, fail, w')
    case Start(a, resolved) => Actions.StartConvert(w, a, resolved, w')
  }

  predicate ConvertNext(w: World, s: ConvertStep, w': World) {
    match s
    case Write(a, d) => Actions.ConvertWrites(w, a, d, w')
    case Return(a, out) => Actions.ConvertReturns(w, a, out, w')
    case Publish(a, fail) => Actions.PublishStatus(w, a, fail, w')
    case Reject(a, message, fail) => Actions.RejectFile(w, a, message, fail, w')
    case Unregister(a) => Actions.EndConversion(w, a, w')
    case Signal(a) => Actions.SignalDone(w, a, w')
  }

  predicate RetryNext(w: World, s: RetryStep, w': World) {
    match s
    case Handle(a) => Actions.HandleErr(w, a, w')
    case GiveUp(a, message, fail) => Actions.GiveUpJob(w, a, message, fail, w')
    case Inspect(a, fail) => Actions.FileActive(w, a, fail, w')
  }

  predicate BackoffNext(w: World, s: BackoffStep, w': World) {
    match s
    case Bump(a) => Actions.BumpRetry(w, a, w')
    case Arm(a, t) => Actions.ArmTimer(w, a, t, w')
    case Forget(a) => Actions.ForgetRetries(w, a, w')
    case Fire(t, drop) => Actions.FireTimer(w, t, drop, w')
  }

  predicate ReadNext(w: World, s: ReadStep, w': World) {
    match s
    case Find(r, id, tenant, manifest) => Actions.FindFile(w, r, id, tenant, manifest, w')
    case Acquire(r) => Actions.AcquireLease(w, r, w')
    case Open(r) => Actions.OpenFile(w, r, w')
    case Release(r) => Actions.ReleaseLease(w, r, w')
  }

  predicate DeleteNext(w: World, s: DeleteStep, w': World) {
    match s
    case FindVictim(x, id, tenant) => Actions.FindVictim(w, x, id, tenant, w')
    case FindExpired(x, id) => Actions.FindExpired(w, x, id, w')
    case Begin(x) => Actions.BeginDeletion(w, x, w')
    case Mark(x, fail) => Actions.MarkRow(w, x, fail, w')
    case End(x) => Actions.EndDeletion(w, x, w')
  }

  predicate EraseNext(w: World, s: EraseStep, w': World) {
    match s
    case DeleteDir(x, left) => Actions.DeleteDir(w, x, left, w')
    case DeleteRow(x, fail) => Actions.DeleteRow(w, x, fail, w')
  }

  predicate WaitNext(w: World, s: WaitStep, w': World) {
    match s
    case FindConversion(x) => Actions.LookForConversion(w, x, w')
    case CheckConversion(x) => Actions.CheckActive(w, x, w')
    case ConversionDone(x) => Actions.ConversionDone(w, x, w')
    case FindLease(x) => Actions.LookForLease(w, x, w')
    case CheckLease(x) => Actions.CheckRefs(w, x, w')
    case LeaseDone(x) => Actions.LeaseDone(w, x, w')
  }

  datatype Step =
    | System(system: SystemStep)
    | Create(create: CreateStep) | Record(record: RecordStep)
    | Work(work: WorkStep) | Convert(convert: ConvertStep) | Retry(retry: RetryStep) | Backoff(backoff: BackoffStep)
    | Read(read: ReadStep)
    | Delete(delete: DeleteStep) | Wait(wait: WaitStep) | Erase(erase: EraseStep)

  predicate Next(w: World, s: Step, w': World) {
    match s
    case System(x) => SystemNext(w, x, w')
    case Create(x) => CreateNext(w, x, w')
    case Record(x) => RecordNext(w, x, w')
    case Work(x) => WorkNext(w, x, w')
    case Convert(x) => ConvertNext(w, x, w')
    case Retry(x) => RetryNext(w, x, w')
    case Backoff(x) => BackoffNext(w, x, w')
    case Read(x) => ReadNext(w, x, w')
    case Delete(x) => DeleteNext(w, x, w')
    case Wait(x) => WaitNext(w, x, w')
    case Erase(x) => EraseNext(w, x, w')
  }

  /** Step `s` is one of worker `a`. */
  predicate IsStepOf(s: Step, a: ActorId) {
    match s
    case Work(x) => x.a == a
    case Convert(x) => x.a == a
    case Retry(x) => x.a == a
    case Backoff(x) => !x.Fire? && x.a == a
    case _ => false
  }

  /** A call failed or returned an error, no converter was found, or the process ended. */
  predicate IsFault(s: Step) {
    match s
    case System(Crash) => true
    case System(Reconcile(_, left)) => left.Some?
    case Create(WriteSource(_, fail)) => fail
    case Create(Cleanup(_, left)) => left.Some?
    case Record(AddRow(_, _, fail)) => fail
    case Work(Lookup(_, fail)) => fail
    case Work(Claim(_, fail)) => fail
    case Work(Start(_, resolved)) => !resolved
    case Convert(Return(_, out)) => !out.Finished?
    case Convert(Publish(_, fail)) => fail
    case Convert(Reject(_, _, fail)) => fail
    case Retry(GiveUp(_, _, fail)) => fail
    case Retry(Inspect(_, fail)) => fail
    case Delete(Mark(_, fail)) => fail
    case Erase(DeleteDir(_, left)) => left.Some?
    case Erase(DeleteRow(_, fail)) => fail
    case _ => false
  }
}
