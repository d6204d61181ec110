/** The state shared by every goroutine of the file service: the durable part (rows,
    directories), the process memory (queue, tables guarded by `lifecycleMu` and
    `retryMu`), and one program counter for each request, worker and deletion attempt. */
module World {
  import opened Rows

  type ActorId = nat
  type Token = nat

  // ---------- durable state ----------

  /** The contents of one file directory: the source document, the manifest (as the
      set of artifact names it lists) and the artifacts under `derived/`. */
  datatype Dir = Dir(source: bool, manifest: Option<set<string>>, parts: set<string>)

  type Disk = map<Path, Dir>

  const EMPTY_DIR: Dir := Dir(false, None, {})

  predicate Complete(d: Dir) {
    d.manifest.Some? && d.manifest.value <= d.parts
  }

  /** What a `RemoveAll` that failed half way may leave of a directory. */
  predicate Remnant(d: Dir, rest: Dir) {
    && (rest.source ==> d.source)
    && (rest.manifest == d.manifest || rest.manifest.None?)
    && rest.parts <= d.parts
  }

  // ---------- actors ----------

  datatype CreateStage = Made | Written | Cleanup | Submit
  datatype Creator = Creator(id: FileId, dir: Path, stage: CreateStage)

  /** How `convertHandler` returned: nil, an error worth a retry, or an error that is not. */
  datatype Outcome = Finished | Retryable | Fatal

  datatype WorkStage =
    | Begin                      // dequeued, not yet registered in conversions
    | Lookup                     // before GetInternal
    | Claim                      // before UpdateStatus "processing"
    | Start                      // before the converter is resolved
    | Converting                 // Convert is running
    | Publish                    // before UpdateStatus "processed"
    | Reject                     // no converter: before markFailed
    | Unregister(out: Outcome)   // endConversion, first critical section
    | Signal(out: Outcome)       // endConversion, before close(done)
    | Handle(out: Outcome)       // handleErr
    | GiveUp                     // handleErr, before markFailed
    | Inspect(retries: nat)      // handleErr, before fileActive
    | Bump(retries: nat)         // enqueueAfter, before retryCount++
    | Arm(retries: nat)          // enqueueAfter, before time.AfterFunc
    | Forget                     // before forget

  /** `token` identifies the fileLifecycle object from `Lookup` on; `dir` is the
      directory of the record read by GetInternal, from `Claim` to `Publish`. */
  datatype Worker = Idle | Job(id: FileId, token: Token, dir: Path, stage: WorkStage)

  datatype ReadStage = Found | Leased(token: Token) | Reading(lease: Token, named: set<string>)

  /** `manifest` tells Resolve from OpenSource. */
  datatype Reader = Reader(id: FileId, record: Row, manifest: bool, stage: ReadStage)

  datatype DeleteStage =
    | Snapshot                   // holds a record, before beginDeletion
    | Mark                       // before MarkDeleted
    | FindConversion             // waitForConversion, first critical section
    | CheckConversion(token: Token)
    | AwaitConversion(conversion: Token)
    | FindLease                  // waitForLease, first critical section
    | CheckLease(lease: Token)
    | AwaitLease(readers: Token)
    | RemoveDir                  // before os.RemoveAll
    | RemoveRow                  // before store.Delete
    | Abandon                    // nothing was marked: before endDeletion
    | End(deleted: bool)         // after the waits: before endDeletion

  /** `api` tells a Delete call from one record of a janitor pass. */
  datatype Deleter = Deleter(id: FileId, record: Row, api: bool, stage: DeleteStage)

  // ---------- process memory ----------

  datatype Phase = Down | Reconciling | Running(backlog: seq<FileId>)

  /** A fileLifecycle object; `done` is closed exactly when `active` is false. */
  datatype Conversion = Conversion(id: FileId, owner: ActorId, active: bool)

  /** A fileLease object; `done` is closed exactly when `closed` is true. */
  datatype Lease = Lease(id: FileId, refs: nat, closed: bool)

  datatype Loc = InCreator(a: ActorId) | InBacklog | InQueue | InTimer(t: ActorId) | InWorker(w: ActorId)

  /** Observations about the past.  No step's guard reads them. */
  datatype History = History(
    used: set<FileId>,               // IDs ever drawn
    added: set<FileId>,              // IDs whose row was ever inserted
    settled: set<FileId>,            // IDs whose status was ever set to processed or failed
    processed: set<FileId>,          // IDs whose status was ever set to processed
    torn: set<FileId>,               // IDs for which a RemoveAll failed half way
    acked: set<FileId>,              // IDs for which a Delete call returned true
    leftover: set<Path>,             // directories a failed cleanup of Create left behind
    stranded: set<FileId>,           // this process: markFailed or fileActive met a store error
    owner: map<FileId, Loc>,         // this process: where the job of the ID was last seen
    calls: map<FileId, nat>,         // this process: how often Convert was called
    delay: map<FileId, nat>)         // this process: seconds of scheduled retry delay

  datatype World = World(
    rows: Table, disk: Disk, now: int,
    phase: Phase, stopping: bool, closed: bool,
    queue: seq<FileId>, timers: map<ActorId, FileId>, retry: map<FileId, nat>,
    conversions: map<FileId, Token>, states: map<Token, Conversion>,
    leases: map<FileId, Token>, leaseObjs: map<Token, Lease>,
    deleting: map<FileId, ActorId>,
    creators: map<ActorId, Creator>, workers: map<ActorId, Worker>,
    readers: map<ActorId, Reader>, deleters: map<ActorId, Deleter>,
    next: Token, hist: History)

  const MAX_RETRIES: nat := 3

  function At<K, V>(m: map<K, V>, k: K, default: V): V {
    if k in m then m[k] else default
  }

  function Pow2(n: nat): nat {
    if n == 0 then 1 else 2 * Pow2(n - 1)
  }

  // ---------- classification of stages ----------

  /** The fileLifecycle object of the job is the entry of `conversions`. */
  predicate Registered(s: WorkStage) {
    s.Lookup? || s.Claim? || s.Start? || s.Converting? || s.Publish? || s.Reject? || s.Unregister?
  }

  /** `done` of the job's fileLifecycle object is still to be closed by this worker. */
  predicate OwesSignal(s: WorkStage) {
    Registered(s) || s.Signal?
  }

  /** The status was claimed and `Convert` may be working on the directory. */
  predicate Touching(s: WorkStage) {
    s.Start? || s.Converting?
  }

  /** The worker may still read or write files named by the record it looked up. */
  predicate HoldsRecord(s: WorkStage) {
    s.Claim? || s.Start? || s.Converting? || s.Publish?
  }

  /** The job can still change the status of its file. */
  predicate Unsettled(s: WorkStage) {
    !(s.Forget? || (s.Unregister? && s.out.Finished?) || (s.Signal? && s.out.Finished?) || (s.Handle? && s.out.Finished?))
  }

  predicate HoldsLease(r: Reader) {
    r.stage.Leased? || r.stage.Reading?
  }

  function LeaseOf(r: Reader): Token
    requires HoldsLease(r)
  {
    if r.stage.Leased? then r.stage.token else r.stage.lease
  }

  /** Between beginDeletion and endDeletion. */
  predicate Claimed(s: DeleteStage) {
    !s.Snapshot?
  }

  /** The row is marked, or was already marked when the snapshot was taken. */
  predicate PastMark(s: DeleteStage) {
    !(s.Snapshot? || s.Mark? || s.Abandon?)
  }

  /** waitForConversion has returned. */
  predicate PastConversion(s: DeleteStage) {
    s.FindLease? || s.CheckLease? || s.AwaitLease? || PastLease(s)
  }

  /** waitForLease has returned. */
  predicate PastLease(s: DeleteStage) {
    s.RemoveDir? || s.RemoveRow? || s.End?
  }
}
