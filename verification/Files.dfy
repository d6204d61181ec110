/** Main results about directories: when one may go, what a reader may rely on, what a
    crash leaves behind. */
module Files {
  import opened Rows
  import opened World
  import opened Protocol
  import opened Invariant
  import opened Frames
  import opened Safety

  // ---------- nothing is removed under a reader or a conversion ----------

  /** No reader holds a lease on `id` and no Convert of `id` is running. */
  ghost predicate Idle(w: World, id: FileId) {
    && (forall r | r in w.readers && w.readers[r].id == id :: !HoldsLease(w.readers[r]))
    && (forall a | a in w.workers && w.workers[a].Job? && w.workers[a].id == id :: !w.workers[a].stage.Converting?)
  }

  /** The one other way a directory changes: the Convert of its file writes artifacts or
      the manifest, while nobody reads a manifest of the file. */
  ghost predicate ConvertAtWork(w: World, p: Path, w': World) {
    && p in w.disk && p in w'.disk && w'.disk[p].source == w.disk[p].source
    && (exists a :: a in w.workers && w.workers[a].Job? && w.workers[a].stage.Converting? && w.workers[a].dir == p)
    && (forall r | r in w.readers && w.readers[r].id == p.id :: !w.readers[r].manifest)
  }

  ghost predicate Changes(w: World, p: Path, w': World) {
    p in w.disk && (p !in w'.disk || w'.disk[p] != w.disk[p])
  }

  lemma ReconcileChanges(w: World, s: SystemStep, w': World, p: Path)
    requires QuietOk(w) && SystemNext(w, s, w') && Changes(w, p, w')
    ensures Idle(w, p.id)
  {}

  lemma CreateChanges(w: World, s: CreateStep, w': World, p: Path)
    requires RowsOk(w) && DiskOk(w) && CreatorOk(w) && WorkerOk(w) && ReaderOk(w)
    requires CreateNext(w, s, w') && Changes(w, p, w')
    ensures Idle(w, p.id)
  {}

  lemma ConvertChanges(w: World, s: ConvertStep, w': World, p: Path)
    requires RowsOk(w) && WorkerOk(w) && ReaderOk(w) && ConvertNext(w, s, w') && Changes(w, p, w')
    ensures ConvertAtWork(w, p, w')
  {
    assert w.workers[s.a].Job? && w.workers[s.a].dir == p;
  }

  lemma EraseChanges(w: World, s: EraseStep, w': World, p: Path)
    requires DeleterOk(w) && AwaitConversionOk(w) && AwaitLeaseOk(w) && EraseNext(w, s, w') && Changes(w, p, w')
    ensures Idle(w, p.id)
  {
    assert PastLease(w.deleters[s.x].stage);
  }

  lemma DirectoryChanges(w: World, s: Step, w': World, p: Path)
    requires Inv(w) && Next(w, s, w') && Changes(w, p, w')
    ensures Idle(w, p.id) || ConvertAtWork(w, p, w')
  {
    hide LeakInv, RowsInv, DiskInv, WorkDiskInv, ConversionInv, LeaseInv, ReaderInv, MarkerInv, DeleterInv,
      AwaitConversionInv,
      AwaitLeaseInv, PendingInv, StrandInv, CreatorInv, WorkerInv, BacklogInv, QueueInv, TimerInv, RetryInv, ForgetInv,
      Idle, ConvertAtWork,
      SystemNext, CreateNext, RecordNext, WorkNext, ConvertNext, RetryNext, BackoffNext, ReadNext, DeleteNext, WaitNext,
      EraseNext;
    match s
    case System(x) => ReconcileChanges(w, x, w', p);
    case Create(x) => CreateChanges(w, x, w', p);
    case Record(x) => RecordFrame(w, x, w');
    case Work(x) => WorkFrame(w, x, w');
    case Convert(x) => ConvertChanges(w, x, w', p);
    case Retry(x) => RetryFrame(w, x, w');
    case Backoff(x) => BackoffFrame(w, x, w');
    case Read(x) => ReadFrame(w, x, w');
    case Delete(x) => DeleteFrame(w, x, w');
    case Wait(x) => WaitFrame(w, x, w');
    case Erase(x) => EraseChanges(w, x, w', p);
  }

  /** In every run: when a step removes a directory, its source or anything else in it,
      no reader holds a lease on the file and no conversion of it is running, unless the
      step is that conversion's own write. */
  lemma RemovalIsSafe(ws: seq<World>, ss: seq<Step>, i: nat, p: Path)
    requires IsRun(ws, ss) && i < |ss| && Changes(ws[i], p, ws[i + 1])
    ensures Idle(ws[i], p.id) || ConvertAtWork(ws[i], p, ws[i + 1])
    ensures p !in ws[i + 1].disk ==> Idle(ws[i], p.id)
  {
    hide Inv, Next, Idle;
    RunKeepsInv(ws, ss, i);
    assert StepAt(ws, ss, i);
    DirectoryChanges(ws[i], ss[i], ws[i + 1], p);
  }

  // ---------- readers ----------

  ghost predicate Reads(w: World, r: ActorId) {
    r in w.readers && w.readers[r].stage.Reading?
  }

  lemma ReadKeepsReading(w: World, s: ReadStep, w': World, r: ActorId)
    requires ReadNext(w, s, w') && Reads(w, r) && Reads(w', r)
    ensures w'.readers[r] == w.readers[r]
  {}

  lemma ReadingGoesOn(w: World, s: Step, w': World, r: ActorId)
    requires Inv(w) && Next(w, s, w') && Reads(w, r) && Reads(w', r)
    ensures w'.readers[r] == w.readers[r]
  {
    hide Inv, SystemNext, CreateNext, RecordNext, WorkNext, ConvertNext, RetryNext, BackoffNext, ReadNext,
      DeleteNext, WaitNext, EraseNext;
    match s
    case System(x) => SystemFrame(w, x, w');
    case Create(x) => CreateFrame(w, x, w');
    case Record(x) => RecordFrame(w, x, w');
    case Work(x) => WorkFrame(w, x, w');
    case Convert(x) => ConvertFrame(w, x, w');
    case Retry(x) => RetryFrame(w, x, w');
    case Backoff(x) => BackoffFrame(w, x, w');
    case Read(x) => ReadKeepsReading(w, x, w', r);
    case Delete(x) => DeleteFrame(w, x, w');
    case Wait(x) => WaitFrame(w, x, w');
    case Erase(x) => EraseFrame(w, x, w');
  }

  /** What reader `r` sees: for Resolve the whole directory, for OpenSource the source. */
  ghost predicate SameView(w: World, w': World, d: Reader) {
    && d.record.dir in w.disk && d.record.dir in w'.disk
    && (d.manifest ==> w'.disk[d.record.dir] == w.disk[d.record.dir])
    && w'.disk[d.record.dir].source == w.disk[d.record.dir].source
  }

  lemma ReaderFacts(w: World, r: ActorId)
    requires Inv(w) && Reads(w, r)
    ensures var d := w.readers[r];
      && d.record.dir.id == d.id && d.record.dir in w.disk && HoldsLease(d)
      && (if d.manifest then w.disk[d.record.dir].manifest == Some(d.stage.named) else w.disk[d.record.dir].source)
      && (d.manifest && d.id !in w.hist.torn ==> d.stage.named <= w.disk[d.record.dir].parts)
  {
    hide LeakInv, WorkDiskInv, ConversionInv, LeaseInv, MarkerInv, DeleterInv, AwaitConversionInv,
      AwaitLeaseInv, PendingInv, StrandInv, CreatorInv, WorkerInv, BacklogInv, QueueInv, TimerInv, RetryInv, ForgetInv;
  }

  lemma ViewIsStable(w: World, s: Step, w': World, r: ActorId)
    requires Inv(w) && Inv(w') && Next(w, s, w') && Reads(w, r) && Reads(w', r)
    ensures w'.readers[r] == w.readers[r] && SameView(w, w', w.readers[r])
  {
    hide Inv, Next;
    ReadingGoesOn(w, s, w', r);
    ReaderFacts(w, r);
    ReaderFacts(w', r);
    var p := w.readers[r].record.dir;
    if Changes(w, p, w') {
      DirectoryChanges(w, s, w', p);
    }
  }

  /** Once Resolve has read the manifest, or OpenSource has opened the file, what was there
      stays there, in every run, until the reader releases its lease. */
  lemma {:induction false} ReadsAreStable(ws: seq<World>, ss: seq<Step>, i: nat, j: nat, r: ActorId)
    requires IsRun(ws, ss) && i <= j < |ws|
    requires Reads(ws[i], r) && Reads(ws[j], r) && forall k | i <= k <= j :: Reads(ws[k], r)
    ensures ws[j].readers[r] == ws[i].readers[r] && SameView(ws[i], ws[j], ws[i].readers[r])
    decreases j - i
  {
    hide Inv, Next;
    RunKeepsInv(ws, ss, i);
    ReaderFacts(ws[i], r);
    if i < j {
      ReadsAreStable(ws, ss, i, j - 1, r);
      RunKeepsInv(ws, ss, j - 1);
      RunKeepsInv(ws, ss, j);
      assert Reads(ws[j - 1], r) && Reads(ws[j], r) && StepAt(ws, ss, j - 1);
      ViewIsStable(ws[j - 1], ss[j - 1], ws[j], r);
    }
  }

  /** A reader of a manifest finds every artifact the manifest names, unless a RemoveAll of
      this file failed half way before. */
  lemma ReadersFindEverything(ws: seq<World>, ss: seq<Step>, i: nat, r: ActorId)
    requires IsRun(ws, ss) && i < |ws| && Reads(ws[i], r)
    ensures var d := ws[i].readers[r];
      && d.record.dir in ws[i].disk
      && (!d.manifest ==> ws[i].disk[d.record.dir].source)
      && (d.manifest ==> ws[i].disk[d.record.dir].manifest == Some(d.stage.named))
      && (d.manifest && d.id !in ws[i].hist.torn ==> d.stage.named <= ws[i].disk[d.record.dir].parts)
  {
    hide Inv, Next;
    RunKeepsInv(ws, ss, i);
    ReaderFacts(ws[i], r);
  }

  // ---------- crashes ----------

  /** What the database and the data directory look like at any moment, so also after a
      crash at that moment. */
  ghost predicate Consistent(rows: Table, disk: Disk) {
    forall id | id in rows ::
      && rows[id].dir.id == id
      && (rows[id].deletedAt.None? ==> rows[id].dir in disk && disk[rows[id].dir].source)
      && (rows[id].deletedAt.None? && rows[id].status == Processed ==> Complete(disk[rows[id].dir]))
  }

  /** Crash consistency: with a crash allowed between any two steps and any number of
      restarts, every row that is not marked has its source, and a processed one has a
      manifest whose parts all exist. */
  lemma AlwaysConsistent(ws: seq<World>, ss: seq<Step>, i: nat)
    requires IsRun(ws, ss) && i < |ws|
    ensures Consistent(ws[i].rows, ws[i].disk)
  {
    RunKeepsInv(ws, ss, i);
    hide LeakInv, WorkDiskInv, ConversionInv, LeaseInv, ReaderInv, MarkerInv, DeleterInv, AwaitConversionInv,
      AwaitLeaseInv, PendingInv, StrandInv, CreatorInv, WorkerInv, BacklogInv, QueueInv, TimerInv, RetryInv, ForgetInv;
  }

  /** While the service runs no directory is forgotten: it belongs to a row, to a creation
      under way, or its removal by a failed creation failed too. */
  lemma NoForgottenDirectory(ws: seq<World>, ss: seq<Step>, i: nat, p: Path)
    requires IsRun(ws, ss) && i < |ws| && ws[i].phase.Running? && p in ws[i].disk
    ensures (p.id in ws[i].rows && ws[i].rows[p.id].dir == p)
         || p in ws[i].hist.leftover
         || exists a :: a in ws[i].creators && ws[i].creators[a].dir == p
  {
    RunKeepsInv(ws, ss, i);
    hide WorkDiskInv, ConversionInv, LeaseInv, ReaderInv, MarkerInv, DeleterInv, AwaitConversionInv,
      AwaitLeaseInv, PendingInv, StrandInv, CreatorInv, WorkerInv, BacklogInv, QueueInv, TimerInv, RetryInv, ForgetInv,
      RowsInv;
  }
}
