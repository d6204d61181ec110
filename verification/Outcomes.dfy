/** What each step writes into the table: an independent description of the row after it. */
module Outcomes {
  import opened Rows
  import opened World
  import Actions
  import opened Protocol
  import opened Invariant
  import opened Frames
  import opened Safety

  function RowOf(rows: Table, id: FileId): Option<Row> {
    if id in rows then Some(rows[id]) else None
  }

  predicate Holds(w: World, a: ActorId, id: FileId) {
    a in w.workers && w.workers[a].Job? && w.workers[a].id == id
  }

  predicate Deletes(w: World, d: ActorId, id: FileId) {
    d in w.deleters && w.deleters[d].id == id
  }

  /** An empty message is stored as none. */
  function Failure(row: Row, message: string): Row {
    row.(status := Failed, manifestPath := None, errorMessage := if |message| == 0 then None else Some(message))
  }

  /** The row of `id` after a step of a worker that did not fail; nothing is written to a row
      that is marked. */
  function AfterWork(w: World, s: Step, id: FileId): Option<Row> {
    if id !in w.rows || w.rows[id].deletedAt.Some? then RowOf(w.rows, id)
    else
      var row := w.rows[id];
      match s
      case Work(Claim(a, false)) =>
        Some(if Holds(w, a, id) then row.(status := Processing, manifestPath := None, errorMessage := None) else row)
      case Convert(Publish(a, false)) =>
        Some(if Holds(w, a, id) then row.(status := Processed, manifestPath := Some(row.dir), errorMessage := None)
             else row)
      case Convert(Reject(a, message, false)) => Some(if Holds(w, a, id) then Failure(row, message) else row)
      case Retry(GiveUp(a, message, false)) => Some(if Holds(w, a, id) then Failure(row, message) else row)
      case _ => Some(row)
  }

  /** And after a step of a deletion that did not fail, for the tenant of its record only. */
  function AfterDeletion(w: World, s: Step, id: FileId): Option<Row> {
    if id !in w.rows then None
    else
      var row := w.rows[id];
      match s
      case Delete(Mark(d, false)) =>
        Some(if Deletes(w, d, id) && row.tenant == w.deleters[d].record.tenant && row.deletedAt.None?
             then row.(deletedAt := Some(w.now)) else row)
      case Erase(DeleteRow(d, false)) =>
        if Deletes(w, d, id) && row.tenant == w.deleters[d].record.tenant then None else Some(row)
      case _ => Some(row)
  }

  /** The row of `id` after step `s`. */
  function AfterStep(w: World, s: Step, id: FileId): Option<Row> {
    match s
    case System(Boot(true)) => if id in w.rows then Some(w.rows[id].(tenant := "shared")) else None
    case Record(AddRow(a, row, false)) =>
      if id !in w.rows && a in w.creators && w.creators[a].id == id then Some(row) else RowOf(w.rows, id)
    case Work(_) => AfterWork(w, s, id)
    case Convert(_) => AfterWork(w, s, id)
    case Retry(_) => AfterWork(w, s, id)
    case Delete(_) => AfterDeletion(w, s, id)
    case Erase(_) => AfterDeletion(w, s, id)
    case _ => RowOf(w.rows, id)
  }

  lemma SystemWrites(w: World, s: SystemStep, w': World, id: FileId)
    requires SystemNext(w, s, w')
    ensures RowOf(w'.rows, id) == AfterStep(w, System(s), id)
  {}

  lemma RecordWrites(w: World, s: RecordStep, w': World, id: FileId)
    requires RecordNext(w, s, w')
    ensures RowOf(w'.rows, id) == AfterStep(w, Record(s), id)
  {}

  lemma WorkWrites(w: World, s: WorkStep, w': World, id: FileId)
    requires WorkNext(w, s, w')
    ensures RowOf(w'.rows, id) == AfterStep(w, Work(s), id)
  {}

  lemma ConvertWrites(w: World, s: ConvertStep, w': World, id: FileId)
    requires WorkerOk(w) && ConvertNext(w, s, w')
    ensures RowOf(w'.rows, id) == AfterStep(w, Convert(s), id)
  {}

  lemma RetryWrites(w: World, s: RetryStep, w': World, id: FileId)
    requires RetryNext(w, s, w')
    ensures RowOf(w'.rows, id) == AfterStep(w, Retry(s), id)
  {}

  lemma DeleteWrites(w: World, s: DeleteStep, w': World, id: FileId)
    requires DeleteNext(w, s, w')
    ensures RowOf(w'.rows, id) == AfterStep(w, Delete(s), id)
  {}

  lemma EraseWrites(w: World, s: EraseStep, w': World, id: FileId)
    requires EraseNext(w, s, w')
    ensures RowOf(w'.rows, id) == AfterStep(w, Erase(s), id)
  {}

  lemma StepWrites(w: World, s: Step, w': World, id: FileId)
    requires WorkerOk(w) && Next(w, s, w')
    ensures RowOf(w'.rows, id) == AfterStep(w, s, id)
  {
    hide SystemNext, CreateNext, RecordNext, WorkNext, ConvertNext, RetryNext, BackoffNext, ReadNext,
      DeleteNext, WaitNext, EraseNext, WorkerInv, AfterWork, AfterDeletion;
    match s
    case System(x) => SystemWrites(w, x, w', id);
    case Create(x) => CreateFrame(w, x, w');
    case Record(x) => RecordWrites(w, x, w', id);
    case Work(x) => WorkWrites(w, x, w', id);
    case Convert(x) => ConvertWrites(w, x, w', id);
    case Retry(x) => RetryWrites(w, x, w', id);
    case Backoff(x) => BackoffFrame(w, x, w');
    case Read(x) => ReadFrame(w, x, w');
    case Delete(x) => DeleteWrites(w, x, w', id);
    case Wait(x) => WaitFrame(w, x, w');
    case Erase(x) => EraseWrites(w, x, w', id);
  }

  lemma WorkersKnown(ws: seq<World>, ss: seq<Step>, i: nat)
    requires IsRun(ws, ss) && i < |ss|
    ensures WorkerOk(ws[i]) && WorkDiskOk(ws[i])
  {
    hide WorkerInv, WorkDiskInv;
    RunKeepsInv(ws, ss, i);
  }

  /** In every run: a conversion that ends well records the file as processed with its own
      manifest, a failure records it as failed with its message, a claim as processing; a
      mark carries the time; a row goes by the removal of its own deletion and comes by its
      own upload; nothing else changes a row, and a marked row gets no status. */
  lemma EachStepIsRecorded(ws: seq<World>, ss: seq<Step>, i: nat, id: FileId)
    requires IsRun(ws, ss) && i < |ss|
    ensures RowOf(ws[i + 1].rows, id) == AfterStep(ws[i], ss[i], id)
  {
    hide Next, AfterStep, WorkerInv;
    WorkersKnown(ws, ss, i);
    assert StepAt(ws, ss, i);
    StepWrites(ws[i], ss[i], ws[i + 1], id);
  }

  /** The row of a new file: uploaded, without manifest, error or mark, and visible. */
  predicate IsNewRow(row: Row, c: Creator, now: int) {
    && row.status == Uploaded && row.manifestPath == None && row.errorMessage == None && row.deletedAt == None
    && row.tenant == c.dir.tenant && row.dir == c.dir && row.createdAt <= now && row.expiresAt >= 0
  }

  lemma AddedRowIsNew(w: World, a: ActorId, row: Row, w': World)
    requires Actions.AddRow(w, a, row, false, w') && w.creators[a].id !in w.rows
    ensures IsNewRow(row, w.creators[a], w.now)
  {}

  /** A row appears only as that of a new file, whose source is written; and a file that is
      recorded as processed has a complete manifest in its directory. */
  lemma RecordedIsThere(ws: seq<World>, ss: seq<Step>, i: nat, id: FileId)
    requires IsRun(ws, ss) && i < |ss| && id in ws[i + 1].rows
    ensures id !in ws[i].rows ==>
      && ss[i].Record? && ss[i].record.AddRow? && ss[i].record.a in ws[i].creators
      && var c := ws[i].creators[ss[i].record.a];
         c.id == id && IsNewRow(ws[i + 1].rows[id], c, ws[i].now) && c.dir in ws[i].disk && ws[i].disk[c.dir].source
    ensures id in ws[i].rows && ws[i].rows[id].status != Processed && ws[i + 1].rows[id].status == Processed ==>
      && ss[i].Convert? && ss[i].convert.Publish? && Holds(ws[i], ss[i].convert.a, id)
      && var dir := ws[i + 1].rows[id].dir; dir in ws[i].disk && Complete(ws[i].disk[dir])
  {
    hide Next, WorkerInv, WorkDiskInv;
    EachStepIsRecorded(ws, ss, i, id);
    assert StepAt(ws, ss, i);
    if id !in ws[i].rows {
      AddedIsWritten(ws, ss, i, id);
    } else if ws[i].rows[id].status != Processed && ws[i + 1].rows[id].status == Processed {
      PublishedIsComplete(ws, ss, i, id);
    }
  }

  lemma AddStep(w: World, s: Step, w': World)
    requires Next(w, s, w') && s.Record? && s.record.AddRow?
    ensures Actions.AddRow(w, s.record.a, s.record.row, s.record.fail, w')
    ensures s.record.a in w.creators && w.creators[s.record.a].stage == Written
  {}

  lemma CreatorsKnown(ws: seq<World>, ss: seq<Step>, i: nat)
    requires IsRun(ws, ss) && i < |ss|
    ensures CreatorOk(ws[i])
  {
    hide CreatorInv;
    RunKeepsInv(ws, ss, i);
  }

  lemma AddedIsWritten(ws: seq<World>, ss: seq<Step>, i: nat, id: FileId)
    requires IsRun(ws, ss) && i < |ss| && id !in ws[i].rows && id in ws[i + 1].rows
    requires RowOf(ws[i + 1].rows, id) == AfterStep(ws[i], ss[i], id)
    ensures ss[i].Record? && ss[i].record.AddRow? && ss[i].record.a in ws[i].creators
    ensures var c := ws[i].creators[ss[i].record.a];
      c.id == id && IsNewRow(ws[i + 1].rows[id], c, ws[i].now) && c.dir in ws[i].disk && ws[i].disk[c.dir].source
  {
    hide Next, Actions.AddRow;
    assert StepAt(ws, ss, i);
    AddStep(ws[i], ss[i], ws[i + 1]);
    AddedRowIsNew(ws[i], ss[i].record.a, ss[i].record.row, ws[i + 1]);
    CreatorsKnown(ws, ss, i);
  }

  lemma PublishStep(w: World, a: ActorId, fail: bool, w': World)
    requires Next(w, Convert(ConvertStep.Publish(a, fail)), w')
    ensures Actions.Working(w, a, WorkStage.Publish)
  {}

  lemma PublishedIsComplete(ws: seq<World>, ss: seq<Step>, i: nat, id: FileId)
    requires IsRun(ws, ss) && i < |ss| && id in ws[i].rows && id in ws[i + 1].rows
    requires ws[i].rows[id].status != Processed && ws[i + 1].rows[id].status == Processed
    requires RowOf(ws[i + 1].rows, id) == AfterStep(ws[i], ss[i], id)
    ensures ss[i].Convert? && ss[i].convert.Publish? && Holds(ws[i], ss[i].convert.a, id)
    ensures var dir := ws[i + 1].rows[id].dir; dir in ws[i].disk && Complete(ws[i].disk[dir])
  {
    hide Next, Complete;
    IsPublish(ws[i], ss[i], ws[i + 1], id);
    assert StepAt(ws, ss, i);
    PublishStep(ws[i], ss[i].convert.a, ss[i].convert.fail, ws[i + 1]);
    WorkersKnown(ws, ss, i);
  }

  lemma IsPublish(w: World, s: Step, w': World, id: FileId)
    requires id in w.rows && id in w'.rows && w.rows[id].status != Processed && w'.rows[id].status == Processed
    requires RowOf(w'.rows, id) == AfterStep(w, s, id)
    ensures s.Convert? && s.convert.Publish? && !s.convert.fail && Holds(w, s.convert.a, id) && Live(w.rows, id)
    ensures w'.rows[id].dir == w.rows[id].dir
  {}
}
