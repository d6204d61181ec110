/** What a Delete call answers: true exactly if this call removed the row. */
module Answers {
  import opened Rows
  import opened World
  import Actions
  import opened Protocol
  import opened Frames
  import opened Safety
  import opened Deletion

  /** In step `s` deleter `d` removes the row of `id`. */
  predicate RemovesRow(w: World, s: Step, w': World, d: ActorId, id: FileId) {
    && s == Erase(DeleteRow(d, false)) && d in w.deleters && w.deleters[d].id == id
    && id in w.rows && id !in w'.rows
  }

  /** Deleter `d`, with its record and its result, waits to leave. */
  predicate IsEnding(w: World, d: ActorId, x: Deleter) {
    d in w.deleters && w.deleters[d] == x && x.stage.End?
  }

  // ---------- a result stays ----------

  lemma DeleteLeavesResults(w: World, s: DeleteStep, w': World, d: ActorId, x: Deleter)
    requires IsEnding(w, d, x) && DeleteNext(w, s, w') && s != DeleteStep.End(d)
    ensures IsEnding(w', d, x)
  {}

  lemma WaitLeavesResults(w: World, s: WaitStep, w': World, d: ActorId, x: Deleter)
    requires IsEnding(w, d, x) && WaitNext(w, s, w')
    ensures IsEnding(w', d, x)
  {}

  lemma EraseLeavesResults(w: World, s: EraseStep, w': World, d: ActorId, x: Deleter)
    requires IsEnding(w, d, x) && EraseNext(w, s, w')
    ensures IsEnding(w', d, x)
  {}

  lemma StepLeavesResults(w: World, s: Step, w': World, d: ActorId, x: Deleter)
    requires IsEnding(w, d, x) && Next(w, s, w') && s != Delete(DeleteStep.End(d)) && s != System(Crash)
    ensures IsEnding(w', d, x)
  {
    hide SystemNext, CreateNext, RecordNext, WorkNext, ConvertNext, RetryNext, BackoffNext, ReadNext,
      DeleteNext, WaitNext, EraseNext;
    match s
    case System(y) => SystemFrame(w, y, w');
    case Create(y) => CreateFrame(w, y, w');
    case Record(y) => RecordFrame(w, y, w');
    case Work(y) => WorkFrame(w, y, w');
    case Convert(y) => ConvertFrame(w, y, w');
    case Retry(y) => RetryFrame(w, y, w');
    case Backoff(y) => BackoffFrame(w, y, w');
    case Read(y) => ReadFrame(w, y, w');
    case Delete(y) => DeleteLeavesResults(w, y, w', d, x);
    case Wait(y) => WaitLeavesResults(w, y, w', d, x);
    case Erase(y) => EraseLeavesResults(w, y, w', d, x);
  }

  // ---------- where a result comes from ----------

  /** A result of true is given by the step that removes the row, and by no other. */
  ghost predicate CameByRemoval(w: World, s: Step, w': World, d: ActorId, x: Deleter) {
    IsEnding(w', d, x) && x.stage == DeleteStage.End(true) ==> IsEnding(w, d, x) || RemovesRow(w, s, w', d, x.id)
  }

  lemma DeleteGivesNoResult(w: World, s: DeleteStep, w': World, d: ActorId, x: Deleter)
    requires DeleteNext(w, s, w')
    ensures CameByRemoval(w, Delete(s), w', d, x)
  {}

  lemma WaitGivesNoResult(w: World, s: WaitStep, w': World, d: ActorId, x: Deleter)
    requires WaitNext(w, s, w')
    ensures CameByRemoval(w, Wait(s), w', d, x)
  {}

  lemma EraseGivesResult(w: World, s: EraseStep, w': World, d: ActorId, x: Deleter)
    requires EraseNext(w, s, w')
    ensures CameByRemoval(w, Erase(s), w', d, x)
  {}

  lemma NothingGivesNoResult(w: World, s: Step, w': World, d: ActorId, x: Deleter)
    requires w'.deleters == w.deleters || w'.deleters == map[]
    ensures CameByRemoval(w, s, w', d, x)
  {}

  lemma StepGivesResult(w: World, s: Step, w': World, d: ActorId, x: Deleter)
    requires Next(w, s, w')
    ensures CameByRemoval(w, s, w', d, x)
  {
    hide SystemNext, CreateNext, RecordNext, WorkNext, ConvertNext, RetryNext, BackoffNext, ReadNext,
      DeleteNext, WaitNext, EraseNext, CameByRemoval;
    match s
    case System(y) => SystemFrame(w, y, w'); NothingGivesNoResult(w, s, w', d, x);
    case Create(y) => CreateFrame(w, y, w'); NothingGivesNoResult(w, s, w', d, x);
    case Record(y) => RecordFrame(w, y, w'); NothingGivesNoResult(w, s, w', d, x);
    case Work(y) => WorkFrame(w, y, w'); NothingGivesNoResult(w, s, w', d, x);
    case Convert(y) => ConvertFrame(w, y, w'); NothingGivesNoResult(w, s, w', d, x);
    case Retry(y) => RetryFrame(w, y, w'); NothingGivesNoResult(w, s, w', d, x);
    case Backoff(y) => BackoffFrame(w, y, w'); NothingGivesNoResult(w, s, w', d, x);
    case Read(y) => ReadFrame(w, y, w'); NothingGivesNoResult(w, s, w', d, x);
    case Delete(y) => DeleteGivesNoResult(w, y, w', d, x);
    case Wait(y) => WaitGivesNoResult(w, y, w', d, x);
    case Erase(y) => EraseGivesResult(w, y, w', d, x);
  }

  // ---------- over runs ----------

  lemma RemovalGivesTrue(w: World, s: Step, w': World, d: ActorId, id: FileId)
    requires Next(w, s, w') && RemovesRow(w, s, w', d, id)
    ensures IsEnding(w', d, w.deleters[d].(stage := DeleteStage.End(true)))
  {}

  lemma {:induction false} ResultStays(ws: seq<World>, ss: seq<Step>, i: nat, j: nat, d: ActorId, x: Deleter)
    requires IsRun(ws, ss) && i <= j < |ws| && IsEnding(ws[i], d, x)
    requires forall k | i <= k < j :: ss[k] != Delete(DeleteStep.End(d)) && ss[k] != System(Crash)
    ensures IsEnding(ws[j], d, x)
    decreases j
  {
    hide Next, IsEnding;
    if i < j {
      ResultStays(ws, ss, i, j - 1, d, x);
      assert StepAt(ws, ss, j - 1);
      StepLeavesResults(ws[j - 1], ss[j - 1], ws[j], d, x);
    }
  }

  lemma EndAcks(w: World, d: ActorId, w': World, x: Deleter)
    requires Next(w, Delete(DeleteStep.End(d)), w') && IsEnding(w, d, x) && x.stage == DeleteStage.End(true) && x.api
    ensures Acks(w, Delete(DeleteStep.End(d)), x.id) && x.id in w'.hist.acked
  {}

  /** A Delete call that removes the row returns true when it ends, unless the process ends
      first. */
  lemma RemovalIsAcknowledged(ws: seq<World>, ss: seq<Step>, i: nat, j: nat, d: ActorId, id: FileId)
    requires IsRun(ws, ss) && i < j < |ss|
    requires RemovesRow(ws[i], ss[i], ws[i + 1], d, id) && ws[i].deleters[d].api
    requires ss[j] == Delete(DeleteStep.End(d))
    requires forall k | i < k < j :: ss[k] != Delete(DeleteStep.End(d)) && ss[k] != System(Crash)
    ensures Acks(ws[j], ss[j], id) && id in ws[j + 1].hist.acked
  {
    hide Next, Acks;
    var x := ws[i].deleters[d].(stage := DeleteStage.End(true));
    assert StepAt(ws, ss, i) && StepAt(ws, ss, j);
    RemovalGivesTrue(ws[i], ss[i], ws[i + 1], d, id);
    ResultStays(ws, ss, i + 1, j, d, x);
    EndAcks(ws[j], d, ws[j + 1], x);
  }

  lemma {:induction false} WhoRemoved(ws: seq<World>, ss: seq<Step>, j: nat, d: ActorId, x: Deleter) returns (i: nat)
    requires IsRun(ws, ss) && j < |ws| && IsEnding(ws[j], d, x) && x.stage == DeleteStage.End(true)
    ensures i < j && RemovesRow(ws[i], ss[i], ws[i + 1], d, x.id)
    ensures forall k | i < k <= j :: IsEnding(ws[k], d, x)
    decreases j
  {
    hide Next, RemovesRow;
    assert j > 0;
    assert StepAt(ws, ss, j - 1);
    StepGivesResult(ws[j - 1], ss[j - 1], ws[j], d, x);
    i := j - 1;
    if IsEnding(ws[j - 1], d, x) {
      i := WhoRemoved(ws, ss, j - 1, d, x);
    }
  }

  lemma AckerIsEnding(w: World, s: Step, id: FileId) returns (d: ActorId, x: Deleter)
    requires Acks(w, s, id)
    ensures s == Delete(DeleteStep.End(d)) && IsEnding(w, d, x) && x.id == id && x.api && x.stage == DeleteStage.End(true)
  {
    d := s.delete.x;
    x := w.deleters[d];
  }

  /** And it returns true only if it removed the row: the same call, in an earlier step of the
      same process. */
  lemma AcknowledgedMeansRemoved(ws: seq<World>, ss: seq<Step>, j: nat, id: FileId) returns (i: nat, d: ActorId)
    requires IsRun(ws, ss) && j < |ss| && Acks(ws[j], ss[j], id)
    ensures ss[j] == Delete(DeleteStep.End(d))
    ensures i < j && RemovesRow(ws[i], ss[i], ws[i + 1], d, id)
    ensures forall k | i < k <= j :: d in ws[k].deleters && ws[k].deleters[d].id == id && ws[k].deleters[d].api
  {
    hide Next, RemovesRow, Acks;
    var x;
    d, x := AckerIsEnding(ws[j], ss[j], id);
    i := WhoRemoved(ws, ss, j, d, x);
  }
}
