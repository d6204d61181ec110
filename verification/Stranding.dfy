/** A run in which a store error leaves a visible file waiting: it is uploaded, nothing holds
    a job of it, and the service is up. */
module Stranding {
  import opened Rows
  import opened World
  import Actions
  import opened Protocol
  import opened Safety
  import Jobs

  const ID: FileId := 7
  const DIR: Path := Path("t", ID)
  const UPLOAD: Row := Row("t", "batch", Uploaded, DIR, None, None, 0, 0, None)
  const WRITTEN: Dir := Dir(true, None, {})

  /** The service runs with one worker, and `ID` was drawn. */
  function Base(owner: Loc): World {
    Actions.INITIAL.(phase := Running([]), workers := map[0 := Idle],
                     hist := Actions.NO_HISTORY.(used := {ID}, owner := map[ID := owner]))
  }

  function Stored(owner: Loc): World {
    var w := Base(owner);
    w.(rows := map[ID := UPLOAD], disk := map[DIR := WRITTEN], hist := w.hist.(added := {ID}))
  }

  /** The worker is at `stage` of the job, its conversion is `active`. */
  function Working(stage: WorkStage, registered: bool, active: bool): World {
    Stored(InWorker(0)).(
      workers := map[0 := Job(ID, 0, Path("", ID), stage)], next := 1,
      states := map[0 := Conversion(ID, 0, active)], conversions := if registered then map[ID := 0] else map[])
  }

  function Stranded(w: World): World {
    w.(hist := w.hist.(stranded := {ID}))
  }

  function Booted(): World {
    Actions.INITIAL.(phase := Reconciling)
  }

  function Up(): World {
    Actions.INITIAL.(phase := Running([]), workers := map[0 := Idle])
  }

  function Creating(stage: CreateStage): World {
    Base(InCreator(0)).(disk := map[DIR := if stage.Made? then EMPTY_DIR else WRITTEN],
                        creators := map[0 := Creator(ID, DIR, stage)])
  }

  function Submitting(): World {
    Stored(InCreator(0)).(creators := map[0 := Creator(ID, DIR, CreateStage.Submit)])
  }

  function Queued(): World {
    Stored(InQueue).(queue := [ID])
  }

  function Taken(): World {
    Stored(InWorker(0)).(workers := map[0 := Job(ID, 0, Path("", ID), WorkStage.Begin)])
  }

  /** The worker is idle again, and the file has not moved on. */
  function Left(): World {
    Stranded(Working(WorkStage.Forget, false, false)).(workers := map[0 := Idle])
  }

  function Worlds(): seq<World> {
    [Actions.INITIAL, Booted(), Up(), Creating(Made), Creating(Written), Submitting(), Queued(), Taken(),
     Working(WorkStage.Lookup, true, true),
     Working(WorkStage.Unregister(Retryable), true, true),
     Working(WorkStage.Signal(Retryable), false, true),
     Working(WorkStage.Handle(Retryable), false, false),
     Working(WorkStage.Inspect(0), false, false),
     Stranded(Working(WorkStage.Forget, false, false)),
     Left()]
  }

  function Steps(): seq<Step> {
    [System(Boot(false)), System(Run([], {0})),
     Create(CreateDir(0, ID, "t")), Create(WriteSource(0, false)),
     Record(AddRow(0, UPLOAD, false)), Record(RecordStep.Submit(0, false)),
     Work(Take(0)), Work(WorkStep.Begin(0)), Work(WorkStep.Lookup(0, true)),
     Convert(ConvertStep.Unregister(0)), Convert(ConvertStep.Signal(0)),
     Retry(RetryStep.Handle(0)), Retry(RetryStep.Inspect(0, true)), Backoff(BackoffStep.Forget(0))]
  }

  lemma Boots()
    ensures SystemNext(Actions.INITIAL, Boot(false), Booted())
  {}

  lemma Runs()
    ensures SystemNext(Booted(), Run([], {0}), Up())
  {}

  lemma MakesDirectory()
    ensures CreateNext(Up(), CreateDir(0, ID, "t"), Creating(Made))
  {}

  lemma WritesSource()
    ensures CreateNext(Creating(Made), WriteSource(0, false), Creating(Written))
  {}

  lemma AddsRow()
    ensures RecordNext(Creating(Written), AddRow(0, UPLOAD, false), Submitting())
  {}

  lemma Submits()
    ensures RecordNext(Submitting(), RecordStep.Submit(0, false), Queued())
  {}

  lemma Takes()
    ensures WorkNext(Queued(), Take(0), Taken())
  {}

  lemma Registers()
    ensures WorkNext(Taken(), WorkStep.Begin(0), Working(WorkStage.Lookup, true, true))
  {}

  lemma FailsToLookUp()
    ensures WorkNext(Working(WorkStage.Lookup, true, true), WorkStep.Lookup(0, true),
                     Working(WorkStage.Unregister(Retryable), true, true))
  {}

  lemma Unregisters()
    ensures ConvertNext(Working(WorkStage.Unregister(Retryable), true, true), ConvertStep.Unregister(0),
                        Working(WorkStage.Signal(Retryable), false, true))
  {}

  lemma Signals()
    ensures ConvertNext(Working(WorkStage.Signal(Retryable), false, true), ConvertStep.Signal(0),
                        Working(WorkStage.Handle(Retryable), false, false))
  {}

  lemma Handles()
    ensures RetryNext(Working(WorkStage.Handle(Retryable), false, false), RetryStep.Handle(0),
                      Working(WorkStage.Inspect(0), false, false))
  {}

  lemma FailsToInspect()
    ensures RetryNext(Working(WorkStage.Inspect(0), false, false), RetryStep.Inspect(0, true),
                      Stranded(Working(WorkStage.Forget, false, false)))
  {}

  lemma Forgets()
    ensures BackoffNext(Stranded(Working(WorkStage.Forget, false, false)), BackoffStep.Forget(0), Left())
  {}

  lemma IsARun()
    ensures IsRun(Worlds(), Steps())
  {
    Boots();
    Runs();
    MakesDirectory();
    WritesSource();
    AddsRow();
    Submits();
    Takes();
    Registers();
    FailsToLookUp();
    Unregisters();
    Signals();
    Handles();
    FailsToInspect();
    Forgets();
    hide Booted, Up, Creating, Submitting, Queued, Taken, Working, Stranded, Left, SystemNext, CreateNext, RecordNext,
      WorkNext, ConvertNext, RetryNext, BackoffNext;
    assert forall i | 0 <= i < |Steps()| :: StepAt(Worlds(), Steps(), i);
  }

  lemma NothingIsLeft()
    ensures var w := Left();
      && w.phase.Running? && !w.stopping
      && ID in w.rows && Visible(w.rows[ID], w.now) && w.rows[ID].status == Uploaded
      && forall l :: !Jobs.JobSits(w, ID, l)
  {}

  /** The lookup of the record fails, which is worth a retry, and so does the one in
      fileActive, which ends the job: the file stays uploaded and no place holds a job of it. */
  lemma StoreErrorsStrand() returns (ws: seq<World>, ss: seq<Step>)
    ensures IsRun(ws, ss)
    ensures var w := ws[|ws| - 1];
      && w.phase.Running? && !w.stopping
      && ID in w.rows && Visible(w.rows[ID], w.now) && w.rows[ID].status == Uploaded
      && forall l :: !Jobs.JobSits(w, ID, l)
  {
    hide IsRun, Booted, Up, Creating, Submitting, Queued, Taken, Working, Stranded, Left;
    ws, ss := Worlds(), Steps();
    IsARun();
    NothingIsLeft();
    assert ws[|ws| - 1] == Left();
  }
}
