/** What holds in every run of the file service: any number of uploads, reads, deletions,
    conversions and retries, interleaved in any order, with crashes and restarts between
    any two steps. */
module Safety {
  import opened World
  import Actions
  import opened Protocol
  import opened Invariant
  import KeepSystem
  import KeepCreate
  import KeepRecord
  import KeepWork
  import KeepConvert
  import KeepRetry
  import KeepBackoff
  import KeepRead
  import KeepDelete
  import KeepWait
  import KeepErase

  // ---------- runs ----------

  ghost predicate StepAt(ws: seq<World>, ss: seq<Step>, i: int)
    requires |ws| == |ss| + 1 && 0 <= i < |ss|
  {
    Next(ws[i], ss[i], ws[i + 1])
  }

  ghost predicate IsPath(ws: seq<World>, ss: seq<Step>) {
    |ws| == |ss| + 1 && forall i | 0 <= i < |ss| :: StepAt(ws, ss, i)
  }

  /** A run starts with an empty database, an empty data directory and no process. */
  ghost predicate IsRun(ws: seq<World>, ss: seq<Step>) {
    IsPath(ws, ss) && ws[0] == Actions.INITIAL
  }

  lemma InitialInv()
    ensures Inv(Actions.INITIAL)
  {
    KeepSystem.CrashKeeps(Actions.INITIAL);
  }

  lemma NextKeepsInv(w: World, s: Step, w': World)
    requires Inv(w) && Next(w, s, w')
    ensures Inv(w')
  {
    hide Inv, SystemNext, CreateNext, RecordNext, WorkNext, ConvertNext, RetryNext, BackoffNext, ReadNext,
      DeleteNext, WaitNext, EraseNext;
    match s
    case System(x) => KeepSystem.SystemKeepsInv(w, x, w');
    case Create(x) => KeepCreate.CreateKeepsInv(w, x, w');
    case Record(x) => KeepRecord.RecordKeepsInv(w, x, w');
    case Work(x) => KeepWork.WorkKeepsInv(w, x, w');
    case Convert(x) => KeepConvert.ConvertKeepsInv(w, x, w');
    case Retry(x) => KeepRetry.RetryKeepsInv(w, x, w');
    case Backoff(x) => KeepBackoff.BackoffKeepsInv(w, x, w');
    case Read(x) => KeepRead.ReadKeepsInv(w, x, w');
    case Delete(x) => KeepDelete.DeleteKeepsInv(w, x, w');
    case Wait(x) => KeepWait.WaitKeepsInv(w, x, w');
    case Erase(x) => KeepErase.EraseKeepsInv(w, x, w');
  }

  lemma {:induction false} RunKeepsInv(ws: seq<World>, ss: seq<Step>, i: nat)
    requires IsRun(ws, ss) && i < |ws|
    ensures Inv(ws[i])
  {
    hide Inv, Next;
    if i == 0 {
      InitialInv();
    } else {
      RunKeepsInv(ws, ss, i - 1);
      assert StepAt(ws, ss, i - 1);
      NextKeepsInv(ws[i - 1], ss[i - 1], ws[i]);
    }
  }

  lemma {:induction false} PathsJoin(us: seq<World>, qs: seq<Step>, vs: seq<World>, ts: seq<Step>)
    requires IsPath(us, qs) && IsPath(vs, ts) && us[|qs|] == vs[0]
    ensures IsPath(us + vs[1..], qs + ts) && (us + vs[1..])[|qs + ts|] == vs[|ts|]
  {
    hide Next;
    var ws, ss := us + vs[1..], qs + ts;
    forall i | 0 <= i < |ss| ensures StepAt(ws, ss, i) {
      if i < |qs| {
        assert StepAt(us, qs, i);
      } else {
        assert StepAt(vs, ts, i - |qs|);
      }
    }
  }
}
