/** The concurrency limit: a request holds a slot until it has sent its final status or has
    returned, whichever comes first. */
module Slots {

  // ---------- one request ----------

  /** The buffered channel of slots.  A send takes a slot if there is one left; a receive
      frees one and would block on an empty channel. */
  class Limiter {
    const limit: nat
    var occupied: nat

    constructor (limit: nat)
      ensures this.limit == limit && occupied == 0
    {
      this.limit := limit;
      occupied := 0;
    }

    method TryTake() returns (taken: bool)
      modifies this
      ensures taken <==> old(occupied) < limit
      ensures occupied == old(occupied) + if taken then 1 else 0
    {
      taken := occupied < limit;
      if taken {
        occupied := occupied + 1;
      }
    }

    method Free()
      requires occupied > 0
      modifies this
      ensures occupied == old(occupied) - 1
    {
      occupied := occupied - 1;
    }
  }

  /** slotResponseWriter with its release function, which acts once. */
  class SlotWriter {
    const limiter: Limiter
    var released: bool
    var wroteHeader: bool
    var passed: seq<Call>       // what reached the wrapped writer

    /** The release function will not block. */
    ghost predicate Ready()
      reads this, limiter
    {
      !released ==> limiter.occupied > 0
    }

    ghost predicate Valid()
      reads this, limiter
    {
      Ready() && (wroteHeader ==> released)
    }

    constructor (limiter: Limiter)
      requires limiter.occupied > 0
      ensures Valid() && this.limiter == limiter && !released && !wroteHeader && passed == []
    {
      this.limiter := limiter;
      released, wroteHeader, passed := false, false, [];
    }

    method Release()
      requires Ready()
      modifies this`released, limiter
      ensures Valid() && released && limiter.occupied == old(limiter.occupied) - if old(released) then 0 else 1
    {
      if !released {
        released := true;
        limiter.Free();
      }
    }

    method WriteHeader(status: int)
      requires Valid()
      modifies this, limiter
      ensures Valid() && released == (old(released) || status >= 200)
      ensures wroteHeader == (old(wroteHeader) || status >= 200) && passed == old(passed) + [Header(status)]
      ensures limiter.occupied == old(limiter.occupied) - if released && !old(released) then 1 else 0
    {
      passed := passed + [Header(status)];
      if status >= 200 {
        wroteHeader := true;
        Release();
      }
    }

    method Write()
      requires Valid()
      modifies this, limiter
      ensures Valid() && released && wroteHeader
      ensures passed == old(passed) + if old(wroteHeader) then [Body] else [Header(200), Body]
      ensures limiter.occupied == old(limiter.occupied) - if old(released) then 0 else 1
    {
      if !wroteHeader {
        WriteHeader(200);
      }
      passed := passed + [Body];
    }
  }

  datatype Call = Header(status: int) | Body

  /** withConcurrencyLimit around a handler that makes `calls`: alone, a request leaves the
      occupancy as it found it, and it runs exactly if there was a slot. */
  method Serve(limiter: Limiter, calls: seq<Call>) returns (admitted: bool)
    modifies limiter
    ensures admitted <==> old(limiter.occupied) < limiter.limit
    ensures limiter.occupied == old(limiter.occupied)
  {
    admitted := limiter.TryTake();
    if !admitted {
      return;
    }
    var writer := new SlotWriter(limiter);
    var i := 0;
    while i < |calls|
      invariant 0 <= i <= |calls| && writer.Valid() && writer.limiter == limiter
      invariant limiter.occupied == old(limiter.occupied) + if writer.released then 0 else 1
      modifies limiter, writer
    {
      match calls[i] {
        case Header(status) => writer.WriteHeader(status);
        case Body => writer.Write();
      }
      i := i + 1;
    }
    writer.Release();
  }

  // ---------- any number of requests ----------

  type Id = nat

  /** An admitted request: the fields of its writer, whether it has sent a final status and
      whether it has returned, and how many slots it has freed. */
  datatype Request = Request(released: bool, wroteHeader: bool, sentFinal: bool, returned: bool, frees: nat)

  const ADMITTED: Request := Request(false, false, false, false, 0)

  datatype State = State(limit: nat, occupied: nat, requests: map<Id, Request>)

  datatype Step = Arrive(r: Id) | Act(r: Id, call: Call) | Return(r: Id)

  /** The call sends a final status. */
  predicate IsFinal(q: Request, call: Call) {
    if call.Header? then call.status >= 200 else !q.wroteHeader
  }

  function Cost(q: Request): nat {
    if q.released then 0 else 1
  }

  /** The release function: it receives from the channel of slots, once. */
  function AfterRelease(q: Request): Request {
    q.(released := true, frees := q.frees + Cost(q))
  }

  predicate Running(s: State, r: Id) {
    r in s.requests && !s.requests[r].returned
  }

  predicate Next(s: State, step: Step, s': State) {
    match step
    case Arrive(r) =>
      && r !in s.requests
      && s' == if s.occupied < s.limit then s.(occupied := s.occupied + 1, requests := s.requests[r := ADMITTED]) else s
    case Act(r, call) =>
      && Running(s, r)
      && var q := s.requests[r];
         if !IsFinal(q, call) then s' == s
         else
           && Cost(q) <= s.occupied
           && s' == s.(occupied := s.occupied - Cost(q),
                       requests := s.requests[r := AfterRelease(q).(wroteHeader := true, sentFinal := true)])
    case Return(r) =>
      && Running(s, r)
      && var q := s.requests[r];
         && Cost(q) <= s.occupied
         && s' == s.(occupied := s.occupied - Cost(q), requests := s.requests[r := AfterRelease(q).(returned := true)])
  }

  /** A request that has neither sent a final status nor returned. */
  predicate Holds(q: Request) {
    !q.sentFinal && !q.returned
  }

  function Holders(requests: map<Id, Request>): set<Id> {
    set r | r in requests && Holds(requests[r])
  }

  /** It has freed one slot if it no longer holds one, and none before. */
  predicate Consistent(q: Request) {
    (q.released <==> !Holds(q)) && (q.wroteHeader <==> q.sentFinal) && q.frees == if Holds(q) then 0 else 1
  }

  ghost predicate Inv(s: State) {
    && (forall r | r in s.requests :: Consistent(s.requests[r]))
    && s.occupied == |Holders(s.requests)| <= s.limit
  }

  lemma HoldersChange(requests: map<Id, Request>, r: Id, q: Request)
    ensures |Holders(requests[r := q])|
         == |Holders(requests)| - (if r in Holders(requests) then 1 else 0) + if Holds(q) then 1 else 0
  {
    var before, after := Holders(requests), Holders(requests[r := q]);
    assert r in after <==> Holds(q);
    forall x | x != r ensures x in after <==> x in before {}
    hide Holders, Holds;
    assert after - {r} == before - {r};
    assert |after - {r}| == |after| - if r in after then 1 else 0;
    assert |before - {r}| == |before| - if r in before then 1 else 0;
  }

  lemma NextKeepsInv(s: State, step: Step, s': State)
    requires Inv(s) && Next(s, step, s')
    ensures Inv(s') && s'.limit == s.limit
  {
    if s' != s {
      HoldersChange(s.requests, step.r, s'.requests[step.r]);
      assert step.r in Holders(s.requests) <==> step.r in s.requests && Holds(s.requests[step.r]);
      hide Holders;
    }
  }

  ghost predicate IsRun(ss: seq<State>, steps: seq<Step>, limit: nat) {
    && |ss| == |steps| + 1
    && ss[0] == State(limit, 0, map[])
    && forall i | 0 <= i < |steps| :: Next(ss[i], steps[i], ss[i + 1])
  }

  /** In every interleaving the occupancy is the number of admitted requests that have
      neither sent a final status nor returned, it stays within the limit, and each request
      frees one slot, when the first of the two happens. */
  lemma {:induction false} SlotsAreCounted(ss: seq<State>, steps: seq<Step>, limit: nat, i: nat)
    requires IsRun(ss, steps, limit) && i < |ss|
    ensures ss[i].occupied == |Holders(ss[i].requests)| <= limit == ss[i].limit
    ensures forall r | r in ss[i].requests :: Consistent(ss[i].requests[r])
  {
    hide Next, Consistent;
    if i > 0 {
      SlotsAreCounted(ss, steps, limit, i - 1);
      NextKeepsInv(ss[i - 1], steps[i - 1], ss[i]);
    }
  }

  /** A final status and a body take the slot from a request that runs; an interim status
      changes nothing, and neither does a second final one. */
  lemma FreedByItsCalls(ss: seq<State>, steps: seq<Step>, limit: nat, i: nat)
    requires IsRun(ss, steps, limit) && i < |steps| && steps[i].Act?
    ensures Running(ss[i], steps[i].r) && Running(ss[i + 1], steps[i].r)
    ensures var call := steps[i].call;
      var held, holds := Holds(ss[i].requests[steps[i].r]), Holds(ss[i + 1].requests[steps[i].r]);
      && (call.Header? && call.status < 200 ==> ss[i + 1] == ss[i])
      && (call.Body? || call.status >= 200 ==> !holds && ss[i + 1].occupied == ss[i].occupied - if held then 1 else 0)
  {
    SlotsAreCounted(ss, steps, limit, i);
    assert Next(ss[i], steps[i], ss[i + 1]);
  }

  /** And so does its return. */
  lemma FreedByItsReturn(ss: seq<State>, steps: seq<Step>, limit: nat, i: nat)
    requires IsRun(ss, steps, limit) && i < |steps| && steps[i].Return?
    ensures Running(ss[i], steps[i].r) && !Running(ss[i + 1], steps[i].r)
    ensures var held := Holds(ss[i].requests[steps[i].r]);
      ss[i + 1].occupied == ss[i].occupied - if held then 1 else 0
  {
    SlotsAreCounted(ss, steps, limit, i);
    assert Next(ss[i], steps[i], ss[i + 1]);
  }

  /** A release never blocks: a request that has not freed its slot finds one occupied. */
  lemma NeverBlocks(ss: seq<State>, steps: seq<Step>, limit: nat, i: nat, r: Id)
    requires IsRun(ss, steps, limit) && i < |ss| && r in ss[i].requests
    ensures Cost(ss[i].requests[r]) <= ss[i].occupied
  {
    hide Next;
    SlotsAreCounted(ss, steps, limit, i);
    if !ss[i].requests[r].released {
      assert r in Holders(ss[i].requests);
    }
  }

  /** So a request that was admitted can always go on, whatever it sends, and return; and a new
      one is always answered. */
  lemma CanGoOn(ss: seq<State>, steps: seq<Step>, limit: nat, i: nat, step: Step) returns (s': State)
    requires IsRun(ss, steps, limit) && i < |ss|
    requires if step.Arrive? then step.r !in ss[i].requests else Running(ss[i], step.r)
    ensures Next(ss[i], step, s')
  {
    var s := ss[i];
    match step
    case Arrive(r) =>
      s' := if s.occupied < s.limit then s.(occupied := s.occupied + 1, requests := s.requests[r := ADMITTED]) else s;
    case Act(r, call) =>
      NeverBlocks(ss, steps, limit, i, r);
      var q := s.requests[r];
      s' := if !IsFinal(q, call) then s
            else s.(occupied := s.occupied - Cost(q),
                    requests := s.requests[r := AfterRelease(q).(wroteHeader := true, sentFinal := true)]);
    case Return(r) =>
      NeverBlocks(ss, steps, limit, i, r);
      var q := s.requests[r];
      s' := s.(occupied := s.occupied - Cost(q), requests := s.requests[r := AfterRelease(q).(returned := true)]);
  }

  /** A new request is turned away exactly while `limit` requests hold a slot. */
  lemma TurnedAwayWhenFull(ss: seq<State>, steps: seq<Step>, limit: nat, i: nat)
    requires IsRun(ss, steps, limit) && i < |steps| && steps[i].Arrive?
    ensures steps[i].r in ss[i + 1].requests <==> |Holders(ss[i].requests)| < limit
  {
    SlotsAreCounted(ss, steps, limit, i);
    assert Next(ss[i], steps[i], ss[i + 1]);
    hide Holders, Consistent;
  }
}
