/** The FIFO work queues: the unbounded one with its close-and-replace `ready` channel, and
    the bounded one.

    The objects come first, with the critical sections as methods.  Then any number of
    producers and consumers interleave these sections; the results are about every
    interleaving. */
module WorkQueue {
  import opened Rows

  // ---------- the unbounded queue as an object ----------

  /** `chan struct{}`; closing a closed channel panics. */
  class Channel {
    const number: nat
    var closed: bool

    constructor (number: nat)
      ensures this.number == number && !closed
    {
      this.number := number;
      closed := false;
    }

    method Close()
      requires !closed
      modifies this
      ensures closed
    {
      closed := true;
    }
  }

  /** What the queue holds, and how many times its channel was replaced. */
  datatype Queue<T> = Queue(items: seq<T>, generation: nat)

  function Appended<T>(q: Queue<T>, item: T): Queue<T> {
    Queue(q.items + [item], q.generation + 1)
  }

  function Popped<T>(q: Queue<T>): Queue<T>
    requires q.items != []
  {
    Queue(q.items[1..], q.generation)
  }

  class UnboundedQueue<T> {
    var items: seq<T>
    var ready: Channel
    /** Every channel that was ever handed to a waiting consumer. */
    ghost var channels: set<Channel>

    ghost function View(): Queue<T>
      reads this, ready
    {
      Queue(items, ready.number)
    }

    /** Exactly the replaced channels are closed. */
    ghost predicate Valid()
      reads this, channels
    {
      && ready in channels
      && (forall c | c in channels :: c.closed <==> c.number < ready.number)
      && (forall c | c in channels :: c == ready || c.number < ready.number)
    }

    constructor ()
      ensures Valid() && fresh(channels) && View() == Queue([], 0)
    {
      items := [];
      var channel := new Channel(0);
      ready := channel;
      channels := {channel};
    }

    method Add(cancelled: bool, item: T) returns (added: bool)
      requires Valid()
      modifies this, ready
      ensures Valid() && fresh(channels - old(channels)) && old(channels) <= channels
      ensures added <==> !cancelled
      ensures View() == if added then Appended(old(View()), item) else old(View())
      ensures added ==> forall c | c in old(channels) :: c.closed
    {
      if cancelled {
        return false;
      }
      items := items + [item];
      ready.Close();
      var channel := new Channel(ready.number + 1);
      ready := channel;
      channels := channels + {channel};
      return true;
    }

    /** The critical section of Get: an item, or the channel to wait for. */
    method Poll() returns (item: Option<T>, wait: Channel)
      requires Valid()
      modifies this`items
      ensures Valid() && channels == old(channels) && ready == old(ready)
      ensures item.Some? <==> old(items) != []
      ensures item.Some? ==> item.value == old(items)[0] && View() == Popped(old(View()))
      ensures item.None? ==> View() == old(View())
      ensures wait == ready && !wait.closed
    {
      wait := ready;
      item := None;
      if |items| > 0 {
        item := Some(items[0]);
        items := items[1..];
      }
    }
  }

  // ---------- any number of producers and consumers ----------

  type Id = nat

  /** A call of Get: about to enter the critical section, or waiting for channel `channel`
      or its context. */
  datatype Consumer = Looking | Parked(channel: nat)

  /** `producers` are the calls of Add that found their context alive; `added` and `taken`
      are the items of the calls that succeeded, in the order of their critical sections. */
  datatype State<T> = State(
    queue: Queue<T>, producers: map<Id, T>, consumers: map<Id, Consumer>, added: seq<T>, taken: seq<T>)

  datatype Step<T> =
    | Offer(p: Id, item: T)   // Add starts and its context is alive
    | Append(p: Id)           // the critical section of Add
    | Ask(c: Id)              // Get starts
    | Poll(c: Id)             // the critical section of Get
    | Wake(c: Id)             // the channel it waits for is closed
    | Quit(c: Id)             // the context it waits for is done

  predicate Closed<T(!new)>(s: State<T>, channel: nat) {
    channel < s.queue.generation
  }

  ghost predicate Next<T(!new)>(s: State<T>, step: Step<T>, s': State<T>) {
    match step
    case Offer(p, item) =>
      p !in s.producers && s' == s.(producers := s.producers[p := item])
    case Append(p) =>
      && p in s.producers
      && s' == s.(queue := Appended(s.queue, s.producers[p]), producers := s.producers - {p},
                  added := s.added + [s.producers[p]])
    case Ask(c) =>
      c !in s.consumers && s' == s.(consumers := s.consumers[c := Looking])
    case Poll(c) =>
      && c in s.consumers && s.consumers[c].Looking?
      && if s.queue.items != [] then
           s' == s.(queue := Popped(s.queue), consumers := s.consumers - {c}, taken := s.taken + [s.queue.items[0]])
         else
           s' == s.(consumers := s.consumers[c := Parked(s.queue.generation)])
    case Wake(c) =>
      && c in s.consumers && s.consumers[c].Parked? && Closed(s, s.consumers[c].channel)
      && s' == s.(consumers := s.consumers[c := Looking])
    case Quit(c) =>
      c in s.consumers && s.consumers[c].Parked? && s' == s.(consumers := s.consumers - {c})
  }

  ghost predicate Inv<T(!new)>(s: State<T>) {
    && s.taken + s.queue.items == s.added
    && (forall c | c in s.consumers && s.consumers[c].Parked? :: s.consumers[c].channel <= s.queue.generation)
    && (s.queue.items != [] ==>
          forall c | c in s.consumers && s.consumers[c].Parked? :: Closed(s, s.consumers[c].channel))
  }

  lemma NextKeepsInv<T(!new)>(s: State<T>, step: Step<T>, s': State<T>)
    requires Inv(s) && Next(s, step, s')
    ensures Inv(s')
  {
    match step
    case Append(p) =>
      assert s.taken + (s.queue.items + [s.producers[p]]) == s.added + [s.producers[p]];
    case Poll(c) =>
      if s.queue.items != [] {
        assert s.taken + s.queue.items == s.taken + [s.queue.items[0]] + s.queue.items[1..];
      }
    case _ =>
  }

  ghost predicate IsRun<T(!new)>(ss: seq<State<T>>, steps: seq<Step<T>>) {
    && |ss| == |steps| + 1
    && ss[0] == State(Queue([], 0), map[], map[], [], [])
    && forall i | 0 <= i < |steps| :: Next(ss[i], steps[i], ss[i + 1])
  }

  /** In every interleaving the delivered items followed by the stored items are the added
      items in order, and while items are stored no consumer stays on an open channel. */
  lemma {:induction false} NothingLost<T(!new)>(ss: seq<State<T>>, steps: seq<Step<T>>, i: nat)
    requires IsRun(ss, steps) && i < |ss|
    ensures Inv(ss[i])
  {
    if i > 0 {
      NothingLost(ss, steps, i - 1);
      NextKeepsInv(ss[i - 1], steps[i - 1], ss[i]);
    }
  }

  /** So a consumer that is waiting while items are stored gets the first of them by its
      own next steps, whatever its context does. */
  lemma WaitingConsumerIsServed<T(!new)>(ss: seq<State<T>>, steps: seq<Step<T>>, i: nat, c: Id)
    returns (woken: State<T>, served: State<T>)
    requires IsRun(ss, steps) && i < |ss| && c in ss[i].consumers && ss[i].queue.items != []
    ensures Next(ss[i], Wake(c), woken) || (woken == ss[i] && ss[i].consumers[c].Looking?)
    ensures Next(woken, Step.Poll(c), served) && served.taken == ss[i].taken + [ss[i].queue.items[0]]
  {
    NothingLost(ss, steps, i);
    var s := ss[i];
    woken := s.(consumers := s.consumers[c := Looking]);
    if s.consumers[c].Looking? {
      assert s.consumers[c := Looking] == s.consumers;
    }
    served := woken.(queue := Popped(s.queue), consumers := woken.consumers - {c}, taken := s.taken + [s.queue.items[0]]);
  }

  /** A consumer that is stuck, its context alive and its channel open, is right to wait. */
  lemma StuckMeansEmpty<T(!new)>(ss: seq<State<T>>, steps: seq<Step<T>>, i: nat, c: Id)
    requires IsRun(ss, steps) && i < |ss|
    requires c in ss[i].consumers && ss[i].consumers[c].Parked? && !Closed(ss[i], ss[i].consumers[c].channel)
    ensures ss[i].queue.items == [] && ss[i].taken == ss[i].added
    ensures ss[i].consumers[c].channel == ss[i].queue.generation
  {
    NothingLost(ss, steps, i);
  }

  // ---------- the bounded queue ----------

  /** A buffered Go channel: a send waits for room, a receive waits for an item. */
  datatype Bounded<T> = Bounded(
    capacity: nat, items: seq<T>, senders: map<Id, T>, receivers: set<Id>, added: seq<T>, taken: seq<T>)

  datatype BoundedStep<T> =
    | Start(p: Id, item: T) | Send(p: Id) | AbandonSend(p: Id)
    | Listen(c: Id) | Receive(c: Id) | AbandonReceive(c: Id)

  ghost predicate BoundedNext<T(!new)>(s: Bounded<T>, step: BoundedStep<T>, s': Bounded<T>) {
    match step
    case Start(p, item) =>
      p !in s.senders && s' == s.(senders := s.senders[p := item])
    case Send(p) =>
      && p in s.senders && |s.items| < s.capacity
      && s' == s.(items := s.items + [s.senders[p]], senders := s.senders - {p}, added := s.added + [s.senders[p]])
    case AbandonSend(p) =>
      p in s.senders && s' == s.(senders := s.senders - {p})
    case Listen(c) =>
      s' == s.(receivers := s.receivers + {c})
    case Receive(c) =>
      && c in s.receivers && s.items != []
      && s' == s.(items := s.items[1..], receivers := s.receivers - {c}, taken := s.taken + [s.items[0]])
    case AbandonReceive(c) =>
      c in s.receivers && s' == s.(receivers := s.receivers - {c})
  }

  ghost predicate IsBoundedRun<T(!new)>(ss: seq<Bounded<T>>, steps: seq<BoundedStep<T>>, capacity: nat) {
    && |ss| == |steps| + 1
    && ss[0] == Bounded(capacity, [], map[], {}, [], [])
    && forall i | 0 <= i < |steps| :: BoundedNext(ss[i], steps[i], ss[i + 1])
  }

  lemma BoundedStepKeeps<T(!new)>(s: Bounded<T>, step: BoundedStep<T>, s': Bounded<T>)
    requires BoundedNext(s, step, s') && s.taken + s.items == s.added && |s.items| <= s.capacity
    ensures s'.taken + s'.items == s'.added && |s'.items| <= s'.capacity == s.capacity
  {
    match step
    case Send(p) => assert s.taken + (s.items + [s.senders[p]]) == s.added + [s.senders[p]];
    case Receive(c) => assert s.taken + s.items == s.taken + [s.items[0]] + s.items[1..];
    case _ =>
  }

  /** The bounded queue keeps the same order and never holds more than its capacity. */
  lemma {:induction false} BoundedNeverOverflows<T(!new)>(ss: seq<Bounded<T>>, steps: seq<BoundedStep<T>>,
                                                   capacity: nat, i: nat)
    requires IsBoundedRun(ss, steps, capacity) && i < |ss|
    ensures ss[i].taken + ss[i].items == ss[i].added
    ensures |ss[i].items| <= ss[i].capacity == capacity
  {
    if i > 0 {
      BoundedNeverOverflows(ss, steps, capacity, i - 1);
      BoundedStepKeeps(ss[i - 1], steps[i - 1], ss[i]);
    }
  }
}
