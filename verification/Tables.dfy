/** The tables of the file service as objects, with the critical sections on them as
    methods, and the proof that the step model changes its tables in exactly these ways.
    In the service they are maps of one object under one mutex. */
module Tables {
  import opened Rows
  import opened World

  // ---------- leases ----------

  datatype LeaseView = LeaseView(tokens: map<FileId, Token>, objs: map<Token, Lease>)

  /** One more reader of a file that has readers. */
  function Joined(v: LeaseView, l: Token): LeaseView
    requires l in v.objs
  {
    v.(objs := v.objs[l := v.objs[l].(refs := v.objs[l].refs + 1)])
  }

  /** The first reader of a file gets lease `l`. */
  function Opened(v: LeaseView, id: FileId, l: Token): LeaseView {
    LeaseView(v.tokens[id := l], v.objs[l := Lease(id, 1, false)])
  }

  predicate Closing(v: LeaseView, l: Token)
    requires l in v.objs
  {
    v.objs[l].refs == 1 && !v.objs[l].closed
  }

  /** The last release closes `done` and drops the entry. */
  function Released(v: LeaseView, l: Token): LeaseView
    requires l in v.objs && v.objs[l].refs > 0
  {
    var lease := v.objs[l];
    LeaseView(if Closing(v, l) then v.tokens - {lease.id} else v.tokens,
              v.objs[l := Lease(lease.id, lease.refs - 1, lease.closed || Closing(v, l))])
  }

  /** `refs` is the number of releases owed, a lease is in the map exactly while it is
      positive, and `done` is closed exactly when it has come back to zero. */
  ghost predicate Accounted(v: LeaseView, owed: multiset<Token>) {
    && (forall l | l in v.objs ::
          && v.objs[l].refs == owed[l] && (v.objs[l].closed <==> v.objs[l].refs == 0)
          && (v.objs[l].refs > 0 <==> v.objs[l].id in v.tokens && v.tokens[v.objs[l].id] == l))
    && (forall id | id in v.tokens :: v.tokens[id] in v.objs && v.objs[v.tokens[id]].id == id)
    && (forall l | l in owed :: l in v.objs)
  }

  lemma JoinedIsAccounted(v: LeaseView, owed: multiset<Token>, id: FileId)
    requires Accounted(v, owed) && id in v.tokens
    ensures Accounted(Joined(v, v.tokens[id]), owed + multiset{v.tokens[id]})
  {}

  lemma OpenedIsAccounted(v: LeaseView, owed: multiset<Token>, id: FileId, l: Token)
    requires Accounted(v, owed) && id !in v.tokens && l !in v.objs
    ensures Accounted(Opened(v, id, l), owed + multiset{l})
  {}

  function Acquired(v: LeaseView, id: FileId, l: Token): LeaseView {
    if id in v.tokens && v.tokens[id] in v.objs then Joined(v, v.tokens[id]) else Opened(v, id, l)
  }

  lemma EntryHasLease(v: LeaseView, owed: multiset<Token>, id: FileId)
    requires Accounted(v, owed)
    ensures id in v.tokens ==> v.tokens[id] in v.objs
  {}

  lemma OwedLeaseIsEntry(v: LeaseView, owed: multiset<Token>, l: Token)
    requires Accounted(v, owed) && l in owed
    ensures l in v.objs && v.objs[l].refs > 0 && v.objs[l].id in v.tokens && v.tokens[v.objs[l].id] == l
  {}

  lemma AcquiredIsAccounted(v: LeaseView, owed: multiset<Token>, id: FileId, l: Token)
    requires Accounted(v, owed)
    requires if id in v.tokens then l == v.tokens[id] else l !in v.objs
    ensures Accounted(Acquired(v, id, l), owed + multiset{l})
  {
    EntryHasLease(v, owed, id);
    hide Accounted;
    if id in v.tokens {
      JoinedIsAccounted(v, owed, id);
    } else {
      OpenedIsAccounted(v, owed, id, l);
    }
  }

  lemma ReleasedIsAccounted(v: LeaseView, owed: multiset<Token>, l: Token)
    requires Accounted(v, owed) && l in owed
    ensures Accounted(Released(v, l), owed - multiset{l})
    ensures l in owed - multiset{l} <==> !Released(v, l).objs[l].closed
  {}

  class FileLease {
    const number: Token
    const id: FileId
    var refs: nat
    var closed: bool

    constructor (number: Token, id: FileId)
      ensures this.number == number && this.id == id && refs == 1 && !closed
    {
      this.number, this.id := number, id;
      refs, closed := 1, false;
    }
  }

  class LeaseTable {
    var leases: map<FileId, FileLease>
    var next: Token
    ghost var objects: set<FileLease>
    ghost var view: LeaseView
    /** One entry for each release that a reader still owes. */
    ghost var owed: multiset<Token>

    ghost predicate Mirrors()
      reads this`leases, this`next, this`objects, this`view, objects
    {
      && (forall l | l in objects ::
            l.number < next && l.number in view.objs && view.objs[l.number] == Lease(l.id, l.refs, l.closed))
      && (forall l, m | l in objects && m in objects :: l.number == m.number ==> l == m)
      && (forall t | t in view.objs :: t < next)
      && (forall id :: id in leases <==> id in view.tokens)
      && (forall id | id in leases :: leases[id] in objects && leases[id].number == view.tokens[id])
    }

    ghost predicate Valid()
      reads this, objects
    {
      Mirrors() && Accounted(view, owed)
    }

    constructor ()
      ensures Valid() && view == LeaseView(map[], map[]) && owed == multiset{}
    {
      leases, next := map[], 0;
      objects, view, owed := {}, LeaseView(map[], map[]), multiset{};
    }

    lemma MirrorOf(lease: FileLease)
      requires Mirrors() && lease in objects
      ensures lease.number in view.objs && view.objs[lease.number] == Lease(lease.id, lease.refs, lease.closed)
      ensures lease.id in view.tokens && view.tokens[lease.id] == lease.number ==>
        lease.id in leases && leases[lease.id] == lease
    {}

    method Join(id: FileId) returns (lease: FileLease)
      requires Mirrors() && id in leases
      modifies this`view, leases[id]
      ensures Mirrors() && lease == leases[id] && lease.number in old(view).objs
      ensures view == Joined(old(view), lease.number)
    {
      lease := leases[id];
      lease.refs := lease.refs + 1;
      view := Joined(view, lease.number);
    }

    method Open(id: FileId) returns (lease: FileLease)
      requires Mirrors() && id !in leases
      modifies this`leases, this`next, this`objects, this`view
      ensures Mirrors() && lease.number == old(next) && lease in objects && leases == old(leases)[id := lease]
      ensures lease.number !in old(view).objs && view == Opened(old(view), id, lease.number)
    {
      lease := new FileLease(next, id);
      leases := leases[id := lease];
      objects := objects + {lease};
      view := Opened(view, id, next);
      next := next + 1;
    }

    /** The rest of acquireLease. */
    method Take(id: FileId) returns (lease: FileLease)
      requires Mirrors() && (id in view.tokens ==> view.tokens[id] in view.objs)
      modifies this`leases, this`next, this`objects, this`view, if id in leases then {leases[id]} else {}
      ensures Mirrors() && lease in objects && lease.number in view.objs
      ensures view == Acquired(old(view), id, lease.number)
      ensures if id in old(view).tokens then lease.number == old(view).tokens[id] else lease.number !in old(view).objs
    {
      if id in leases {
        lease := Join(id);
      } else {
        lease := Open(id);
      }
    }

    method Lend(id: FileId) returns (lease: FileLease)
      requires Valid()
      modifies this, if id in leases then {leases[id]} else {}
      ensures Valid() && lease in objects
      ensures view == Acquired(old(view), id, lease.number) && owed == old(owed) + multiset{lease.number}
      ensures if id in old(view).tokens then lease.number == old(view).tokens[id] else lease.number !in old(view).objs
    {
      hide Accounted, Acquired, Mirrors;
      EntryHasLease(view, owed, id);
      ghost var before, debts := view, owed;
      lease := Take(id);
      owed := debts + multiset{lease.number};
      AcquiredIsAccounted(before, debts, id, lease.number);
    }

    /** acquireLease: refused, with null, while the file is being deleted. */
    method AcquireLease(markers: DeletionTable, id: FileId) returns (lease: FileLease?)
      requires Valid()
      modifies this, if id in leases then {leases[id]} else {}
      ensures Valid() && (lease == null <==> id in markers.deleting)
      ensures lease == null ==> view == old(view) && owed == old(owed)
      ensures lease != null ==>
        && lease in objects && view == Acquired(old(view), id, lease.number) && owed == old(owed) + multiset{lease.number}
        && if id in old(view).tokens then lease.number == old(view).tokens[id] else lease.number !in old(view).objs
    {
      hide Valid, Acquired;
      if id in markers.deleting {
        return null;
      }
      lease := Lend(id);
    }

    /** releaseLease: called exactly once for each lease handed out. */
    method ReleaseLease(lease: FileLease)
      requires Valid() && lease in objects && lease.number in owed
      modifies this`leases, this`view, this`owed, lease
      ensures Valid() && owed == old(owed) - multiset{lease.number}
      ensures lease.number in old(view).objs && old(view).objs[lease.number].refs > 0
      ensures view == Released(old(view), lease.number)
      ensures lease.closed <==> lease.number !in owed
    {
      hide Accounted, Released, Mirrors;
      OwedLeaseIsEntry(view, owed, lease.number);
      MirrorOf(lease);
      ghost var before := view;
      Decrement(lease);
      ReleasedIsAccounted(before, owed, lease.number);
      owed := owed - multiset{lease.number};
    }

    method Decrement(lease: FileLease)
      requires Mirrors() && lease in objects && lease.refs > 0
      requires lease.id in leases && leases[lease.id] == lease
      modifies this`leases, this`view, lease
      ensures Mirrors() && lease.number in view.objs && view == Released(old(view), lease.number)
      ensures lease.closed == view.objs[lease.number].closed
    {
      view := Released(view, lease.number);
      lease.refs := lease.refs - 1;
      if lease.refs == 0 && !lease.closed {
        lease.closed := true;
        leases := leases - {lease.id};
      }
    }
  }

  // ---------- deletion markers ----------

  function Unmarked(deleting: map<FileId, ActorId>, id: FileId, d: ActorId): map<FileId, ActorId> {
    if id in deleting && deleting[id] == d then deleting - {id} else deleting
  }

  class Marker {
    const owner: ActorId
    var closed: bool

    constructor (owner: ActorId)
      ensures this.owner == owner && !closed
    {
      this.owner := owner;
      closed := false;
    }
  }

  class DeletionTable {
    var deleting: map<FileId, Marker>

    ghost function Owners(): map<FileId, ActorId>
      reads this
    {
      map id | id in deleting :: deleting[id].owner
    }

    constructor ()
      ensures Owners() == map[]
    {
      deleting := map[];
    }

    method BeginDeletion(id: FileId, d: ActorId) returns (marker: Marker?)
      modifies this
      ensures marker == null <==> id in old(Owners())
      ensures Owners() == if marker == null then old(Owners()) else old(Owners())[id := d]
      ensures marker != null ==>
        fresh(marker) && marker.owner == d && !marker.closed && deleting == old(deleting)[id := marker]
    {
      if id in deleting {
        return null;
      }
      marker := new Marker(d);
      deleting := deleting[id := marker];
    }

    /** The caller's own marker is the entry, or the entry is another caller's. */
    method EndDeletion(id: FileId, marker: Marker)
      requires !marker.closed
      requires id in deleting && deleting[id].owner == marker.owner ==> deleting[id] == marker
      modifies this, marker
      ensures marker.closed && Owners() == Unmarked(old(Owners()), id, marker.owner)
    {
      if id in deleting && deleting[id] == marker {
        deleting := deleting - {id};
      }
      marker.closed := true;
    }
  }

  // ---------- conversions ----------

  datatype ConversionView = ConversionView(tokens: map<FileId, Token>, states: map<Token, Conversion>)

  /** beginConversion overwrites any entry of the file. */
  function Begun(v: ConversionView, id: FileId, a: ActorId, t: Token): ConversionView {
    ConversionView(v.tokens[id := t], v.states[t := Conversion(id, a, true)])
  }

  /** endConversion, first section: drops the entry if it is still its own. */
  function Unregistered(v: ConversionView, id: FileId, t: Token): ConversionView {
    if id in v.tokens && v.tokens[id] == t then v.(tokens := v.tokens - {id}) else v
  }

  /** endConversion, second section: closes `done`. */
  function Signalled(v: ConversionView, t: Token): ConversionView
    requires t in v.states
  {
    v.(states := v.states[t := v.states[t].(active := false)])
  }

  class FileLifecycle {
    const number: Token
    const id: FileId
    const owner: ActorId
    var active: bool

    constructor (number: Token, id: FileId, owner: ActorId)
      ensures this.number == number && this.id == id && this.owner == owner && active
    {
      this.number, this.id, this.owner := number, id, owner;
      active := true;
    }
  }

  class ConversionTable {
    var conversions: map<FileId, FileLifecycle>
    var next: Token
    ghost var objects: set<FileLifecycle>
    ghost var view: ConversionView

    ghost predicate Valid()
      reads this, objects
    {
      && (forall c | c in objects ::
            c.number < next && c.number in view.states && view.states[c.number] == Conversion(c.id, c.owner, c.active))
      && (forall c, d | c in objects && d in objects :: c.number == d.number ==> c == d)
      && (forall t | t in view.states :: t < next)
      && (forall id :: id in conversions <==> id in view.tokens)
      && (forall id | id in conversions :: conversions[id] in objects && conversions[id].number == view.tokens[id])
    }

    constructor ()
      ensures Valid() && view == ConversionView(map[], map[])
    {
      conversions, next := map[], 0;
      objects, view := {}, ConversionView(map[], map[]);
    }

    method BeginConversion(id: FileId, a: ActorId) returns (state: FileLifecycle)
      requires Valid()
      modifies this
      ensures Valid() && fresh(state) && state in objects && state.active && conversions == old(conversions)[id := state]
      ensures state.number !in old(view).states && view == Begun(old(view), id, a, state.number)
    {
      state := new FileLifecycle(next, id, a);
      conversions := conversions[id := state];
      objects := objects + {state};
      view := Begun(view, id, a, next);
      next := next + 1;
    }

    method Unregister(state: FileLifecycle)
      requires Valid() && state in objects
      modifies this`conversions, this`view
      ensures Valid() && view == Unregistered(old(view), state.id, state.number)
    {
      view := Unregistered(view, state.id, state.number);
      if state.id in conversions && conversions[state.id] == state {
        conversions := conversions - {state.id};
      }
    }

    /** `done` is closed once: it is open before. */
    method Signal(state: FileLifecycle)
      requires Valid() && state in objects && state.active
      modifies this`view, state
      ensures Valid() && !state.active && state.number in old(view).states
      ensures view == Signalled(old(view), state.number)
    {
      view := Signalled(view, state.number);
      state.active := false;
    }
  }

  // ---------- retries ----------

  class RetryTable {
    var retryCount: map<FileId, nat>

    constructor ()
      ensures retryCount == map[]
    {
      retryCount := map[];
    }

    method Retries(id: FileId) returns (n: nat)
      ensures n == At(retryCount, id, 0)
    {
      n := if id in retryCount then retryCount[id] else 0;
    }

    method Increment(id: FileId)
      modifies this
      ensures At(retryCount, id, 0) == At(old(retryCount), id, 0) + 1
      ensures retryCount - {id} == old(retryCount) - {id} && id in retryCount
    {
      retryCount := retryCount[id := (if id in retryCount then retryCount[id] else 0) + 1];
    }

    method Forget(id: FileId)
      modifies this
      ensures retryCount == old(retryCount) - {id}
    {
      retryCount := retryCount - {id};
    }
  }
}
