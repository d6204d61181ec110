/** GET /v1/files over the store, and what its pages are worth while the service runs. */
module Listing {
  import opened Rows
  import opened Paging
  import opened Store
  import opened World
  import Protocol
  import opened Safety
  import Jobs

  datatype Answer = Listed(data: seq<Record>, hasMore: bool, firstId: Option<FileId>, lastId: Option<FileId>) | Refused

  const DEFAULT_LIMIT: int := 20
  const MAX_LIMIT: int := 10000

  /** The limit parameter, as strconv.Atoi reads it; an empty one counts as absent. */
  datatype RawLimit = Absent | NotANumber | Number(value: int)

  predicate ValidLimit(raw: RawLimit) {
    raw.Absent? || (raw.Number? && 1 <= raw.value <= MAX_LIMIT)
  }

  function LimitOf(raw: RawLimit): int {
    if raw.Number? then raw.value else DEFAULT_LIMIT
  }

  predicate ValidOrder(order: string) {
    order == "" || order == "asc" || order == "desc"
  }

  function OrderOf(order: string): Order {
    if order == "asc" then Asc else Desc
  }

  /** listFiles */
  method ListFiles(store: FileStore, tenant: string, purpose: string, raw: RawLimit, order: string,
                   after: Option<FileId>, now: int)
    returns (answer: Answer)
    ensures answer.Refused? <==> !ValidLimit(raw) || !ValidOrder(order)
    ensures answer.Listed? ==>
      var page := Paging.ListFiles(store.rows, Query(tenant, purpose, OrderOf(order)), now, LimitOf(raw), after);
      && Page(Keys(answer.data), answer.hasMore) == page
      && answer.lastId == LastId(page)
      && answer.firstId == (if page.data == [] then None else Some(page.data[0].id))
      && From(answer.data, store.rows) && |answer.data| <= LimitOf(raw)
      && IsListing(answer.data, store.rows, tenant, purpose, OrderOf(order), after, now, answer.hasMore)
  {
    hide Paging.ListFiles, IsListing, From;
    var limit := 20;
    if !raw.Absent? {
      if raw.NotANumber? {
        return Refused;
      }
      limit := raw.value;
      if limit < 1 || limit > 10000 {
        return Refused;
      }
    }
    var direction := if order == "" then "desc" else order;
    if direction != "asc" && direction != "desc" {
      return Refused;
    }
    var records, hasMore :=
      FirstRecords(store, tenant, purpose, limit, if direction == "asc" then Asc else Desc, after, now);
    var firstId: Option<FileId>, lastId: Option<FileId> := None, None;
    if |records| > 0 {
      firstId, lastId := Some(records[0].id), Some(records[|records| - 1].id);
    }
    return Listed(records, hasMore, firstId, lastId);
  }

  /** The call of the store in listFiles: one record more than the limit tells whether there
      is more. */
  method FirstRecords(store: FileStore, tenant: string, purpose: string, limit: nat, order: Order,
                      after: Option<FileId>, now: int)
    returns (records: seq<Record>, hasMore: bool)
    ensures Page(Keys(records), hasMore)
      == Paging.ListFiles(store.rows, Query(tenant, purpose, order), now, limit, after)
    ensures From(records, store.rows) && |records| <= limit
    ensures IsListing(records, store.rows, tenant, purpose, order, after, now, hasMore)
  {
    hide Paging.List, IsListing;
    records := store.List(tenant, purpose, limit + 1, order, after, now);
    hasMore := |records| > limit;
    KeysOfFirst(records, limit);
    FirstIsListing(records, store.rows, tenant, purpose, order, after, now, limit);
    if hasMore {
      records := records[..limit];
    }
  }

  lemma KeysOfFirst(records: seq<Record>, limit: nat)
    ensures Keys(if |records| > limit then records[..limit] else records) == Paging.Take(Keys(records), limit)
  {}

  lemma FirstIsListing(records: seq<Record>, rows: Table, tenant: string, purpose: string, order: Order,
                       after: Option<FileId>, now: int, limit: nat)
    requires IsListing(records, rows, tenant, purpose, order, after, now, |records| == limit + 1)
    requires |records| <= limit + 1
    ensures IsListing(if |records| > limit then records[..limit] else records, rows, tenant, purpose, order, after, now,
                      |records| > limit)
  {
    hide Listable, IsBehind;
    if |records| > limit {
      var first := records[..limit];
      assert forall i | 0 <= i < limit :: first[i] == records[i];
      forall r | r in first ensures r in records && Precedes(order, r, records[limit]) {
        var i :| 0 <= i < |first| && first[i] == r;
      }
      forall r | r in records && r !in first ensures r == records[limit] {
        var i :| 0 <= i < |records| && records[i] == r;
      }
    }
  }

  // ---------- pages of a run ----------

  /** The table and the clock at the moments `at` of a run. */
  function Shots(ws: seq<World>, at: seq<nat>): (shots: seq<Shot>)
    requires forall i | 0 <= i < |at| :: at[i] < |ws|
    ensures |shots| == |at|
  {
    seq(|at|, i requires 0 <= i < |at| => Shot(ws[at[i]].rows, ws[at[i]].now))
  }

  lemma RunsKeepKeys(ws: seq<World>, ss: seq<Protocol.Step>, at: seq<nat>)
    requires IsRun(ws, ss)
    requires forall i | 0 <= i < |at| :: at[i] < |ws|
    requires forall i, j | 0 <= i < j < |at| :: at[i] <= at[j]
    ensures KeysAreFixed(Shots(ws, at))
  {
    hide IsRun, Protocol.Next;
    var shots := Shots(ws, at);
    forall i, j, id | 0 <= i < j < |shots| && id in shots[i].rows && id in shots[j].rows
      ensures shots[i].rows[id].createdAt == shots[j].rows[id].createdAt
    {
      Jobs.StatusesSettle(ws, ss, at[i], at[j]);
    }
  }

  /** A client that pages through the files while the service does anything at all between
      the pages sees no file twice, and sees every file that matched at each page, as long
      as each cursor holds. */
  lemma PagingDuringARun(ws: seq<World>, ss: seq<Protocol.Step>, at: seq<nat>, pages: seq<Page>, q: Query, limit: nat)
    requires IsRun(ws, ss)
    requires forall i | 0 <= i < |at| :: at[i] < |ws|
    requires forall i, j | 0 <= i < j < |at| :: at[i] <= at[j]
    requires limit >= 1 && ClientWalk(Shots(ws, at), pages, q, limit) && CursorsHold(Shots(ws, at), pages, q)
    ensures forall x, y | 0 <= x < y < |Concat(pages)| :: Concat(pages)[x].id != Concat(pages)[y].id
    ensures forall id | ListedThroughout(Shots(ws, at), q, id) ::
      exists x :: 0 <= x < |Concat(pages)| && Concat(pages)[x].id == id
  {
    hide IsRun, Protocol.Next, ClientWalk, CursorsHold, KeysAreFixed;
    RunsKeepKeys(ws, ss, at);
    PagingUnderChange(Shots(ws, at), pages, q, limit);
  }
}
