/** The store as an object: each method runs one SQL statement on the table.  `now` is what
    the clock shows when the statement runs.  A call that fails changes nothing and is not
    shown here; the step model chooses such failures freely. */
module Store {
  import opened Rows
  import Paging

  datatype Record = Record(id: FileId, row: Row)

  function Key(r: Record): Paging.Key {
    Paging.Key(r.row.createdAt, r.id)
  }

  function Keys(records: seq<Record>): (keys: seq<Paging.Key>)
    ensures |keys| == |records|
  {
    seq(|records|, i requires 0 <= i < |records| => Key(records[i]))
  }

  /** Every record is a row of the table. */
  ghost predicate From(records: seq<Record>, rows: Table) {
    forall r | r in records :: r.id in rows && r.row == rows[r.id]
  }

  /** What a client may see in a list: the columns that the query asks about. */
  predicate Listable(row: Row, tenant: string, purpose: string, now: int) {
    && row.tenant == tenant && row.deletedAt == None
    && (row.expiresAt == 0 || row.expiresAt > now)
    && (purpose == "" || row.purpose == purpose)
  }

  /** Oldest first, or newest first; equally old files by their ID. */
  predicate Precedes(order: Paging.Order, a: Record, b: Record) {
    match order
    case Asc => a.row.createdAt < b.row.createdAt || (a.row.createdAt == b.row.createdAt && a.id < b.id)
    case Desc => a.row.createdAt > b.row.createdAt || (a.row.createdAt == b.row.createdAt && a.id > b.id)
  }

  /** The file is behind the cursor, if the cursor is a file of the tenant. */
  predicate IsBehind(rows: Table, tenant: string, order: Paging.Order, after: Option<FileId>, r: Record) {
    after.Some? && after.value in rows && rows[after.value].tenant == tenant ==>
      Precedes(order, Record(after.value, rows[after.value]), r)
  }

  /** The listed files are rows that may be seen, behind the cursor and in order; a row that
      may be seen and is not listed comes after all of them, and then there is `more`. */
  ghost predicate IsListing(files: seq<Record>, rows: Table, tenant: string, purpose: string, order: Paging.Order,
                            after: Option<FileId>, now: int, more: bool) {
    && (forall r | r in files ::
          && r.id in rows && r.row == rows[r.id] && Listable(r.row, tenant, purpose, now)
          && IsBehind(rows, tenant, order, after, r))
    && (forall i, j | 0 <= i < j < |files| :: Precedes(order, files[i], files[j]))
    && (forall id | id in rows && Listable(rows[id], tenant, purpose, now)
          && IsBehind(rows, tenant, order, after, Record(id, rows[id])) ::
          Record(id, rows[id]) in files || (more && forall r | r in files :: Precedes(order, r, Record(id, rows[id]))))
  }

  /** A listed file can be fetched, and is not about to be collected. */
  lemma ListedCanBeFetched(files: seq<Record>, rows: Table, tenant: string, purpose: string, order: Paging.Order,
                           after: Option<FileId>, now: int, more: bool, r: Record)
    requires IsListing(files, rows, tenant, purpose, order, after, now, more) && r in files
    ensures Rows.Get(rows, r.id, tenant, now) == Some(r.row)
    ensures r.row.expiresAt >= 0 ==> r.id !in ExpiredIds(rows, now)
  {}

  /** What the query selects, on the columns. */
  lemma SelectsListable(rows: Table, q: Paging.Query, now: int, after: Option<FileId>, id: FileId)
    requires id in rows
    ensures Paging.KeyOf(rows, id) in
        Paging.Following(Paging.Matching(rows, q, now), q.order, Paging.Cursor(rows, q.tenant, after))
      <==> Listable(rows[id], q.tenant, q.purpose, now) && IsBehind(rows, q.tenant, q.order, after, Record(id, rows[id]))
  {
    var k := Paging.KeyOf(rows, id);
    assert k in Paging.Matching(rows, q, now) <==> Paging.Matches(rows[id], q, now);
  }

  lemma ComparesColumns(order: Paging.Order, a: Record, b: Record)
    ensures Paging.Before(order, Key(a), Key(b)) <==> Precedes(order, a, b)
  {}

  lemma ListIsListing(files: seq<Record>, rows: Table, tenant: string, purpose: string, limit: nat, order: Paging.Order,
                      after: Option<FileId>, now: int)
    requires Keys(files) == Paging.List(rows, Paging.Query(tenant, purpose, order), now, limit, after)
    requires From(files, rows)
    ensures IsListing(files, rows, tenant, purpose, order, after, now, |files| == limit) && |files| <= limit
  {
    hide Listable, IsBehind, Precedes, Paging.Following, Paging.Matching, Paging.Before, Paging.Sorted;
    var q := Paging.Query(tenant, purpose, order);
    var rest := Paging.Following(Paging.Matching(rows, q, now), order, Paging.Cursor(rows, tenant, after));
    var keys := Keys(files);
    Paging.FirstOfSorted(rest, order, limit);
    forall i | 0 <= i < |files|
      ensures Listable(files[i].row, tenant, purpose, now) && IsBehind(rows, tenant, order, after, files[i])
    {
      assert keys[i] in rest && keys[i] == Key(files[i]) == Paging.KeyOf(rows, files[i].id);
      SelectsListable(rows, q, now, after, files[i].id);
    }
    forall i, j | 0 <= i < j < |files| ensures Precedes(order, files[i], files[j]) {
      assert Paging.Before(order, keys[i], keys[j]);
      ComparesColumns(order, files[i], files[j]);
    }
    forall id | id in rows && Listable(rows[id], tenant, purpose, now)
        && IsBehind(rows, tenant, order, after, Record(id, rows[id]))
      ensures Record(id, rows[id]) in files
        || (|files| == limit && forall r | r in files :: Precedes(order, r, Record(id, rows[id])))
    {
      SelectsListable(rows, q, now, after, id);
      ListedOrLater(files, rows, order, limit, rest, id);
    }
  }

  lemma ListedOrLater(files: seq<Record>, rows: Table, order: Paging.Order, limit: nat, rest: set<Paging.Key>, id: FileId)
    requires From(files, rows) && id in rows && Paging.KeyOf(rows, id) in rest
    requires forall k | k in rest ::
      k in Keys(files) || (|files| == limit && forall x | x in Keys(files) :: Paging.Before(order, x, k))
    ensures Record(id, rows[id]) in files
      || (|files| == limit && forall r | r in files :: Precedes(order, r, Record(id, rows[id])))
  {
    hide Paging.Before, Precedes;
    var k, keys := Paging.KeyOf(rows, id), Keys(files);
    assert k == Key(Record(id, rows[id]));
    if k in keys {
      var i :| 0 <= i < |keys| && keys[i] == k;
      assert files[i] == Record(id, rows[id]);
    } else {
      forall r | r in files ensures Precedes(order, r, Record(id, rows[id])) {
        var i :| 0 <= i < |files| && files[i] == r;
        assert keys[i] == Key(r) && keys[i] in keys;
        ComparesColumns(order, r, Record(id, rows[id]));
      }
    }
  }

  lemma ListedAreRows(rows: Table, q: Paging.Query, now: int, limit: nat, after: Option<FileId>)
    ensures forall k | k in Paging.List(rows, q, now, limit, after) :: k.id in rows && k == Paging.KeyOf(rows, k.id)
  {
    var found := Paging.Following(Paging.Matching(rows, q, now), q.order, Paging.Cursor(rows, q.tenant, after));
    forall k | k in Paging.List(rows, q, now, limit, after) ensures k in found {
      assert k in Paging.Elements(Paging.Sorted(found, q.order));
    }
  }

  class FileStore {
    var rows: Table

    constructor ()
      ensures rows == map[]
    {
      rows := map[];
    }

    /** The ID is the primary key. */
    method Add(id: FileId, row: Row) returns (ok: bool)
      modifies this
      ensures ok <==> id !in old(rows)
      ensures rows == if ok then old(rows)[id := row] else old(rows)
    {
      ok := id !in rows;
      if ok {
        rows := rows[id := row];
      }
    }

    method Get(id: FileId, tenant: string, now: int) returns (found: Option<Row>)
      ensures found.Some? <==> id in rows && rows[id].tenant == tenant && Visible(rows[id], now)
      ensures found.Some? ==> found.value == rows[id]
      ensures found == Rows.Get(rows, id, tenant, now)
    {
      found := None;
      if id in rows && rows[id].tenant == tenant && rows[id].deletedAt.None? {
        if rows[id].expiresAt == 0 || rows[id].expiresAt > now {
          found := Some(rows[id]);
        }
      }
    }

    /** The clauses of the query, put together one by one as its text is. */
    method Select(query: Paging.Query, after: Option<FileId>, now: int) returns (selected: set<Paging.Key>)
      ensures selected == Paging.Following(Paging.Matching(rows, query, now), query.order,
                                           Paging.Cursor(rows, query.tenant, after))
    {
      hide Paging.Matching;
      selected := Paging.Matching(rows, query, now);
      if after.Some? {
        var cursor: Option<Paging.Key> := None;
        if after.value in rows && rows[after.value].tenant == query.tenant {
          cursor := Some(Paging.KeyOf(rows, after.value));
        }
        if cursor.Some? {
          selected := set k | k in selected && Paging.Before(query.order, cursor.value, k);
        }
      }
    }

    /** The query is put together; then its result is read row by row. */
    method List(tenant: string, purpose: string, limit: nat, order: Paging.Order, after: Option<FileId>, now: int)
      returns (files: seq<Record>)
      ensures Keys(files) == Paging.List(rows, Paging.Query(tenant, purpose, order), now, limit, after)
      ensures From(files, rows) && |files| <= limit
      ensures IsListing(files, rows, tenant, purpose, order, after, now, |files| == limit)
    {
      var query := Paging.Query(tenant, purpose, order);
      hide Paging.Sorted, Paging.Matching, Paging.Take, Paging.Following, Paging.Cursor;
      var selected := Select(query, after, now);
      var result := Paging.Take(Paging.Sorted(selected, order), limit);
      ListedAreRows(rows, query, now, limit, after);
      files := [];
      var i := 0;
      while i < |result|
        invariant 0 <= i <= |result| && |files| == i
        invariant From(files, rows)
        invariant forall j | 0 <= j < i :: Key(files[j]) == result[j]
      {
        files := files + [Record(result[i].id, rows[result[i].id])];
        i := i + 1;
      }
      assert Keys(files) == result;
      hide IsListing;
      ListIsListing(files, rows, tenant, purpose, limit, order, after, now);
    }

    method UpdateStatus(id: FileId, status: Status, manifest: Option<Path>,
                        errorMessage: string) returns (updated: bool)
      modifies this
      ensures updated <==> Live(old(rows), id)
      ensures rows == Rows.UpdateStatus(old(rows), id, status, manifest, errorMessage)
    {
      updated := id in rows && rows[id].deletedAt.None?;
      if updated {
        var error := if errorMessage == "" then None else Some(errorMessage);
        rows := rows[id := rows[id].(status := status, manifestPath := manifest, errorMessage := error)];
      }
    }

    method MarkDeleted(id: FileId, tenant: string, now: int) returns (marked: bool)
      modifies this
      ensures marked <==> Markable(old(rows), id, tenant)
      ensures rows == Rows.MarkDeleted(old(rows), id, tenant, now)
    {
      marked := id in rows && rows[id].tenant == tenant && rows[id].deletedAt.None?;
      if marked {
        rows := rows[id := rows[id].(deletedAt := Some(now))];
      }
    }

    method Delete(id: FileId, tenant: string) returns (deleted: bool)
      modifies this
      ensures deleted <==> Owned(old(rows), id, tenant)
      ensures rows == Rows.Remove(old(rows), id, tenant)
    {
      deleted := id in rows && rows[id].tenant == tenant;
      if deleted {
        rows := rows - {id};
      }
    }

    method ConsolidateTenants()
      modifies this
      ensures rows == Rows.ConsolidateTenants(old(rows))
      ensures rows.Keys == old(rows).Keys
      ensures forall id | id in rows :: rows[id] == old(rows)[id].(tenant := SHARED_TENANT)
    {
      var others := set id | id in rows && rows[id].tenant != SHARED_TENANT;
      rows := rows + map id | id in others :: rows[id].(tenant := SHARED_TENANT);
    }
  }
}
