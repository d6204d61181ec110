/** Keyset pagination: `List` of the store and `listFiles` of the server.

    Files are ordered by creation time, then by ID.  A page holds the files after a cursor
    file in that order; the cursor's place is looked up in the table when the page is made. */
module Paging {
  import opened Rows
  import Division

  datatype Order = Asc | Desc

  /** What `ORDER BY created_at, id` compares. */
  datatype Key = Key(createdAt: int, id: FileId)

  predicate Less(a: Key, b: Key) {
    a.createdAt < b.createdAt || (a.createdAt == b.createdAt && a.id < b.id)
  }

  /** `a` is listed before `b`. */
  predicate Before(o: Order, a: Key, b: Key) {
    if o.Asc? then Less(a, b) else Less(b, a)
  }

  predicate InOrder(s: seq<Key>, o: Order) {
    forall i, j | 0 <= i < j < |s| :: Before(o, s[i], s[j])
  }

  function Elements(s: seq<Key>): set<Key> {
    set k | k in s
  }

  // ---------- the query ----------

  /** An empty purpose lists every purpose. */
  datatype Query = Query(tenant: string, purpose: string, order: Order)

  predicate Matches(row: Row, q: Query, now: int) {
    row.tenant == q.tenant && Visible(row, now) && (q.purpose == "" || row.purpose == q.purpose)
  }

  function KeyOf(rows: Table, id: FileId): Key
    requires id in rows
  {
    Key(rows[id].createdAt, id)
  }

  function Matching(rows: Table, q: Query, now: int): set<Key> {
    set id | id in rows && Matches(rows[id], q, now) :: KeyOf(rows, id)
  }

  /** The cursor need not match the query; it must only be a row of the tenant. */
  function Cursor(rows: Table, tenant: string, after: Option<FileId>): Option<Key> {
    if after.Some? && Owned(rows, after.value, tenant) then Some(KeyOf(rows, after.value)) else None
  }

  function Following(keys: set<Key>, o: Order, cursor: Option<Key>): set<Key> {
    if cursor.None? then keys else set k | k in keys && Before(o, cursor.value, k)
  }

  predicate IsFirst(k: Key, keys: set<Key>, o: Order) {
    k in keys && forall x | x in keys :: x == k || Before(o, k, x)
  }

  lemma {:induction false} HasFirst(keys: set<Key>, o: Order)
    requires keys != {}
    ensures exists k :: IsFirst(k, keys, o)
    decreases |keys|
  {
    var k :| k in keys;
    var rest := keys - {k};
    assert keys == rest + {k};
    if rest == {} {
      assert IsFirst(k, keys, o);
    } else {
      HasFirst(rest, o);
      var m :| IsFirst(m, rest, o);
      if Before(o, k, m) {
        assert IsFirst(k, keys, o);
      } else {
        assert IsFirst(m, keys, o);
      }
    }
  }

  function First(keys: set<Key>, o: Order): (k: Key)
    requires keys != {}
    ensures IsFirst(k, keys, o)
  {
    HasFirst(keys, o);
    var k :| k in keys && IsFirst(k, keys, o);
    k
  }

  /** `ORDER BY created_at, id` of the matching rows. */
  function Sorted(keys: set<Key>, o: Order): (s: seq<Key>)
    ensures InOrder(s, o)
    ensures Elements(s) == keys
    decreases |keys|
  {
    if keys == {} then []
    else
      var k := First(keys, o);
      var rest := Sorted(keys - {k}, o);
      FirstGoesFirst(keys, k, rest, o);
      [k] + rest
  }

  lemma {:induction false} FirstGoesFirst(keys: set<Key>, k: Key, rest: seq<Key>, o: Order)
    requires IsFirst(k, keys, o)
    requires InOrder(rest, o) && Elements(rest) == keys - {k}
    ensures InOrder([k] + rest, o) && Elements([k] + rest) == keys
  {
    forall i | 0 <= i < |rest| ensures Before(o, k, rest[i]) {
      assert rest[i] in Elements(rest);
    }
    forall x ensures x in Elements([k] + rest) <==> x in keys {
      assert x in [k] + rest <==> x == k || x in rest;
      assert x in rest <==> x in Elements(rest);
    }
  }

  function Take(s: seq<Key>, n: nat): seq<Key> {
    if |s| <= n then s else s[..n]
  }

  function List(rows: Table, q: Query, now: int, limit: nat, after: Option<FileId>): seq<Key> {
    Take(Sorted(Following(Matching(rows, q, now), q.order, Cursor(rows, q.tenant, after)), q.order), limit)
  }

  // ---------- one page ----------

  datatype Page = Page(data: seq<Key>, hasMore: bool)

  function LastKey(p: Page): Option<Key> {
    if p.data == [] then None else Some(p.data[|p.data| - 1])
  }

  function LastId(p: Page): Option<FileId> {
    if p.data == [] then None else Some(p.data[|p.data| - 1].id)
  }

  /** One row more than the limit is asked for, to see whether there is more. */
  function Cut(found: seq<Key>, limit: nat): Page {
    Page(Take(found, limit), |found| > limit)
  }

  function ListFiles(rows: Table, q: Query, now: int, limit: nat, after: Option<FileId>): Page {
    Cut(List(rows, q, now, limit + 1, after), limit)
  }

  /** The page of `keys` after `cursor`, by its place in the order and not by its row. */
  function PageAfter(keys: set<Key>, o: Order, limit: nat, cursor: Option<Key>): Page {
    Cut(Take(Sorted(Following(keys, o, cursor), o), limit + 1), limit)
  }

  // ---------- order ----------

  lemma {:induction false} HeadIsElement(s: seq<Key>)
    ensures s == [] <==> Elements(s) == {}
    ensures s != [] ==> s[0] in Elements(s)
  {
    if s != [] {
      assert s[0] in Elements(s);
    }
  }

  lemma {:induction false} SortedIsUnique(s: seq<Key>, t: seq<Key>, o: Order)
    requires InOrder(s, o) && InOrder(t, o) && Elements(s) == Elements(t)
    ensures s == t
    decreases |s|
  {
    HeadIsElement(s);
    HeadIsElement(t);
    if s != [] {
      assert s[0] == t[0] by {
        var i :| 0 <= i < |s| && s[i] == t[0];
        var j :| 0 <= j < |t| && t[j] == s[0];
      }
      forall k ensures k in Elements(s[1..]) <==> k in Elements(t[1..]) {
        assert k in Elements(s) <==> k == s[0] || k in Elements(s[1..]);
        assert k in Elements(t) <==> k == t[0] || k in Elements(t[1..]);
      }
      SortedIsUnique(s[1..], t[1..], o);
      assert s == [s[0]] + s[1..] && t == [t[0]] + t[1..];
    }
  }

  /** The rows after the `n`th in the order are the tail of the sorted list. */
  lemma {:induction false} FollowingIsTail(keys: set<Key>, o: Order, n: nat)
    requires 0 < n <= |Sorted(keys, o)|
    ensures Sorted(Following(keys, o, Some(Sorted(keys, o)[n - 1])), o) == Sorted(keys, o)[n..]
  {
    var s := Sorted(keys, o);
    var later := Following(keys, o, Some(s[n - 1]));
    forall k ensures k in later <==> k in Elements(s[n..]) {
      if k in later {
        assert k in Elements(s);
        var i :| 0 <= i < |s| && s[i] == k;
        assert i >= n;
        assert s[n..][i - n] == k;
      }
      if k in Elements(s[n..]) {
        assert k in Elements(s);
      }
    }
    SortedIsUnique(Sorted(later, o), s[n..], o);
  }

  /** The first `limit` of a sorted set, and what is left out. */
  lemma {:induction false} FirstOfSorted(keys: set<Key>, o: Order, limit: nat)
    ensures var s := Take(Sorted(keys, o), limit);
      && |s| <= limit && InOrder(s, o)
      && (forall k | k in s :: k in keys)
      && (forall k | k in keys :: k in s || (|s| == limit && forall x | x in s :: Before(o, x, k)))
  {
    var all := Sorted(keys, o);
    var s := Take(all, limit);
    hide Sorted;
    forall k | k in s ensures k in keys {
      assert k in Elements(all);
    }
    assert forall i | 0 <= i < |s| :: s[i] == all[i];
    forall k | k in keys && k !in s ensures |s| == limit && forall x | x in s :: Before(o, x, k) {
      assert k in Elements(all);
      var i :| 0 <= i < |all| && all[i] == k;
    }
  }

  lemma {:induction false} SortedSize(keys: set<Key>, o: Order)
    ensures |Sorted(keys, o)| == |keys|
    decreases |keys|
  {
    if keys != {} {
      SortedSize(keys - {First(keys, o)}, o);
    }
  }

  // ---------- a fixed table: the pages are the sorted list ----------

  /** The pages a client gets that starts at `cursor` and follows `last_id` while there
      is more. */
  function Walk(keys: set<Key>, o: Order, limit: nat, cursor: Option<Key>): (pages: seq<Page>)
    requires limit >= 1
    ensures pages != []
    decreases |Sorted(Following(keys, o, cursor), o)|
  {
    var page := PageAfter(keys, o, limit, cursor);
    if !page.hasMore then [page]
    else
      NextPageIsShorter(keys, o, limit, cursor);
      [page] + Walk(keys, o, limit, LastKey(page))
  }

  function Concat(pages: seq<Page>): seq<Key> {
    if pages == [] then [] else pages[0].data + Concat(pages[1..])
  }

  lemma {:induction false} NextPageIsShorter(keys: set<Key>, o: Order, limit: nat, cursor: Option<Key>)
    requires limit >= 1 && PageAfter(keys, o, limit, cursor).hasMore
    ensures var s := Sorted(Following(keys, o, cursor), o);
      var page := PageAfter(keys, o, limit, cursor);
      && |s| > limit && page.data == s[..limit]
      && Sorted(Following(keys, o, LastKey(page)), o) == s[limit..]
  {
    hide Sorted;
    var rest := Following(keys, o, cursor);
    var s := Sorted(rest, o);
    var last := s[limit - 1];
    assert PageAfter(keys, o, limit, cursor).data == s[..limit];
    FollowingIsTail(rest, o, limit);
    assert last in Elements(s);
    assert Following(keys, o, Some(last)) == Following(rest, o, Some(last));
  }

  /** ceil(n / limit), but at least one page is always asked for. */
  function PageCount(n: nat, limit: nat): nat
    requires limit >= 1
  {
    if n == 0 then 1 else (n + limit - 1) / limit
  }

  /** `has_more` is true on every page but the last, and such a page is full. */
  predicate FullButTheLast(pages: seq<Page>, limit: nat) {
    forall i | 0 <= i < |pages| ::
      && (pages[i].hasMore <==> i < |pages| - 1)
      && (pages[i].hasMore ==> |pages[i].data| == limit)
  }

  /** On a fixed table the pages put together are the sorted list of the matching rows, every
      page but the last is full, `has_more` is true exactly when rows remain, and there are
      ceil(N/limit) pages, at least one. */
  lemma {:induction false} PagesAreTheList(keys: set<Key>, o: Order, limit: nat, cursor: Option<Key>)
    requires limit >= 1
    ensures var s := Sorted(Following(keys, o, cursor), o);
      var pages := Walk(keys, o, limit, cursor);
      Concat(pages) == s && |pages| == PageCount(|s|, limit) && FullButTheLast(pages, limit)
    decreases |Sorted(Following(keys, o, cursor), o)|
  {
    hide Sorted, Following, PageCount;
    var s := Sorted(Following(keys, o, cursor), o);
    var page := PageAfter(keys, o, limit, cursor);
    var pages := Walk(keys, o, limit, cursor);
    if page.hasMore {
      NextPageIsShorter(keys, o, limit, cursor);
      var rest := Walk(keys, o, limit, LastKey(page));
      assert pages == [page] + rest && pages[1..] == rest;
      PagesAreTheList(keys, o, limit, LastKey(page));
      OneMorePage(|s|, limit);
      FirstOfMany(page, rest, limit);
      assert s == s[..limit] + s[limit..];
    } else {
      assert pages == [page] && page.data == s;
      assert Concat(pages[1..]) == [];
      FewFitOnePage(|s|, limit);
    }
  }

  lemma {:induction false} FirstOfMany(page: Page, rest: seq<Page>, limit: nat)
    requires page.hasMore && |page.data| == limit && rest != [] && FullButTheLast(rest, limit)
    ensures FullButTheLast([page] + rest, limit)
  {
    var pages := [page] + rest;
    forall i | 0 <= i < |pages|
      ensures (pages[i].hasMore <==> i < |pages| - 1) && (pages[i].hasMore ==> |pages[i].data| == limit)
    {
      assert i > 0 ==> pages[i] == rest[i - 1];
    }
  }

  lemma {:induction false} OneMorePage(n: nat, limit: nat)
    requires 1 <= limit < n
    ensures PageCount(n, limit) == 1 + PageCount(n - limit, limit)
  {
    var q, r := (n - 1) / limit, (n - 1) % limit;
    Division.Quotient(q, r, limit);
    Division.Quotient(q + 1, r, limit);
    assert n + limit - 1 == (q + 1) * limit + r;
  }

  lemma {:induction false} FewFitOnePage(n: nat, limit: nat)
    requires n <= limit && 1 <= limit
    ensures PageCount(n, limit) == 1
  {
    assert 0 < n ==> limit <= n + limit - 1 < 2 * limit;
  }

  // ---------- a changing table ----------

  /** The table and the clock at the moment a page is made. */
  datatype Shot = Shot(rows: Table, now: int)

  function KeysAt(shot: Shot, q: Query): set<Key> {
    Matching(shot.rows, q, shot.now)
  }

  /** What a client gets that asks for the first page and then, while `has_more`, for the
      page after the `last_id` of the page before. */
  predicate ClientWalk(shots: seq<Shot>, pages: seq<Page>, q: Query, limit: nat) {
    && |shots| == |pages| > 0
    && forall i | 0 <= i < |pages| ::
         && pages[i] == ListFiles(shots[i].rows, q, shots[i].now, limit, if i == 0 then None else LastId(pages[i - 1]))
         && (pages[i].hasMore <==> i < |pages| - 1)
  }

  /** The row of the cursor is still there and the tenant's, marked or expired or not; or
      nothing that matches lies at or before its place. */
  predicate CursorHolds(shot: Shot, q: Query, k: Key) {
    Owned(shot.rows, k.id, q.tenant) || forall x | x in KeysAt(shot, q) :: Before(q.order, k, x)
  }

  /** So it is with each `last_id` when the next page is asked for. */
  predicate CursorsHold(shots: seq<Shot>, pages: seq<Page>, q: Query)
    requires |shots| == |pages|
  {
    forall i | 0 < i < |pages| :: LastKey(pages[i - 1]).Some? ==> CursorHolds(shots[i], q, LastKey(pages[i - 1]).value)
  }

  /** Page `n` is what follows the place of the last file of the page before. */
  predicate FollowsPlace(shots: seq<Shot>, pages: seq<Page>, q: Query, limit: nat, n: nat)
    requires n < |shots| == |pages|
  {
    pages[n] == PageAfter(KeysAt(shots[n], q), q.order, limit, if n == 0 then None else LastKey(pages[n - 1]))
  }

  /** The same walk with the cursor as a place in the order. */
  predicate KeyWalk(shots: seq<Shot>, pages: seq<Page>, q: Query, limit: nat, cursor: Option<Key>) {
    && |shots| == |pages| > 0
    && pages[0] == PageAfter(KeysAt(shots[0], q), q.order, limit, cursor)
    && (pages[0].hasMore <==> |pages| > 1)
    && (|pages| > 1 ==> KeyWalk(shots[1..], pages[1..], q, limit, LastKey(pages[0])))
  }

  /** Creation times do not change. */
  predicate KeysAreFixed(shots: seq<Shot>) {
    forall i, j, id | 0 <= i < j < |shots| && id in shots[i].rows && id in shots[j].rows ::
      shots[i].rows[id].createdAt == shots[j].rows[id].createdAt
  }

  lemma {:induction false} PageByPlace(shots: seq<Shot>, pages: seq<Page>, q: Query, limit: nat, n: nat)
    requires limit >= 1 && ClientWalk(shots, pages, q, limit) && KeysAreFixed(shots) && n < |shots| == |pages|
    ensures n == 0 || LastKey(pages[n - 1]).None? ==> FollowsPlace(shots, pages, q, limit, n)
    ensures n > 0 && LastKey(pages[n - 1]).Some? ==>
      (FollowsPlace(shots, pages, q, limit, n) <==> CursorHolds(shots[n], q, LastKey(pages[n - 1]).value))
    ensures pages[n].hasMore <==> n < |pages| - 1
  {
    hide Sorted, Following, ListFiles, PageAfter, KeysAt, KeysAreFixed, CursorHolds, KeyOf, ClientWalk, LastKey, LastId;
    PageAt(shots, pages, q, limit, n);
    if n == 0 {
      FirstByPlaceOrById(shots[n], q, limit);
    } else {
      IdOfKey(pages[n - 1]);
      if LastKey(pages[n - 1]).None? {
        FirstByPlaceOrById(shots[n], q, limit);
      } else {
        var k := LastKey(pages[n - 1]).value;
        PageAt(shots, pages, q, limit, n - 1);
        LastIsListed(shots[n - 1], q, limit, if n == 1 then None else LastId(pages[n - 2]));
        KeyStays(shots, q, n - 1, k);
        HoldsExactlyWhen(shots[n], q, limit, k);
      }
    }
  }

  lemma {:induction false} IdOfKey(page: Page)
    ensures LastKey(page).Some? <==> page.data != []
    ensures LastId(page) == if LastKey(page).Some? then Some(LastKey(page).value.id) else None
  {}

  lemma {:induction false} HoldsExactlyWhen(shot: Shot, q: Query, limit: nat, k: Key)
    requires limit >= 1 && (k.id in shot.rows ==> KeyOf(shot.rows, k.id) == k)
    ensures ListFiles(shot.rows, q, shot.now, limit, Some(k.id)) == PageAfter(KeysAt(shot, q), q.order, limit, Some(k))
      <==> CursorHolds(shot, q, k)
  {
    hide ListFiles, PageAfter;
    ContinuesExactlyWhen(shot.rows, q, shot.now, limit, k);
  }

  lemma {:induction false} KeyStays(shots: seq<Shot>, q: Query, n: nat, k: Key)
    requires KeysAreFixed(shots) && n + 1 < |shots| && k in KeysAt(shots[n], q)
    ensures k.id in shots[n + 1].rows ==> KeyOf(shots[n + 1].rows, k.id) == k
  {}

  /** The pages of a client go by the places of its cursors, as if the cursors were places,
      exactly when each cursor holds. */
  lemma {:induction false} ByPlaceExactlyWhen(shots: seq<Shot>, pages: seq<Page>, q: Query, limit: nat)
    requires limit >= 1 && ClientWalk(shots, pages, q, limit) && KeysAreFixed(shots)
    ensures (forall n: nat | n < |pages| :: FollowsPlace(shots, pages, q, limit, n)) <==> CursorsHold(shots, pages, q)
  {
    hide ClientWalk, KeysAreFixed, FollowsPlace, CursorHolds, LastKey;
    WalkHasShots(shots, pages, q, limit);
    forall n: nat | n < |pages|
      ensures n == 0 || LastKey(pages[n - 1]).None? ==> FollowsPlace(shots, pages, q, limit, n)
      ensures n > 0 && LastKey(pages[n - 1]).Some? ==>
        (FollowsPlace(shots, pages, q, limit, n) <==> CursorHolds(shots[n], q, LastKey(pages[n - 1]).value))
    {
      PageByPlace(shots, pages, q, limit, n);
    }
    forall i | 0 < i < |pages| && (forall n: nat | n < |pages| :: FollowsPlace(shots, pages, q, limit, n))
        && LastKey(pages[i - 1]).Some?
      ensures CursorHolds(shots[i], q, LastKey(pages[i - 1]).value)
    {
      assert FollowsPlace(shots, pages, q, limit, i);
    }
  }

  lemma {:induction false} WalkHasShots(shots: seq<Shot>, pages: seq<Page>, q: Query, limit: nat)
    requires ClientWalk(shots, pages, q, limit)
    ensures |shots| == |pages| > 0
  {}

  lemma {:induction false} ClientWalkIsKeyWalk(shots: seq<Shot>, pages: seq<Page>, q: Query, limit: nat, n: nat)
    requires limit >= 1 && ClientWalk(shots, pages, q, limit) && KeysAreFixed(shots)
    requires n < |shots| == |pages| && CursorsHold(shots, pages, q)
    ensures KeyWalk(shots[n..], pages[n..], q, limit, if n == 0 then None else LastKey(pages[n - 1]))
    decreases |pages| - n
  {
    PageByPlace(shots, pages, q, limit, n);
    assert FollowsPlace(shots, pages, q, limit, n);
    hide ClientWalk, CursorsHold, CursorHolds, KeysAreFixed, ListFiles, PageAfter, KeysAt, LastKey;
    var now, later := shots[n..], pages[n..];
    assert now[0] == shots[n] && later[0] == pages[n];
    if n + 1 < |pages| {
      ClientWalkIsKeyWalk(shots, pages, q, limit, n + 1);
      assert now[1..] == shots[n + 1..] && later[1..] == pages[n + 1..];
    }
  }

  lemma {:induction false} PageFacts(keys: set<Key>, o: Order, limit: nat, cursor: Option<Key>)
    requires limit >= 1
    ensures var page := PageAfter(keys, o, limit, cursor);
      && InOrder(page.data, o)
      && (forall k | k in page.data :: cursor.Some? ==> Before(o, cursor.value, k))
      && (forall k | k in page.data :: k in keys)
      && (page.hasMore ==> page.data != [])
      && (forall k | k in keys && (cursor.None? || Before(o, cursor.value, k)) ::
            k in page.data || (page.hasMore && Before(o, LastKey(page).value, k)))
  {
    var rest := Following(keys, o, cursor);
    var s := Sorted(rest, o);
    var page := PageAfter(keys, o, limit, cursor);
    hide Sorted;
    assert page.data == Take(s, limit);
    forall k | k in page.data ensures k in rest {
      assert k in Elements(s);
    }
    forall k | k in rest ensures k in page.data || (page.hasMore && Before(o, LastKey(page).value, k)) {
      assert k in Elements(s);
      var i :| 0 <= i < |s| && s[i] == k;
      if i < limit {
        assert page.data[i] == k;
      } else {
        assert LastKey(page).value == s[limit - 1];
      }
    }
  }

  lemma {:induction false} ConcatMembers(pages: seq<Page>, k: Key)
    requires pages != []
    ensures k in Concat(pages) <==> k in pages[0].data || k in Concat(pages[1..])
  {}

  lemma {:induction false} JoinsInOrder(s: seq<Key>, t: seq<Key>, o: Order)
    requires InOrder(s, o) && InOrder(t, o)
    requires s != [] && forall k | k in t :: Before(o, s[|s| - 1], k)
    ensures InOrder(s + t, o)
  {
    forall i, j | 0 <= i < j < |s + t| ensures Before(o, (s + t)[i], (s + t)[j]) {
      if j >= |s| {
        assert (s + t)[j] == t[j - |s|] && t[j - |s|] in t;
      }
    }
  }

  lemma {:induction false} PageMember(keys: set<Key>, o: Order, limit: nat, cursor: Option<Key>, k: Key)
    requires limit >= 1 && k in PageAfter(keys, o, limit, cursor).data
    ensures k in keys && (cursor.Some? ==> Before(o, cursor.value, k))
  {
    PageFacts(keys, o, limit, cursor);
  }

  lemma {:induction false} GoesOn(o: Order, a: Key, b: Key, c: Key)
    requires Before(o, a, b) && Before(o, b, c)
    ensures Before(o, a, c)
  {}

  /** The walk never goes back behind its cursor. */
  lemma {:induction false} WalkIsAfter(shots: seq<Shot>, pages: seq<Page>, q: Query, limit: nat,
                                       cursor: Option<Key>, k: Key)
    requires limit >= 1 && KeyWalk(shots, pages, q, limit, cursor)
    requires k in Concat(pages) && cursor.Some?
    ensures Before(q.order, cursor.value, k)
    decreases |pages|
  {
    hide PageAfter, KeysAt, Before;
    ConcatMembers(pages, k);
    if k in pages[0].data {
      PageMember(KeysAt(shots[0], q), q.order, limit, cursor, k);
    } else {
      var last := LastKey(pages[0]);
      PageFacts(KeysAt(shots[0], q), q.order, limit, cursor);
      assert last.value in pages[0].data;
      WalkIsAfter(shots[1..], pages[1..], q, limit, last, k);
      GoesOn(q.order, cursor.value, last.value, k);
    }
  }

  /** All pages together are in order, so no file is on two of them. */
  lemma {:induction false} WalkIsInOrder(shots: seq<Shot>, pages: seq<Page>, q: Query, limit: nat, cursor: Option<Key>)
    requires limit >= 1 && KeyWalk(shots, pages, q, limit, cursor)
    ensures InOrder(Concat(pages), q.order)
    decreases |pages|
  {
    PageFacts(KeysAt(shots[0], q), q.order, limit, cursor);
    hide PageAfter, KeysAt;
    var first, rest := pages[0].data, Concat(pages[1..]);
    if |pages| > 1 {
      WalkIsInOrder(shots[1..], pages[1..], q, limit, LastKey(pages[0]));
      forall k | k in rest ensures Before(q.order, first[|first| - 1], k) {
        WalkIsAfter(shots[1..], pages[1..], q, limit, LastKey(pages[0]), k);
      }
      hide KeyWalk;
      JoinsInOrder(first, rest, q.order);
    } else {
      assert rest == [] && Concat(pages) == first;
    }
  }

  /** A file that every shot lists, after the cursor, is on some page. */
  lemma {:induction false} WalkFindsFile(shots: seq<Shot>, pages: seq<Page>, q: Query, limit: nat,
                                         cursor: Option<Key>, k: Key)
    requires limit >= 1 && KeyWalk(shots, pages, q, limit, cursor)
    requires forall i | 0 <= i < |shots| :: k in KeysAt(shots[i], q)
    requires cursor.None? || Before(q.order, cursor.value, k)
    ensures k in Concat(pages)
    decreases |pages|
  {
    PageFacts(KeysAt(shots[0], q), q.order, limit, cursor);
    hide PageAfter, KeysAt;
    ConcatMembers(pages, k);
    if k !in pages[0].data {
      WalkFindsFile(shots[1..], pages[1..], q, limit, LastKey(pages[0]), k);
    }
  }

  predicate ListedThroughout(shots: seq<Shot>, q: Query, id: FileId) {
    forall i | 0 <= i < |shots| :: id in shots[i].rows && Matches(shots[i].rows[id], q, shots[i].now)
  }

  /** While other rows are added, marked, expired or removed between the pages, a complete
      walk lists no file twice, and lists every file that matched throughout exactly once,
      provided each cursor holds. */
  lemma {:induction false} PagingUnderChange(shots: seq<Shot>, pages: seq<Page>, q: Query, limit: nat)
    requires limit >= 1 && ClientWalk(shots, pages, q, limit) && KeysAreFixed(shots) && CursorsHold(shots, pages, q)
    ensures forall x, y | 0 <= x < y < |Concat(pages)| :: Concat(pages)[x].id != Concat(pages)[y].id
    ensures forall id | ListedThroughout(shots, q, id) :: exists x :: 0 <= x < |Concat(pages)| && Concat(pages)[x].id == id
  {
    var all := Concat(pages);
    assert shots[0..] == shots && pages[0..] == pages;
    ClientWalkIsKeyWalk(shots, pages, q, limit, 0);
    WalkIsInOrder(shots, pages, q, limit, None);
    forall x, y | 0 <= x < y < |all| ensures all[x].id != all[y].id {
      var i := PageOf(shots, pages, q, limit, None, all[x]);
      var j := PageOf(shots, pages, q, limit, None, all[y]);
      assert all[x] != all[y];
    }
    forall id | ListedThroughout(shots, q, id)
      ensures exists x :: 0 <= x < |all| && all[x].id == id
    {
      var k := KeyOf(shots[0].rows, id);
      forall i | 0 <= i < |shots| ensures k in KeysAt(shots[i], q) {
        assert id in shots[i].rows && Matches(shots[i].rows[id], q, shots[i].now);
        assert k == KeyOf(shots[i].rows, id);
      }
      WalkFindsFile(shots, pages, q, limit, None, k);
    }
  }

  lemma {:induction false} PageOf(shots: seq<Shot>, pages: seq<Page>, q: Query, limit: nat, cursor: Option<Key>,
                                  k: Key) returns (i: nat)
    requires limit >= 1 && KeyWalk(shots, pages, q, limit, cursor) && k in Concat(pages)
    ensures i < |shots| && k.id in shots[i].rows && KeyOf(shots[i].rows, k.id) == k
    decreases |pages|
  {
    PageFacts(KeysAt(shots[0], q), q.order, limit, cursor);
    hide PageAfter;
    ConcatMembers(pages, k);
    if k in pages[0].data {
      i := 0;
    } else {
      i := PageOf(shots[1..], pages[1..], q, limit, LastKey(pages[0]), k);
      i := i + 1;
    }
  }

  // ---------- a table at rest ----------

  lemma {:induction false} LastIsListed(shot: Shot, q: Query, limit: nat, after: Option<FileId>)
    requires limit >= 1
    ensures var page := ListFiles(shot.rows, q, shot.now, limit, after);
      page.data != [] ==>
        var k := LastKey(page).value; k in KeysAt(shot, q) && Cursor(shot.rows, q.tenant, Some(k.id)) == Some(k)
  {
    var cursor := Cursor(shot.rows, q.tenant, after);
    var page := PageAfter(KeysAt(shot, q), q.order, limit, cursor);
    PageFacts(KeysAt(shot, q), q.order, limit, cursor);
    assert ListFiles(shot.rows, q, shot.now, limit, after) == page;
    assert page.data != [] ==> LastKey(page).value in page.data;
    hide Sorted, Following;
  }

  lemma {:induction false} PageAt(shots: seq<Shot>, pages: seq<Page>, q: Query, limit: nat, i: nat)
    requires ClientWalk(shots, pages, q, limit) && i < |pages|
    ensures |shots| == |pages| && (pages[i].hasMore <==> i < |pages| - 1)
    ensures pages[i] == ListFiles(shots[i].rows, q, shots[i].now, limit, if i == 0 then None else LastId(pages[i - 1]))
  {}

  lemma {:induction false} CursorsOfFixedTable(shots: seq<Shot>, pages: seq<Page>, q: Query, limit: nat)
    requires limit >= 1 && ClientWalk(shots, pages, q, limit)
    requires forall i | 0 <= i < |shots| :: shots[i] == shots[0]
    ensures KeysAreFixed(shots) && CursorsHold(shots, pages, q)
  {
    hide ListFiles, KeysAt;
    forall i | 0 < i < |pages| && LastKey(pages[i - 1]).Some?
      ensures Owned(shots[i].rows, LastKey(pages[i - 1]).value.id, q.tenant)
    {
      assert shots[i - 1] == shots[0] == shots[i];
      var j := i - 1;
      var after := if j == 0 then None else LastId(pages[j - 1]);
      PageAt(shots, pages, q, limit, j);
      LastIsListed(shots[j], q, limit, after);
    }
  }

  lemma {:induction false} KeyWalkIsWalk(shots: seq<Shot>, pages: seq<Page>, q: Query, limit: nat,
                                         cursor: Option<Key>, shot: Shot)
    requires limit >= 1 && KeyWalk(shots, pages, q, limit, cursor)
    requires forall i | 0 <= i < |shots| :: shots[i] == shot
    ensures pages == Walk(KeysAt(shot, q), q.order, limit, cursor)
    decreases |pages|
  {
    hide PageAfter, KeysAt;
    if |pages| > 1 {
      KeyWalkIsWalk(shots[1..], pages[1..], q, limit, LastKey(pages[0]), shot);
      assert pages == [pages[0]] + pages[1..];
    } else {
      assert pages == [pages[0]];
    }
  }

  /** When nothing changes between the pages they are the sorted list cut in pieces: every
      matching file once and in order, all pages but the last full, `has_more` true exactly
      while rows remain, ceil(N/limit) pages. */
  lemma {:induction false} PagingRefinesSorting(shots: seq<Shot>, pages: seq<Page>, q: Query, limit: nat)
    requires limit >= 1 && ClientWalk(shots, pages, q, limit)
    requires forall i | 0 <= i < |shots| :: shots[i] == shots[0]
    ensures Concat(pages) == Sorted(KeysAt(shots[0], q), q.order)
    ensures |pages| == PageCount(|KeysAt(shots[0], q)|, limit) && FullButTheLast(pages, limit)
  {
    hide PageCount, FullButTheLast, ListFiles;
    CursorsOfFixedTable(shots, pages, q, limit);
    ClientWalkIsKeyWalk(shots, pages, q, limit, 0);
    assert shots[0..] == shots && pages[0..] == pages;
    KeyWalkIsWalk(shots, pages, q, limit, None, shots[0]);
    PagesAreTheList(KeysAt(shots[0], q), q.order, limit, None);
    SortedSize(KeysAt(shots[0], q), q.order);
  }

  lemma {:induction false} WalkSteps(keys: set<Key>, o: Order, limit: nat, cursor: Option<Key>, i: nat)
    requires limit >= 1 && i < |Walk(keys, o, limit, cursor)|
    ensures var pages := Walk(keys, o, limit, cursor);
      pages[i] == PageAfter(keys, o, limit, if i == 0 then cursor else LastKey(pages[i - 1]))
    decreases i
  {
    hide PageAfter;
    if i > 0 {
      var page := PageAfter(keys, o, limit, cursor);
      WalkSteps(keys, o, limit, LastKey(page), i - 1);
    }
  }

  /** A page of the walk is the page a client gets for the `last_id` of the page before. */
  lemma {:induction false} WalkPageByPlaceOrById(shot: Shot, q: Query, limit: nat, i: nat)
    requires limit >= 1 && i < |Walk(KeysAt(shot, q), q.order, limit, None)|
    requires FullButTheLast(Walk(KeysAt(shot, q), q.order, limit, None), limit)
    ensures var pages := Walk(KeysAt(shot, q), q.order, limit, None);
      pages[i] == ListFiles(shot.rows, q, shot.now, limit, if i == 0 then None else LastId(pages[i - 1]))
  {
    hide Walk, Sorted, KeysAt, PageAfter, ListFiles, LastKey, LastId;
    var keys := KeysAt(shot, q);
    var pages := Walk(keys, q.order, limit, None);
    WalkSteps(keys, q.order, limit, None, i);
    if i > 0 {
      WalkSteps(keys, q.order, limit, None, i - 1);
      ByPlaceOrById(shot, q, limit, if i == 1 then None else LastKey(pages[i - 2]));
    } else {
      FirstByPlaceOrById(shot, q, limit);
    }
  }

  /** Such a walk exists: following `last_id` comes to an end. */
  lemma {:induction false} WalkEnds(shot: Shot, q: Query, limit: nat) returns (shots: seq<Shot>, pages: seq<Page>)
    requires limit >= 1
    ensures ClientWalk(shots, pages, q, limit) && forall i | 0 <= i < |shots| :: shots[i] == shot
  {
    hide Walk, Sorted, KeysAt, PageAfter, ListFiles, LastId, Concat, FullButTheLast, ClientWalk, PageCount;
    var keys := KeysAt(shot, q);
    pages := Walk(keys, q.order, limit, None);
    shots := seq(|pages|, i => shot);
    PagesAreTheList(keys, q.order, limit, None);
    forall i | 0 <= i < |pages|
      ensures pages[i] == ListFiles(shot.rows, q, shot.now, limit, if i == 0 then None else LastId(pages[i - 1]))
    {
      WalkPageByPlaceOrById(shot, q, limit, i);
    }
    IsClientWalk(shots, pages, q, limit, shot);
  }

  lemma {:induction false} IsClientWalk(shots: seq<Shot>, pages: seq<Page>, q: Query, limit: nat, shot: Shot)
    requires |shots| == |pages| > 0 && FullButTheLast(pages, limit)
    requires forall i | 0 <= i < |shots| :: shots[i] == shot
    requires forall i | 0 <= i < |pages| ::
      pages[i] == ListFiles(shot.rows, q, shot.now, limit, if i == 0 then None else LastId(pages[i - 1]))
    ensures ClientWalk(shots, pages, q, limit)
  {
    hide ListFiles;
  }

  lemma {:induction false} FirstByPlaceOrById(shot: Shot, q: Query, limit: nat)
    ensures PageAfter(KeysAt(shot, q), q.order, limit, None) == ListFiles(shot.rows, q, shot.now, limit, None)
  {}

  /** The page after the last file of a page, found by its place or by its ID. */
  lemma {:induction false} ByPlaceOrById(shot: Shot, q: Query, limit: nat, cursor: Option<Key>)
    requires limit >= 1 && PageAfter(KeysAt(shot, q), q.order, limit, cursor).hasMore
    ensures var page := PageAfter(KeysAt(shot, q), q.order, limit, cursor);
      PageAfter(KeysAt(shot, q), q.order, limit, LastKey(page))
        == ListFiles(shot.rows, q, shot.now, limit, LastId(page))
  {
    PageFacts(KeysAt(shot, q), q.order, limit, cursor);
    var page := PageAfter(KeysAt(shot, q), q.order, limit, cursor);
    var last := LastKey(page).value;
    assert last in page.data;
    assert Cursor(shot.rows, q.tenant, LastId(page)) == Some(last);
    hide Sorted, Following;
  }

  // ---------- a cursor that is gone ----------

  /** A page continues after the place `k` of its cursor exactly when the cursor's row still
      exists for the tenant, or nothing at or before that place matches.  Otherwise it
      starts again from the top. */
  lemma {:induction false} ContinuesExactlyWhen(rows: Table, q: Query, now: int, limit: nat, k: Key)
    requires limit >= 1 && (k.id in rows ==> KeyOf(rows, k.id) == k)
    ensures ListFiles(rows, q, now, limit, Some(k.id)) == PageAfter(Matching(rows, q, now), q.order, limit, Some(k))
      <==> Owned(rows, k.id, q.tenant) || forall x | x in Matching(rows, q, now) :: Before(q.order, k, x)
    ensures !Owned(rows, k.id, q.tenant) ==>
      ListFiles(rows, q, now, limit, Some(k.id)) == ListFiles(rows, q, now, limit, None)
  {
    hide Sorted, Matching;
    var keys := Matching(rows, q, now);
    var later := Following(keys, q.order, Some(k));
    if forall x | x in keys :: Before(q.order, k, x) {
      assert later == keys;
    } else if !Owned(rows, k.id, q.tenant) {
      var x :| x in keys && x !in later;
      var s := Sorted(keys, q.order);
      assert x in Elements(s);
      var i :| 0 <= i < |s| && s[i] == x;
      assert s[0] !in later;
      PageFacts(keys, q.order, limit, Some(k));
      assert ListFiles(rows, q, now, limit, Some(k.id)).data[0] == s[0];
    }
  }

  /** A processed file as the service leaves it, created at second `id`. */
  function File(id: FileId): Row {
    Row("t", "batch", Processed, Path("t", id), Some(Path("t", id)), None, id, 0, None)
  }

  const THREE: Table := map[1 := File(1), 2 := File(2), 3 := File(3)]
  const EVERYTHING: Query := Query("t", "", Asc)

  /** What is listed of THREE once the files in `gone` are removed, in order. */
  lemma {:induction false} SortedWithout(gone: set<FileId>, s: seq<Key>)
    requires InOrder(s, Asc)
    requires forall id | id in THREE :: id !in gone <==> Key(THREE[id].createdAt, id) in s
    requires forall k | k in s :: k.id in THREE && k.createdAt == THREE[k.id].createdAt
    ensures Sorted(Matching(THREE - gone, EVERYTHING, 9), Asc) == s
  {
    var keys := Matching(THREE - gone, EVERYTHING, 9);
    forall k ensures k in keys <==> k in Elements(s) {
      if k in s {
        assert k.id in THREE - gone && k == KeyOf(THREE - gone, k.id);
      }
    }
    SortedIsUnique(Sorted(keys, Asc), s, Asc);
  }

  /** A client that lists three files two by two, oldest first, gets the first one twice when
      the second, its cursor, is removed between the two pages. */
  lemma {:induction false} RemovedCursorRepeats(shots: seq<Shot>, pages: seq<Page>)
    requires shots == [Shot(THREE, 9), Shot(THREE - {2}, 9)]
    requires pages == [Page([Key(1, 1), Key(2, 2)], true), Page([Key(1, 1), Key(3, 3)], false)]
    ensures ClientWalk(shots, pages, EVERYTHING, 2)
    ensures |Concat(pages)| == 4 && Concat(pages)[0] == Concat(pages)[2]
  {
    BeforeTheRemoval();
    AfterTheRemoval();
    hide ListFiles;
    assert LastId(pages[0]) == Some(2);
    var rest := pages[1..];
    assert rest == [pages[1]] && rest[1..] == [];
    assert Concat(rest) == pages[1].data;
    assert Concat(pages) == pages[0].data + pages[1].data;
  }

  lemma {:induction false} BeforeTheRemoval()
    ensures ListFiles(THREE, EVERYTHING, 9, 2, None) == Page([Key(1, 1), Key(2, 2)], true)
  {
    assert THREE - {} == THREE;
    SortedWithout({}, [Key(1, 1), Key(2, 2), Key(3, 3)]);
    hide Sorted, Matching;
  }

  lemma {:induction false} AfterTheRemoval()
    ensures ListFiles(THREE - {2}, EVERYTHING, 9, 2, Some(2)) == Page([Key(1, 1), Key(3, 3)], false)
  {
    SortedWithout({2}, [Key(1, 1), Key(3, 3)]);
    hide Sorted, Matching;
  }
}
