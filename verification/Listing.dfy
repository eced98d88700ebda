/** Listing a fixed table page by page: LEFT JOIN with the poster row, WHERE, ORDER BY
    created_at DESC, id DESC, LIMIT and OFFSET, each page being a query of its own. */
module Listing {
  import opened Records

  /** A row as stored; the table is scanned in an order of the database's choosing. */
  datatype Entry = Entry(id: Id, createdAt: int, row: Row)

  datatype Joined = Joined(upload: Entry, poster: Option<Entry>)

  /** The owner and the optional filters of a request. */
  datatype Query = Query(owner: string, kind: Option<Kind>, status: Option<Status>, visibility: Option<Visibility>)

  predicate Selects(q: Query, e: Entry) {
    && e.row.owner == q.owner
    && (q.kind.Some? ==> e.row.kind == q.kind.value)
    && (q.status.Some? ==> e.row.status == q.status.value)
    && (q.visibility.Some? ==> e.row.visibility == q.visibility.value)
  }

  /** What a request asks for, on the columns: the owner's rows, each filter unset or met. */
  ghost predicate AskedFor(q: Query, row: Row) {
    && row.owner == q.owner && q.kind in {None, Some(row.kind)}
    && q.status in {None, Some(row.status)} && q.visibility in {None, Some(row.visibility)}
  }

  lemma SelectsWhatIsAskedFor(q: Query, e: Entry)
    ensures Selects(q, e) <==> AskedFor(q, e.row)
  {
  }

  /** The primary key. */
  ghost predicate UniqueIds(table: seq<Entry>) {
    forall i, j :: 0 <= i < j < |table| ==> table[i].id != table[j].id
  }

  /** Which rows a request is about. */
  ghost function SelectedAt(table: seq<Entry>, q: Query): set<int> {
    set i | 0 <= i < |table| && AskedFor(q, table[i].row)
  }

  // ----- The query, as SQL means it ------------------------------------------------------------

  /** Every row of `table` the join condition pairs with `e`. */
  function Matches(e: Entry, table: seq<Entry>): seq<Entry> {
    if table == [] then []
    else Matches(e, table[..|table| - 1]) +
         if e.row.poster == Some(table[|table| - 1].id) then [table[|table| - 1]] else []
  }

  function Pairs(e: Entry, posters: seq<Entry>): seq<Joined> {
    if posters == [] then [Joined(e, None)]
    else seq(|posters|, i requires 0 <= i < |posters| => Joined(e, Some(posters[i])))
  }

  function LeftJoin(left: seq<Entry>, table: seq<Entry>): seq<Joined> {
    if left == [] then []
    else LeftJoin(left[..|left| - 1], table) + Pairs(left[|left| - 1], Matches(left[|left| - 1], table))
  }

  function Where(q: Query, s: seq<Joined>): seq<Joined> {
    if s == [] then [] else Where(q, s[..|s| - 1]) + if Selects(q, s[|s| - 1].upload) then [s[|s| - 1]] else []
  }

  predicate Before(a: Joined, b: Joined) {
    a.upload.createdAt > b.upload.createdAt || (a.upload.createdAt == b.upload.createdAt && a.upload.id > b.upload.id)
  }

  ghost predicate InOrder(s: seq<Joined>) {
    forall i, j :: 0 <= i < j < |s| ==> !Before(s[j], s[i])
  }

  /** Some order the database may give the selected rows; equal keys come in any order. */
  ghost predicate Ordering(table: seq<Entry>, q: Query, all: seq<Joined>) {
    multiset(all) == multiset(Where(q, LeftJoin(table, table))) && InOrder(all)
  }

  function Slice(all: seq<Joined>, limit: nat, offset: nat): seq<Joined> {
    if offset >= |all| then [] else if offset + limit >= |all| then all[offset..] else all[offset..offset + limit]
  }

  /** What `list` may return: a slice of some order, chosen for this query alone. */
  ghost predicate Answer(table: seq<Entry>, q: Query, limit: nat, offset: nat, page: seq<Joined>) {
    exists all :: Ordering(table, q, all) && page == Slice(all, limit, offset)
  }

  lemma SelectedNext(table: seq<Entry>, q: Query, i: nat)
    requires i < |table|
    ensures SelectedAt(table[..i + 1], q) == SelectedAt(table[..i], q) + if AskedFor(q, table[i].row) then {i} else {}
    ensures |SelectedAt(table[..i + 1], q)| == |SelectedAt(table[..i], q)| + if AskedFor(q, table[i].row) then 1 else 0
  {
    assert SelectedAt(table[..i + 1], q) == SelectedAt(table[..i], q) + if AskedFor(q, table[i].row) then {i} else {};
  }

  /** `count`: no join, same filters. */
  method Count(table: seq<Entry>, q: Query) returns (n: nat)
    ensures n == |SelectedAt(table, q)|
  {
    n := 0;
    for i := 0 to |table|
      invariant n == |SelectedAt(table[..i], q)|
    {
      SelectedNext(table, q, i);
      SelectsWhatIsAskedFor(q, table[i]);
      if Selects(q, table[i]) { n := n + 1; }
    }
    assert table[..|table|] == table;
  }

  // ----- The join neither drops nor duplicates ------------------------------------------------------

  /** At most one row is an upload's poster. */
  lemma {:induction false} AtMostOneMatch(e: Entry, table: seq<Entry>)
    requires UniqueIds(table)
    ensures |Matches(e, table)| <= 1
    ensures forall p :: p in Matches(e, table) ==> p in table && e.row.poster == Some(p.id)
    ensures forall p :: p in table && e.row.poster == Some(p.id) ==> Matches(e, table) == [p]
  {
    if table != [] {
      var n := |table| - 1;
      var before, last := Matches(e, table[..n]), table[n];
      AtMostOneMatch(e, table[..n]);
      if before != [] {
        var p := before[0];
        assert p in before;
        var k :| 0 <= k < n && table[..n][k] == p;
        assert table[k].id != last.id && e.row.poster == Some(p.id);
        assert Matches(e, table) == before;
      } else {
        assert Matches(e, table) == if e.row.poster == Some(last.id) then [last] else [];
      }
      assert table == table[..n] + [last];
    }
  }

  /** What a row is joined with. */
  ghost predicate JoinedWell(j: Joined, e: Entry, table: seq<Entry>) {
    && j.upload == e
    && (j.poster.Some? ==> j.poster.value in table && e.row.poster == Some(j.poster.value.id))
    && (j.poster.None? ==> forall p :: p in table ==> e.row.poster != Some(p.id))
  }

  /** So each upload is joined with exactly one pair. */
  lemma OnePair(e: Entry, table: seq<Entry>)
    requires UniqueIds(table)
    ensures var pairs := Pairs(e, Matches(e, table)); |pairs| == 1 && JoinedWell(pairs[0], e, table)
  {
    AtMostOneMatch(e, table);
    if Matches(e, table) != [] { assert Matches(e, table)[0] in Matches(e, table); }
  }

  lemma OneMorePair(a: seq<Joined>, b: seq<Joined>, left: seq<Entry>, table: seq<Entry>)
    requires left != [] && |a| == |left| - 1 && |b| == 1
    requires forall i :: 0 <= i < |a| ==> JoinedWell(a[i], left[i], table)
    requires JoinedWell(b[0], left[|left| - 1], table)
    ensures |a + b| == |left| && forall i :: 0 <= i < |left| ==> JoinedWell((a + b)[i], left[i], table)
  {
  }

  lemma {:induction false} JoinIsOneToOne(left: seq<Entry>, table: seq<Entry>)
    requires UniqueIds(table)
    ensures |LeftJoin(left, table)| == |left|
    ensures forall i :: 0 <= i < |left| ==> JoinedWell(LeftJoin(left, table)[i], left[i], table)
  {
    if left != [] {
      var n := |left| - 1;
      var front, pairs := LeftJoin(left[..n], table), Pairs(left[n], Matches(left[n], table));
      JoinIsOneToOne(left[..n], table);
      OnePair(left[n], table);
      assert LeftJoin(left, table) == front + pairs;
      forall i | 0 <= i < n ensures JoinedWell(front[i], left[i], table) { assert left[..n][i] == left[i]; }
      OneMorePair(front, pairs, left, table);
    }
  }

  ghost predicate DistinctUploads(s: seq<Joined>) {
    forall i, j :: 0 <= i < j < |s| ==> s[i].upload.id != s[j].upload.id
  }

  lemma {:induction false} WhereSelects(q: Query, s: seq<Joined>)
    ensures forall j :: j in Where(q, s) <==> j in s && Selects(q, j.upload)
  {
    if s != [] {
      var n := |s| - 1;
      WhereSelects(q, s[..n]);
      assert s == s[..n] + [s[n]];
    }
  }

  lemma {:induction false} WhereKeepsDistinct(q: Query, s: seq<Joined>)
    requires DistinctUploads(s)
    ensures DistinctUploads(Where(q, s))
  {
    if s != [] {
      var n := |s| - 1;
      WhereKeepsDistinct(q, s[..n]);
      WhereSelects(q, s[..n]);
      var w := Where(q, s[..n]);
      forall i | 0 <= i < |w| ensures w[i].upload.id != s[n].upload.id {
        assert w[i] in w && w[i] in s[..n];
      }
    }
  }

  lemma {:induction false} WhereCounts(q: Query, s: seq<Joined>, table: seq<Entry>)
    requires |s| == |table| && forall i :: 0 <= i < |s| ==> s[i].upload == table[i]
    ensures |Where(q, s)| == |SelectedAt(table, q)|
  {
    if s != [] {
      var n := |s| - 1;
      WhereCounts(q, s[..n], table[..n]);
      SelectedNext(table, q, n);
      SelectsWhatIsAskedFor(q, table[n]);
      assert table[..n + 1] == table;
    }
  }

  // ----- The order is total -------------------------------------------------------------------------

  lemma OccursOnce(s: seq<Joined>, x: Joined)
    requires DistinctUploads(s)
    ensures multiset(s)[x] <= 1
  {
    if x in s {
      var i :| 0 <= i < |s| && s[i] == x;
      assert s == s[..i] + [x] + s[i + 1..];
      assert x !in s[..i] && x !in s[i + 1..];
    }
  }

  lemma OccursTwice(s: seq<Joined>, i: nat, j: nat)
    requires i < j < |s| && s[i] == s[j]
    ensures multiset(s)[s[i]] >= 2
  {
    assert s == s[..j] + [s[j]] + s[j + 1..];
    assert s[i] in s[..j];
  }

  /** Rearranging rows with distinct ids keeps them distinct. */
  lemma StillDistinct(s: seq<Joined>, t: seq<Joined>)
    requires DistinctUploads(s) && multiset(s) == multiset(t)
    ensures DistinctUploads(t)
  {
    forall i, j | 0 <= i < j < |t| ensures t[i].upload.id != t[j].upload.id {
      assert t[i] in multiset(s) && t[j] in multiset(s);
      if t[i] == t[j] { OccursTwice(t, i, j); OccursOnce(s, t[i]); }
    }
  }

  lemma TailElements(s: seq<Joined>)
    requires s != []
    ensures multiset(s[1..]) == multiset(s) - multiset{s[0]}
  {
    assert s == [s[0]] + s[1..];
  }

  lemma SameHead(s: seq<Joined>, t: seq<Joined>)
    requires DistinctUploads(s) && multiset(s) == multiset(t) && InOrder(s) && InOrder(t) && s != [] && t != []
    ensures s[0] == t[0]
  {
    assert s[0] in multiset(t) && t[0] in multiset(s);
    var i :| 0 <= i < |t| && t[i] == s[0];
    var j :| 0 <= j < |s| && s[j] == t[0];
    assert i > 0 ==> !Before(t[i], t[0]);
    assert j > 0 ==> !Before(s[j], s[0]);
  }

  /** Rows with distinct ids can be put in order in one way only. */
  lemma {:induction false} OneOrder(s: seq<Joined>, t: seq<Joined>)
    requires DistinctUploads(s) && multiset(s) == multiset(t) && InOrder(s) && InOrder(t)
    ensures s == t
    decreases |s|
  {
    assert |s| == |multiset(s)| == |multiset(t)| == |t|;
    if s != [] {
      SameHead(s, t);
      TailElements(s);
      TailElements(t);
      OneOrder(s[1..], t[1..]);
      assert s == [s[0]] + s[1..] && t == [t[0]] + t[1..];
    }
  }

  /** An order lists the selected rows of the table, joined, and each of them once. */
  ghost predicate ListsSelected(table: seq<Entry>, q: Query, all: seq<Joined>) {
    && |all| == |SelectedAt(table, q)|
    && (forall i, j :: 0 <= i < j < |all| ==> NewerFirst(all[i].upload, all[j].upload))
    && (forall i :: 0 <= i < |all| ==>
          all[i].upload in table && AskedFor(q, all[i].upload.row) && JoinedWell(all[i], all[i].upload, table))
    && (forall e :: e in table && AskedFor(q, e.row) ==> exists i :: 0 <= i < |all| && all[i].upload == e)
  }

  /** Newest first, and among rows of one moment the larger id. */
  ghost predicate NewerFirst(a: Entry, b: Entry) {
    b.createdAt < a.createdAt || (b.createdAt == a.createdAt && b.id < a.id)
  }

  /** Every element of an order is a selected row with its own poster. */
  lemma ListedIsSelected(table: seq<Entry>, q: Query, all: seq<Joined>, i: nat)
    requires UniqueIds(table) && Ordering(table, q, all) && i < |all|
    ensures all[i].upload in table && Selects(q, all[i].upload) && JoinedWell(all[i], all[i].upload, table)
  {
    var join := LeftJoin(table, table);
    JoinIsOneToOne(table, table);
    WhereSelects(q, join);
    assert all[i] in multiset(Where(q, join)) && all[i] in Where(q, join);
    var k :| 0 <= k < |join| && join[k] == all[i];
    assert JoinedWell(join[k], table[k], table);
  }

  /** Every selected row is in every order. */
  lemma SelectedIsListed(table: seq<Entry>, q: Query, all: seq<Joined>, e: Entry)
    requires UniqueIds(table) && Ordering(table, q, all) && e in table && Selects(q, e)
    ensures exists i :: 0 <= i < |all| && all[i].upload == e
  {
    var join := LeftJoin(table, table);
    JoinIsOneToOne(table, table);
    WhereSelects(q, join);
    var k :| 0 <= k < |table| && table[k] == e;
    assert JoinedWell(join[k], table[k], table);
    assert join[k] in Where(q, join) && join[k] in multiset(all) && join[k] in all;
  }

  lemma OrderedAndCounted(table: seq<Entry>, q: Query, all: seq<Joined>)
    requires UniqueIds(table) && Ordering(table, q, all)
    ensures DistinctUploads(all) && |all| == |SelectedAt(table, q)|
    ensures forall i, j :: 0 <= i < j < |all| ==> NewerFirst(all[i].upload, all[j].upload)
  {
    var join := LeftJoin(table, table);
    var w := Where(q, join);
    JoinIsOneToOne(table, table);
    forall i | 0 <= i < |join| ensures join[i].upload == table[i] { assert JoinedWell(join[i], table[i], table); }
    WhereKeepsDistinct(q, join);
    WhereCounts(q, join, table);
    StillDistinct(w, all);
    assert |all| == |multiset(all)| == |multiset(w)| == |w|;
    forall i, j | 0 <= i < j < |all| ensures NewerFirst(all[i].upload, all[j].upload) {
      assert !Before(all[j], all[i]) && all[i].upload.id != all[j].upload.id;
    }
  }

  lemma SelectedRows(table: seq<Entry>, q: Query, all: seq<Joined>)
    requires UniqueIds(table) && Ordering(table, q, all)
    ensures DistinctUploads(all) && ListsSelected(table, q, all)
  {
    OrderedAndCounted(table, q, all);
    forall i | 0 <= i < |all|
      ensures all[i].upload in table && AskedFor(q, all[i].upload.row) && JoinedWell(all[i], all[i].upload, table)
    {
      ListedIsSelected(table, q, all, i);
      SelectsWhatIsAskedFor(q, all[i].upload);
    }
    forall e | e in table && AskedFor(q, e.row) ensures exists i :: 0 <= i < |all| && all[i].upload == e {
      SelectsWhatIsAskedFor(q, e);
      SelectedIsListed(table, q, all, e);
    }
  }

  // ----- Pages ------------------------------------------------------------------------------------

  ghost function Flatten(pages: seq<seq<Joined>>): seq<Joined> {
    if pages == [] then [] else Flatten(pages[..|pages| - 1]) + pages[|pages| - 1]
  }

  /** 0, L, 2L, ... */
  ghost function PageOffset(k: nat, limit: nat): (offset: nat)
    ensures offset == k * limit
  {
    if k == 0 then 0 else PageOffset(k - 1, limit) + limit
  }

  ghost function Upto(all: seq<Joined>, n: nat): seq<Joined> {
    if n >= |all| then all else all[..n]
  }

  lemma NextSlice(all: seq<Joined>, limit: nat, offset: nat)
    ensures Upto(all, offset) + Slice(all, limit, offset) == Upto(all, offset + limit)
  {
  }

  lemma {:induction false} SlicesAddUp(all: seq<Joined>, limit: nat, pages: seq<seq<Joined>>)
    requires forall k :: 0 <= k < |pages| ==> pages[k] == Slice(all, limit, PageOffset(k, limit))
    ensures Flatten(pages) == Upto(all, PageOffset(|pages|, limit))
  {
    if pages != [] {
      var n := |pages| - 1;
      SlicesAddUp(all, limit, pages[..n]);
      NextSlice(all, limit, PageOffset(n, limit));
    }
  }

  lemma PageIsShort(table: seq<Entry>, q: Query, limit: nat, offset: nat, page: seq<Joined>)
    requires Answer(table, q, limit, offset, page)
    ensures |page| <= limit
  {
    var all :| Ordering(table, q, all) && page == Slice(all, limit, offset);
  }

  /** Pages at offsets 0, L, 2L, ..., each answered in an order of its own, put end to end:
      every selected row of the owner exactly once, newest first, as many as `count` says,
      and each with its poster if that exists. */
  lemma PagesAreTheListing(table: seq<Entry>, q: Query, limit: nat, pages: seq<seq<Joined>>)
    requires UniqueIds(table) && limit > 0
    requires forall k :: 0 <= k < |pages| ==> Answer(table, q, limit, PageOffset(k, limit), pages[k])
    requires PageOffset(|pages|, limit) >= |SelectedAt(table, q)|
    ensures ListsSelected(table, q, Flatten(pages))
  {
    var all := OrderBy(Where(q, LeftJoin(table, table)));
    SelectedRows(table, q, all);
    forall k | 0 <= k < |pages| ensures pages[k] == Slice(all, limit, PageOffset(k, limit)) {
      OneAnswer(table, q, limit, PageOffset(k, limit), pages[k]);
    }
    SlicesAddUp(all, limit, pages);
  }

  // ----- There is such an order ------------------------------------------------------------------------

  lemma InFront(x: Joined, s: seq<Joined>)
    requires InOrder(s) && forall y :: y in s ==> !Before(y, x)
    ensures InOrder([x] + s)
  {
  }

  function Insert(x: Joined, s: seq<Joined>): (t: seq<Joined>)
    requires InOrder(s)
    ensures InOrder(t) && multiset(t) == multiset(s) + multiset{x}
  {
    if s == [] then [x]
    else if !Before(s[0], x) then
      assert InOrder([x] + s) by {
        forall y | y in s ensures !Before(y, x) {
          var k :| 0 <= k < |s| && s[k] == y;
          assert k > 0 ==> !Before(s[k], s[0]);
        }
        InFront(x, s);
      }
      [x] + s
    else
      var rest := Insert(x, s[1..]);
      assert s == [s[0]] + s[1..];
      assert InOrder([s[0]] + rest) by {
        forall y | y in rest ensures !Before(y, s[0]) {
          assert y in multiset(rest);
          assert y == x || y in s[1..];
        }
        InFront(s[0], rest);
      }
      [s[0]] + rest
  }

  function OrderBy(s: seq<Joined>): (t: seq<Joined>)
    ensures InOrder(t) && multiset(t) == multiset(s)
  {
    if s == [] then [] else
      assert s == s[..|s| - 1] + [s[|s| - 1]];
      Insert(s[|s| - 1], OrderBy(s[..|s| - 1]))
  }

  /** Every request has an answer, and only one. */
  lemma OneAnswer(table: seq<Entry>, q: Query, limit: nat, offset: nat, page: seq<Joined>)
    requires UniqueIds(table)
    ensures Answer(table, q, limit, offset, page) <==>
              page == Slice(OrderBy(Where(q, LeftJoin(table, table))), limit, offset)
  {
    var all := OrderBy(Where(q, LeftJoin(table, table)));
    assert Ordering(table, q, all);
    SelectedRows(table, q, all);
    if Answer(table, q, limit, offset, page) {
      var own :| Ordering(table, q, own) && page == Slice(own, limit, offset);
      OneOrder(all, own);
    }
  }
}
