/**
 Live agent rows and the list operations both row projections are built from
 (agent-live-panel.ts, fleet-menu.ts). Displayed text is opaque: `body` stands for it.
 */
module LiveRows {
  import opened Wrappers

  datatype Status = Queued | Working | Done | Cancelled | Error

  datatype Tokens = Tokens(input: int, output: int)

  /** `grouped` says that the row is a group heading. */
  datatype Row = Row(
    id: string,
    parent: Option<string>,
    run: Option<string>,
    grouped: bool,
    groupTotal: Option<int>,
    groupCompleted: Option<int>,
    groupFailed: Option<int>,
    tokens: Option<Tokens>,
    status: Status,
    body: nat)

  function Ids(rows: seq<Row>): set<string> {
    set r | r in rows :: r.id
  }

  ghost predicate DistinctIds(rows: seq<Row>) {
    forall i, j :: 0 <= i < j < |rows| ==> rows[i].id != rows[j].id
  }

  /** The row an id stands for. */
  function Find(rows: seq<Row>, id: string): (found: Option<Row>)
    ensures found.Some? ==> found.value in rows && found.value.id == id
    ensures found.Some? <==> id in Ids(rows)
  {
    if rows == [] then None
    else if rows[|rows| - 1].id == id then Some(rows[|rows| - 1])
    else Find(rows[..|rows| - 1], id)
  }

  lemma FoundIsTheOne(rows: seq<Row>, r: Row)
    requires DistinctIds(rows) && r in rows
    ensures Find(rows, r.id) == Some(r)
  {
    var i :| 0 <= i < |rows| && rows[i] == r;
    var found := Find(rows, r.id);
    assert r.id in Ids(rows);
    var j :| 0 <= j < |rows| && rows[j] == found.value;
  }

  lemma SameIdSameRow(rows: seq<Row>, a: Row, b: Row)
    requires DistinctIds(rows) && a in rows && b in rows && a.id == b.id
    ensures a == b
  {
    FoundIsTheOne(rows, a);
    FoundIsTheOne(rows, b);
  }

  // ---- filters ----

  function Filter(rows: seq<Row>, keep: Row -> bool): (kept: seq<Row>)
    ensures forall r :: r in kept <==> r in rows && keep(r)
  {
    if rows == [] then [] else (if keep(rows[0]) then [rows[0]] else []) + Filter(rows[1..], keep)
  }

  lemma {:induction false} FilterConcat(a: seq<Row>, b: seq<Row>, keep: Row -> bool)
    ensures Filter(a + b, keep) == Filter(a, keep) + Filter(b, keep)
  {
    if a == [] {
      assert a + b == b;
    } else {
      assert (a + b)[1..] == a[1..] + b;
      FilterConcat(a[1..], b, keep);
    }
  }

  lemma {:induction false} FilterAll(rows: seq<Row>, keep: Row -> bool)
    requires forall r :: r in rows ==> keep(r)
    ensures Filter(rows, keep) == rows
  {
    if rows != [] {
      FilterAll(rows[1..], keep);
    }
  }

  lemma {:induction false} FilterNone(rows: seq<Row>, keep: Row -> bool)
    requires forall r :: r in rows ==> !keep(r)
    ensures Filter(rows, keep) == []
  {
    if rows != [] {
      FilterNone(rows[1..], keep);
    }
  }

  lemma {:induction false} FilterCommutes(rows: seq<Row>, f: Row -> bool, g: Row -> bool)
    ensures Filter(Filter(rows, f), g) == Filter(Filter(rows, g), f)
  {
    if rows != [] {
      FilterCommutes(rows[1..], f, g);
      FilterConcat(if f(rows[0]) then [rows[0]] else [], Filter(rows[1..], f), g);
      FilterConcat(if g(rows[0]) then [rows[0]] else [], Filter(rows[1..], g), f);
    }
  }

  lemma FilterTwice(rows: seq<Row>, f: Row -> bool)
    ensures Filter(Filter(rows, f), f) == Filter(rows, f)
  {
    FilterAll(Filter(rows, f), f);
  }

  lemma {:induction false} FilterDistinct(rows: seq<Row>, keep: Row -> bool)
    requires DistinctIds(rows)
    ensures DistinctIds(Filter(rows, keep))
  {
    if rows != [] {
      FilterDistinct(rows[1..], keep);
      forall r | r in Filter(rows[1..], keep)
        ensures r.id != rows[0].id
      {
        var k :| 0 <= k < |rows[1..]| && rows[1..][k] == r;
        assert rows[k + 1] == r;
      }
    }
  }

  // ---- permutations ----

  /** The same rows, in whatever order. */
  ghost predicate SameRows(a: seq<Row>, b: seq<Row>) {
    forall r :: r in a <==> r in b
  }

  lemma SameRowsFind(a: seq<Row>, b: seq<Row>, id: string)
    requires DistinctIds(a) && DistinctIds(b) && SameRows(a, b)
    ensures Find(a, id) == Find(b, id)
  {
    SameRowsIds(a, b);
    if id in Ids(a) {
      FoundIsTheOne(b, Find(a, id).value);
    }
  }

  lemma SameRowsIds(a: seq<Row>, b: seq<Row>)
    requires SameRows(a, b)
    ensures Ids(a) == Ids(b)
  {}

  // ---- stable order of group members ----

  /** What the operator needs to see first. */
  function DisplayRank(status: Status): nat {
    match status
    case Working => 0
    case Error => 1
    case Queued => 2
    case Done => 3
    case Cancelled => 3
  }

  function HasRank(rank: nat): Row -> bool {
    (r: Row) => DisplayRank(r.status) == rank
  }

  function OfRank(rows: seq<Row>, rank: nat): seq<Row> {
    Filter(rows, HasRank(rank))
  }

  /** The one stable order by rank: each rank's rows in their own order, ranks in turn. */
  function OrderMembers(rows: seq<Row>): (ordered: seq<Row>)
    ensures SameRows(ordered, rows)
  {
    OfRank(rows, 0) + OfRank(rows, 1) + OfRank(rows, 2) + OfRank(rows, 3)
  }

  ghost predicate SortedByRank(rows: seq<Row>) {
    forall i, j :: 0 <= i < j < |rows| ==> DisplayRank(rows[i].status) <= DisplayRank(rows[j].status)
  }

  lemma OfRankOrdered(rows: seq<Row>, rank: nat)
    ensures OfRank(OrderMembers(rows), rank) == OfRank(rows, rank)
  {
    var p0, p1, p2, p3 := OfRank(rows, 0), OfRank(rows, 1), OfRank(rows, 2), OfRank(rows, 3);
    FilterConcat(p0 + p1 + p2, p3, HasRank(rank));
    FilterConcat(p0 + p1, p2, HasRank(rank));
    FilterConcat(p0, p1, HasRank(rank));
    OfRankOfRank(rows, 0, rank);
    OfRankOfRank(rows, 1, rank);
    OfRankOfRank(rows, 2, rank);
    OfRankOfRank(rows, 3, rank);
    if rank > 3 {
      FilterNone(rows, HasRank(rank));
    }
  }

  lemma OfRankOfRank(rows: seq<Row>, a: nat, b: nat)
    ensures OfRank(OfRank(rows, a), b) == if a == b then OfRank(rows, a) else []
  {
    if a == b {
      FilterTwice(rows, HasRank(a));
    } else {
      FilterNone(OfRank(rows, a), HasRank(b));
    }
  }

  /** Sorted, and stable: no two rows of one rank change places. */
  lemma OrderMembersIsStableSort(rows: seq<Row>)
    ensures SortedByRank(OrderMembers(rows))
    ensures forall rank: nat :: OfRank(OrderMembers(rows), rank) == OfRank(rows, rank)
  {
    forall rank: nat
      ensures OfRank(OrderMembers(rows), rank) == OfRank(rows, rank)
    {
      OfRankOrdered(rows, rank);
    }
    OrderMembersSorted(rows);
  }

  lemma OrderMembersSorted(rows: seq<Row>)
    ensures SortedByRank(OrderMembers(rows))
  {
    hide OfRank;
    hide SortedByRank;
    hide DisplayRank;
    var p0, p1, p2, p3 := OfRank(rows, 0), OfRank(rows, 1), OfRank(rows, 2), OfRank(rows, 3);
    OneRankSorted(rows, 0);
    OneRankSorted(rows, 1);
    OneRankSorted(rows, 2);
    OneRankSorted(rows, 3);
    SortedConcat(p0, p1);
    SortedConcat(p0 + p1, p2);
    SortedConcat(p0 + p1 + p2, p3);
  }

  lemma OneRankSorted(rows: seq<Row>, rank: nat)
    ensures SortedByRank(OfRank(rows, rank))
    ensures forall r :: r in OfRank(rows, rank) ==> DisplayRank(r.status) == rank
  {
    var bucket := OfRank(rows, rank);
    forall i | 0 <= i < |bucket|
      ensures DisplayRank(bucket[i].status) == rank
    {
      assert bucket[i] in bucket;
    }
  }

  lemma SortedConcat(a: seq<Row>, b: seq<Row>)
    requires SortedByRank(a) && SortedByRank(b)
    requires forall x, y :: x in a && y in b ==> DisplayRank(x.status) <= DisplayRank(y.status)
    ensures SortedByRank(a + b)
    ensures forall r :: r in a + b ==> r in a || r in b
  {
    forall i, j | 0 <= i < j < |a + b|
      ensures DisplayRank((a + b)[i].status) <= DisplayRank((a + b)[j].status)
    {
      if i < |a| <= j {
        assert (a + b)[i] in a && (a + b)[j] in b;
      }
    }
  }

  /** A stable sort by rank is determined by the rows of each rank, whatever algorithm made it. */
  lemma {:induction false} StableSortIsUnique(a: seq<Row>, b: seq<Row>)
    requires SortedByRank(a) && SortedByRank(b)
    requires forall rank: nat :: OfRank(a, rank) == OfRank(b, rank)
    ensures a == b
  {
    assert a != [] ==> OfRank(a, DisplayRank(a[0].status)) != [];
    assert b != [] ==> OfRank(b, DisplayRank(b[0].status)) != [];
    if a == [] || b == [] {
      assert a == b;
    } else {
      var ra, rb := DisplayRank(a[0].status), DisplayRank(b[0].status);
      assert OfRank(a, ra)[0] == a[0] && OfRank(b, rb)[0] == b[0];
      assert b[0] in OfRank(a, rb) && a[0] in OfRank(b, ra);
      assert a[0] == b[0];
      forall rank: nat
        ensures OfRank(a[1..], rank) == OfRank(b[1..], rank)
      {
        var head := if ra == rank then [a[0]] else [];
        assert OfRank(a, rank) == head + OfRank(a[1..], rank);
        assert OfRank(b, rank) == head + OfRank(b[1..], rank);
        assert OfRank(a[1..], rank) == OfRank(a, rank)[|head|..];
        assert OfRank(b[1..], rank) == OfRank(b, rank)[|head|..];
      }
      StableSortIsUnique(a[1..], b[1..]);
    }
  }

  lemma OrderMembersTwice(rows: seq<Row>)
    ensures OrderMembers(OrderMembers(rows)) == OrderMembers(rows)
  {
    OfRankOrdered(rows, 0);
    OfRankOrdered(rows, 1);
    OfRankOrdered(rows, 2);
    OfRankOrdered(rows, 3);
  }

  lemma OfRankDistinct(rows: seq<Row>, rank: nat)
    requires DistinctIds(rows)
    ensures DistinctIds(OfRank(rows, rank))
  {
    FilterDistinct(rows, HasRank(rank));
  }

  lemma OrderMembersDistinct(rows: seq<Row>)
    requires DistinctIds(rows)
    ensures DistinctIds(OrderMembers(rows))
  {
    OfRankDistinct(rows, 0);
    OfRankDistinct(rows, 1);
    OfRankDistinct(rows, 2);
    OfRankDistinct(rows, 3);
    DisjointRanks(rows, 0, 1);
    DisjointRanks(rows, 0, 2);
    DisjointRanks(rows, 0, 3);
    DisjointRanks(rows, 1, 2);
    DisjointRanks(rows, 1, 3);
    DisjointRanks(rows, 2, 3);
    var p0, p1, p2, p3 := OfRank(rows, 0), OfRank(rows, 1), OfRank(rows, 2), OfRank(rows, 3);
    DistinctConcat(p0, p1);
    DistinctConcat(p0 + p1, p2);
    DistinctConcat(p0 + p1 + p2, p3);
  }

  lemma DisjointRanks(rows: seq<Row>, a: nat, b: nat)
    requires DistinctIds(rows) && a != b
    ensures Ids(OfRank(rows, a)) !! Ids(OfRank(rows, b))
  {
    forall x, y | x in OfRank(rows, a) && y in OfRank(rows, b)
      ensures x.id != y.id
    {
      if x.id == y.id {
        SameIdSameRow(rows, x, y);
      }
    }
  }

  lemma DistinctConcat(a: seq<Row>, b: seq<Row>)
    requires DistinctIds(a) && DistinctIds(b) && Ids(a) !! Ids(b)
    ensures DistinctIds(a + b) && Ids(a + b) == Ids(a) + Ids(b)
  {
    forall i | 0 <= i < |a| ensures a[i].id in Ids(a) { assert a[i] in a; }
    forall j | 0 <= j < |b| ensures b[j].id in Ids(b) { assert b[j] in b; }
    forall r
      ensures r in a + b <==> r in a || r in b
    {}
  }
}
