/**
 What an operator reads off the tree order (agent-live-panel.ts): which rows are listed,
 and who comes first among the rows that hang from the same row.
 */
module LiveRowSiblings {
  import opened Wrappers
  import opened LiveRows
  import opened LiveRowForest
  import opened LiveRowOrder

  /** Some row `a` stands before some row `b`. */
  ghost predicate Before(rows: seq<Row>, a: string, b: string) {
    exists i, j :: 0 <= i < j < |rows| && rows[i].id == a && rows[j].id == b
  }

  // ---- a filter keeps the order ----

  lemma FilterHead(rows: seq<Row>, keep: Row -> bool)
    requires rows != []
    ensures var all, rest := Filter(rows, keep), Filter(rows[1..], keep);
            if keep(rows[0]) then
              |all| == |rest| + 1 && all[0] == rows[0] && forall k :: 0 < k < |all| ==> all[k] == rest[k - 1]
            else all == rest
  {}

  lemma FilterHas(rows: seq<Row>, keep: Row -> bool, r: Row)
    ensures r in Filter(rows, keep) <==> r in rows && keep(r)
  {}

  lemma {:induction false} FilterPlaces(rows: seq<Row>, keep: Row -> bool, i: nat, j: nat) returns (p: nat, q: nat)
    requires i < j < |Filter(rows, keep)|
    ensures p < q < |rows| && rows[p] == Filter(rows, keep)[i] && rows[q] == Filter(rows, keep)[j]
  {
    FilterSome(rows, keep);
    FilterHead(rows, keep);
    hide Filter;
    if keep(rows[0]) && i == 0 {
      q := FilterRest(rows, keep, j);
      p := 0;
    } else {
      var back := if keep(rows[0]) then 1 else 0;
      p, q := FilterPlaces(rows[1..], keep, i - back, j - back);
      p, q := p + 1, q + 1;
    }
  }

  lemma FilterRest(rows: seq<Row>, keep: Row -> bool, j: nat) returns (q: nat)
    requires rows != [] && keep(rows[0]) && 0 < j < |Filter(rows, keep)|
    ensures 0 < q < |rows| && rows[q] == Filter(rows, keep)[j]
  {
    FilterHead(rows, keep);
    var tail, rest := rows[1..], Filter(rows[1..], keep);
    FilterHas(tail, keep, rest[j - 1]);
    hide Filter;
    q := PlaceOf(tail, rest[j - 1]);
    q := q + 1;
  }

  lemma FilterSome(rows: seq<Row>, keep: Row -> bool)
    ensures Filter(rows, keep) != [] ==> rows != []
  {}

  lemma {:induction false} FilterPlace(rows: seq<Row>, keep: Row -> bool, p: nat, q: nat) returns (i: nat, j: nat)
    requires p < q < |rows| && keep(rows[p]) && keep(rows[q])
    ensures i < j < |Filter(rows, keep)| && Filter(rows, keep)[i] == rows[p] && Filter(rows, keep)[j] == rows[q]
  {
    hide Filter;
    FilterHead(rows, keep);
    var tail := rows[1..];
    var shift := if keep(rows[0]) then 1 else 0;
    assert tail[q - 1] == rows[q];
    if p > 0 {
      assert tail[p - 1] == rows[p];
      i, j := FilterPlace(tail, keep, p - 1, q - 1);
      i := i + shift;
    } else {
      FilterHas(tail, keep, rows[q]);
      j := PlaceOf(Filter(tail, keep), rows[q]);
      i := 0;
    }
    j := j + shift;
  }

  lemma PlaceOf(rows: seq<Row>, r: Row) returns (j: nat)
    requires r in rows
    ensures j < |rows| && rows[j] == r
  {
    j :| 0 <= j < |rows| && rows[j] == r;
  }

  lemma FilterBefore(rows: seq<Row>, keep: Row -> bool, i: nat, j: nat)
    requires i < j < |Filter(rows, keep)|
    ensures Before(rows, Filter(rows, keep)[i].id, Filter(rows, keep)[j].id)
  {
    var p, q := FilterPlaces(rows, keep, i, j);
  }

  /** The rows that stay stand as they did. */
  lemma DropBefore(rows: seq<Row>, i: nat, j: nat)
    requires i < j < |Drop(rows)|
    ensures Before(rows, Drop(rows)[i].id, Drop(rows)[j].id)
  {
    hide Filter, Dropped, SurvivingAncestor;
    FilterBefore(rows, Survives(rows), i, j);
    hide Before;
    assert Drop(rows)[i] == Rehung(rows)(Filter(rows, Survives(rows))[i]);
    assert Drop(rows)[j] == Rehung(rows)(Filter(rows, Survives(rows))[j]);
  }

  lemma KidsBefore(rows: seq<Row>, keep: Row -> bool, i: nat, j: nat)
    requires i < j < |Filter(Drop(rows), keep)|
    ensures Before(rows, Filter(Drop(rows), keep)[i].id, Filter(Drop(rows), keep)[j].id)
  {
    hide Filter, Drop, Before;
    var p, q := FilterPlaces(Drop(rows), keep, i, j);
    DropBefore(rows, p, q);
  }

  // ---- who is listed ----

  /** A heading of fewer than two agents, which is not listed. */
  predicate SmallHeading(r: Row) {
    r.grouped && (r.groupTotal.None? || r.groupTotal.value < 2)
  }

  /**
   Every row but the small headings is listed, once, as it was: only the parent may have
   changed, and only if it was a small heading.
   */
  lemma ListsAllButSmallHeadings(rows: seq<Row>)
    requires DistinctIds(rows)
    ensures DistinctIds(Order(rows))
    ensures forall r :: r in rows && !SmallHeading(r) ==>
              exists m :: m in Order(rows) && m == r.(parent := m.parent)
                && ((forall h :: h in rows && SmallHeading(h) ==> r.parent != Some(h.id)) ==> m == r)
    ensures forall m :: m in Order(rows) ==> exists r :: r in rows && !SmallHeading(r) && m == r.(parent := m.parent)
  {
    OrderLosesNothing(rows);
    hide Order;
    forall r | r in rows && !SmallHeading(r)
      ensures exists m :: m in Order(rows) && m == r.(parent := m.parent)
                && ((forall h :: h in rows && SmallHeading(h) ==> r.parent != Some(h.id)) ==> m == r)
    {
      NotSmallSurvives(rows, r);
      SurvivorIsListed(rows, r);
      RehungSays(rows, r);
      hide Drop, Rehung;
      assert Rehung(rows)(r) in Order(rows);
    }
    forall m | m in Order(rows)
      ensures exists r :: r in rows && !SmallHeading(r) && m == r.(parent := m.parent)
    {
      hide Drop;
      var r := DropComesFrom(rows, m);
      RehungSays(rows, r);
      hide Rehung;
      assert r.id in Dropped(rows) || !SmallHeading(r);
    }
  }

  lemma NotSmallSurvives(rows: seq<Row>, r: Row)
    requires DistinctIds(rows) && r in rows && !SmallHeading(r)
    ensures r.id !in Dropped(rows)
  {
    forall h | h in rows && BelowThreshold(h)
      ensures h.id != r.id
    {
      if h.id == r.id {
        SameIdSameRow(rows, h, r);
      }
    }
  }

  lemma RehungSays(rows: seq<Row>, r: Row)
    ensures Rehung(rows)(r) == r.(parent := Rehung(rows)(r).parent)
    ensures (forall h :: h in rows && SmallHeading(h) ==> r.parent != Some(h.id)) ==> Rehung(rows)(r) == r
  {
    hide SurvivingAncestor;
  }

  // ---- who comes first ----

  ghost predicate Siblings(rows: seq<Row>, x: Row, y: Row) {
    if HasParent(rows, x) then y.parent == x.parent else !HasParent(rows, y)
  }

  /** Among the rows of one heading: working rows, then errors, then queued, then the finished ones. */
  predicate MayPrecede(x: Status, y: Status) {
    && (y == Working ==> x == Working)
    && (y == Error ==> x == Working || x == Error)
    && (y == Queued ==> x == Working || x == Error || x == Queued)
  }

  predicate Alike(x: Status, y: Status) {
    x == y || (x == Done && y == Cancelled) || (x == Cancelled && y == Done)
  }

  lemma RanksSay(x: Status, y: Status)
    ensures DisplayRank(x) <= DisplayRank(y) <==> MayPrecede(x, y)
    ensures DisplayRank(x) == DisplayRank(y) <==> Alike(x, y)
  {}

  /** Ordered members keep the order in which they came, rank by rank. */
  lemma MembersSay(rows: seq<Row>, i: nat, j: nat)
    requires i < j < |OrderMembers(rows)|
    ensures var x, y := OrderMembers(rows)[i], OrderMembers(rows)[j];
            MayPrecede(x.status, y.status) && (Alike(x.status, y.status) ==> Before(rows, x.id, y.id))
  {
    OrderMembersIsStableSort(rows);
    var x, y := OrderMembers(rows)[i], OrderMembers(rows)[j];
    RanksSay(x.status, y.status);
    if Alike(x.status, y.status) {
      hide OrderMembers, SortedByRank, Filter, MayPrecede, Before;
      var rank := DisplayRank(x.status);
      var a, b := FilterPlace(OrderMembers(rows), HasRank(rank), i, j);
      assert OfRank(OrderMembers(rows), rank) == OfRank(rows, rank);
      FilterBefore(rows, HasRank(rank), a, b);
    }
  }

  lemma SiblingsInKids(ordered: seq<Row>, p: string, i: nat, j: nat) returns (a: nat, b: nat)
    requires i < j < |ordered| && ordered[i].parent == Some(p) && ordered[j].parent == Some(p)
    ensures a < b < |Kids(ordered, p)| && Kids(ordered, p)[a] == ordered[i] && Kids(ordered, p)[b] == ordered[j]
  {
    a, b := FilterPlace(ordered, IsKid(p), i, j);
  }

  /** What is said of two rows in the list, `x` before `y`, that hang from the row `h`. */
  ghost predicate RightOrder(rows: seq<Row>, grouped: bool, x: Row, y: Row) {
    if grouped then MayPrecede(x.status, y.status) && (Alike(x.status, y.status) ==> Before(rows, x.id, y.id))
    else Before(rows, x.id, y.id)
  }

  lemma ChildrenSay(rows: seq<Row>, p: Row, a: nat, b: nat)
    requires a < b < |ChildrenOf(Drop(rows))(p)|
    ensures RightOrder(rows, p.grouped, ChildrenOf(Drop(rows))(p)[a], ChildrenOf(Drop(rows))(p)[b])
  {
    hide Drop, OrderMembers, MayPrecede, Alike;
    var kids := Kids(Drop(rows), p.id);
    if p.grouped {
      MembersSay(kids, a, b);
      var x, y := OrderMembers(kids)[a], OrderMembers(kids)[b];
      if Alike(x.status, y.status) {
        var i, j :| 0 <= i < j < |kids| && kids[i].id == x.id && kids[j].id == y.id;
        KidsBefore(rows, IsKid(p.id), i, j);
      }
    } else {
      KidsBefore(rows, IsKid(p.id), a, b);
    }
  }

  /**
   Of two listed rows that hang from the same row, or from none, the first is the one that
   came first in the input. Only under a heading it is working rows before errors before
   queued ones before the finished, in input order where that does not decide.
   */
  lemma SiblingsAreOrdered(rows: seq<Row>, d: string -> nat, n: nat, i: nat, j: nat)
    requires DistinctIds(rows) && Ranked(rows, d, n) && i < j < |Order(rows)|
    requires Siblings(Order(rows), Order(rows)[i], Order(rows)[j])
    ensures var ordered := Order(rows);
            var x := ordered[i];
            RightOrder(rows, HasParent(ordered, x) && Parent(ordered, x).grouped, x, ordered[j])
  {
    hide Order, Drop, RightOrder, Filter, DistinctIds, Ranked;
    OrderKeepsSiblings(rows, d, n);
    OrderLosesNothing(rows);
    var ordered := Order(rows);
    var x, y := ordered[i], ordered[j];
    if HasParent(ordered, x) {
      var p := Parent(ordered, x);
      assert p in Drop(rows);
      var a, b := SiblingsInKids(ordered, p.id, i, j);
      ChildrenSay(rows, p, a, b);
    } else {
      var a, b := FilterPlace(ordered, IsRoot(ordered), i, j);
      RootsSay(rows, a, b);
    }
  }

  lemma RootsSay(rows: seq<Row>, a: nat, b: nat)
    requires a < b < |Roots(Drop(rows))|
    ensures RightOrder(rows, false, Roots(Drop(rows))[a], Roots(Drop(rows))[b])
  {
    KidsBefore(rows, IsRoot(Drop(rows)), a, b);
  }
}
