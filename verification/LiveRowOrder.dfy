/**
 The tree order of live rows (agent-live-panel.ts): headings of fewer than two
 agents go and their children climb to the nearest surviving ancestor; the rest
 is listed parents first, group members by rank.
 */
module LiveRowOrder {
  import opened Wrappers
  import opened LiveRows
  import opened LiveRowForest
  import opened Sizes

  function Mapped(rows: seq<Row>, f: Row -> Row): (mapped: seq<Row>)
    ensures |mapped| == |rows|
    ensures forall i :: 0 <= i < |rows| ==> mapped[i] == f(rows[i])
    ensures forall r :: r in rows ==> f(r) in mapped
    ensures forall m :: m in mapped ==> exists r :: r in rows && f(r) == m
  {
    if rows == [] then [] else [f(rows[0])] + Mapped(rows[1..], f)
  }

  // ---- small group headings ----

  predicate BelowThreshold(r: Row) {
    r.grouped && (match r.groupTotal case Some(total) => total case None => 0) < 2
  }

  function Dropped(rows: seq<Row>): set<string> {
    set r | r in rows && BelowThreshold(r) :: r.id
  }

  function ParentOf(rows: seq<Row>, id: string): Option<string> {
    match Find(rows, id)
    case Some(r) => r.parent
    case None => None
  }

  /** Climbs past dropped rows; stops where the climb would repeat itself. */
  function SurvivingAncestor(rows: seq<Row>, dropped: set<string>, candidate: Option<string>, seen: set<string>)
    : Option<string>
    decreases |dropped - seen|
  {
    if candidate.Some? && candidate.value in dropped && candidate.value !in seen then
      assert dropped - (seen + {candidate.value}) < dropped - seen;
      Shrinks(dropped - (seen + {candidate.value}), dropped - seen);
      SurvivingAncestor(rows, dropped, ParentOf(rows, candidate.value), seen + {candidate.value})
    else
      candidate
  }

  function Rehung(rows: seq<Row>): Row -> Row {
    (r: Row) =>
      if r.parent.Some? && r.parent.value in Dropped(rows)
      then r.(parent := SurvivingAncestor(rows, Dropped(rows), r.parent, {}))
      else r
  }

  function Survives(rows: seq<Row>): Row -> bool {
    (r: Row) => r.id !in Dropped(rows)
  }

  function Drop(rows: seq<Row>): seq<Row> {
    Mapped(Filter(rows, Survives(rows)), Rehung(rows))
  }

  // ---- tree order ----

  function ChildrenOf(kept: seq<Row>): Row -> seq<Row> {
    (r: Row) => if r.grouped then OrderMembers(Kids(kept, r.id)) else Kids(kept, r.id)
  }

  /** What of `kept` is not yet ordered. */
  function Missing(kept: seq<Row>, ordered: seq<Row>): nat {
    |Ids(kept) - Ids(ordered)|
  }

  lemma MissingShrinks(kept: seq<Row>, ordered: seq<Row>, longer: seq<Row>)
    requires ordered <= longer
    ensures Missing(kept, longer) <= Missing(kept, ordered)
    ensures (exists r :: r in kept && r in longer && r.id !in Ids(ordered)) ==>
              Missing(kept, longer) < Missing(kept, ordered)
  {
    assert forall r :: r in ordered ==> r in longer;
    var a, b := Ids(kept) - Ids(longer), Ids(kept) - Ids(ordered);
    assert a <= b;
    forall r | r in kept && r in longer && r.id !in Ids(ordered)
      ensures a != b
    {
      assert r.id in b && r.id !in a;
    }
    if a != b {
      Shrinks(a, b);
    }
  }

  /** Depth first, each row once: a row is listed, then its children. */
  function AppendTree(kept: seq<Row>, ordered: seq<Row>, row: Row): (longer: seq<Row>)
    requires row in kept
    ensures ordered <= longer
    decreases Missing(kept, ordered), 0
  {
    if row.id in Ids(ordered) then ordered
    else
      assert row in ordered + [row];
      MissingShrinks(kept, ordered, ordered + [row]);
      ChildrenAreKept(kept, row);
      AppendAll(kept, ordered + [row], ChildrenOf(kept)(row))
  }

  function AppendAll(kept: seq<Row>, ordered: seq<Row>, list: seq<Row>): (longer: seq<Row>)
    requires forall c :: c in list ==> c in kept
    ensures ordered <= longer
    decreases Missing(kept, ordered), |list|
  {
    if list == [] then ordered
    else
      var once := AppendTree(kept, ordered, list[0]);
      MissingShrinks(kept, ordered, once);
      AppendAll(kept, once, list[1..])
  }

  lemma {:induction false} AppendTreeAdds(kept: seq<Row>, ordered: seq<Row>, row: Row)
    requires row in kept && DistinctIds(ordered)
    ensures row.id in Ids(AppendTree(kept, ordered, row)) && DistinctIds(AppendTree(kept, ordered, row))
    ensures forall r :: r in AppendTree(kept, ordered, row) ==> r in ordered || r in kept
    decreases Missing(kept, ordered), 0
  {
    if row.id !in Ids(ordered) {
      var kids := ChildrenOf(kept)(row);
      assert row in ordered + [row];
      MissingShrinks(kept, ordered, ordered + [row]);
      ChildrenAreKept(kept, row);
      AppendOne(ordered, row);
      AppendAllAdds(kept, ordered + [row], kids);
      PrefixIds(ordered + [row], AppendAll(kept, ordered + [row], kids));
    }
  }

  lemma {:induction false} AppendAllAdds(kept: seq<Row>, ordered: seq<Row>, list: seq<Row>)
    requires (forall c :: c in list ==> c in kept) && DistinctIds(ordered)
    ensures DistinctIds(AppendAll(kept, ordered, list))
    ensures forall c :: c in list ==> c.id in Ids(AppendAll(kept, ordered, list))
    ensures forall r :: r in AppendAll(kept, ordered, list) ==> r in ordered || r in kept
    decreases Missing(kept, ordered), |list|
  {
    if list != [] {
      var once := AppendTree(kept, ordered, list[0]);
      AppendTreeAdds(kept, ordered, list[0]);
      MissingShrinks(kept, ordered, once);
      AppendAllAdds(kept, once, list[1..]);
      PrefixIds(once, AppendAll(kept, once, list[1..]));
    }
  }

  lemma PrefixIds(a: seq<Row>, b: seq<Row>)
    requires a <= b
    ensures Ids(a) <= Ids(b)
  {
    assert forall r :: r in a ==> r in b;
  }

  lemma ChildrenAreKept(kept: seq<Row>, row: Row)
    ensures forall c :: c in ChildrenOf(kept)(row) <==> c in kept && c.parent == Some(row.id)
  {
    var kids := Kids(kept, row.id);
    assert SameRows(OrderMembers(kids), kids);
  }

  lemma AppendOne(ordered: seq<Row>, row: Row)
    requires row.id !in Ids(ordered)
    ensures DistinctIds(ordered) ==> DistinctIds(ordered + [row])
    ensures forall r :: r in ordered + [row] ==> r in ordered || r == row
  {
    forall i | 0 <= i < |ordered| ensures ordered[i].id in Ids(ordered) { assert ordered[i] in ordered; }
  }

  /** Roots first, then whatever no root leads to. */
  function Order(rows: seq<Row>): seq<Row> {
    var kept := Drop(rows);
    AppendAll(kept, AppendAll(kept, [], Roots(kept)), kept)
  }

  // ---- what the heading filter keeps ----

  lemma {:induction false} MappedDistinct(rows: seq<Row>, f: Row -> Row)
    requires DistinctIds(rows) && forall r :: r in rows ==> f(r).id == r.id
    ensures DistinctIds(Mapped(rows, f))
  {
    var mapped := Mapped(rows, f);
    forall i | 0 <= i < |rows|
      ensures mapped[i].id == rows[i].id
    {
      assert rows[i] in rows;
    }
  }

  /** The row a kept row was before its parent was replaced. */
  lemma DropComesFrom(rows: seq<Row>, m: Row) returns (r: Row)
    requires m in Drop(rows)
    ensures r in rows && r.id !in Dropped(rows) && Rehung(rows)(r) == m && r.id == m.id
    ensures BelowThreshold(m) <==> BelowThreshold(r)
  {
    r :| r in Filter(rows, Survives(rows)) && Rehung(rows)(r) == m;
    RehungIsLevel(rows, r);
  }

  lemma SurvivorIsListed(rows: seq<Row>, r: Row)
    requires r in rows && r.id !in Dropped(rows)
    ensures Rehung(rows)(r) in Drop(rows) && r.id in Ids(Drop(rows))
  {
    assert r in Filter(rows, Survives(rows));
    assert Rehung(rows)(r).id == r.id;
  }

  lemma DropIds(rows: seq<Row>)
    ensures Ids(Drop(rows)) == Ids(rows) - Dropped(rows)
    ensures DistinctIds(rows) ==> DistinctIds(Drop(rows))
    ensures Dropped(Drop(rows)) == {}
  {
    if DistinctIds(rows) {
      FilterDistinct(rows, Survives(rows));
      MappedDistinct(Filter(rows, Survives(rows)), Rehung(rows));
    }
    hide Drop, Rehung, BelowThreshold, DistinctIds;
    forall m | m in Drop(rows)
      ensures m.id in Ids(rows) - Dropped(rows) && !BelowThreshold(m)
    {
      var r := DropComesFrom(rows, m);
    }
    forall id | id in Ids(rows) - Dropped(rows)
      ensures id in Ids(Drop(rows))
    {
      var r :| r in rows && r.id == id;
      SurvivorIsListed(rows, r);
    }
  }

  lemma RehungIsLevel(rows: seq<Row>, r: Row)
    ensures BelowThreshold(Rehung(rows)(r)) <==> BelowThreshold(r)
  {}

  lemma DropNothing(rows: seq<Row>)
    requires Dropped(rows) == {}
    ensures Drop(rows) == rows
  {
    FilterAll(rows, Survives(rows));
  }

  /** The climb from a dropped row ends on its nearest surviving ancestor, or outside the rows. */
  lemma {:induction false} ClimbsToSurvivor(rows: seq<Row>, d: string -> nat, n: nat, y: Row, seen: set<string>, a: Row)
    requires DistinctIds(rows) && Ranked(rows, d, n) && y in rows && a in rows
    requires y.id in Dropped(rows) && a.id !in Dropped(rows)
    requires forall s :: s in seen ==> d(s) > d(y.id)
    ensures var top := SurvivingAncestor(rows, Dropped(rows), Some(y.id), seen);
            if top.Some? && top.value in Ids(rows) then
              && top.value !in Dropped(rows) && d(top.value) < d(y.id)
              && (Under(rows, d, n, y, a) <==> Under(rows, d, n, Find(rows, top.value).value, a))
            else !Under(rows, d, n, y, a)
    decreases d(y.id)
  {
    FoundIsTheOne(rows, y);
    assert y != a;
    if HasParent(rows, y) {
      var z := Parent(rows, y);
      if z.id in Dropped(rows) {
        ClimbsToSurvivor(rows, d, n, z, seen + {y.id}, a);
      }
    }
  }

  lemma DropRanked(rows: seq<Row>, d: string -> nat, n: nat)
    requires DistinctIds(rows) && Ranked(rows, d, n)
    ensures Ranked(Drop(rows), d, n)
  {
    DropIds(rows);
    forall m | m in Drop(rows)
      ensures d(m.id) <= n && (HasParent(Drop(rows), m) ==> d(m.parent.value) < d(m.id))
    {
      var r :| r in Filter(rows, Survives(rows)) && Rehung(rows)(r) == m;
      if r.parent.Some? && r.parent.value in Dropped(rows) {
        ClimbsToSurvivor(rows, d, n, Find(rows, r.parent.value).value, {}, r);
      }
    }
  }

  lemma RehungIsKept(rows: seq<Row>, x: Row)
    requires DistinctIds(rows) && x in rows && x.id !in Dropped(rows)
    ensures Rehung(rows)(x) in Drop(rows)
    ensures Find(Drop(rows), x.id) == Some(Rehung(rows)(x))
  {
    assert x in Filter(rows, Survives(rows));
    DropIds(rows);
    FoundIsTheOne(Drop(rows), Rehung(rows)(x));
  }

  /** Between the rows that stay, ancestry is what it was. */
  lemma {:induction false} DropKeepsAncestors(rows: seq<Row>, d: string -> nat, n: nat, x: Row, a: Row)
    requires DistinctIds(rows) && Ranked(rows, d, n) && x in rows && a in rows
    requires x.id !in Dropped(rows) && a.id !in Dropped(rows)
    ensures Ranked(Drop(rows), d, n) && Rehung(rows)(x) in Drop(rows)
    ensures Under(Drop(rows), d, n, Rehung(rows)(x), Rehung(rows)(a)) <==> Under(rows, d, n, x, a)
    decreases d(x.id)
  {
    hide Drop, Filter, SurvivingAncestor, BelowThreshold, DistinctIds;
    DropRanked(rows, d, n);
    DropIds(rows);
    RehungIsKept(rows, x);
    RehungIsKept(rows, a);
    hide Ranked, Dropped;
    if x != a {
      RehungApart(rows, x, a);
      if HasParent(rows, x) {
        var y := Parent(rows, x);
        if y.id in Dropped(rows) {
          ClimbsToSurvivor(rows, d, n, y, {}, a);
          var top := Rehung(rows)(x).parent;
          if top.Some? && top.value in Ids(rows) {
            DropKeepsAncestors(rows, d, n, Find(rows, top.value).value, a);
            RehungIsKept(rows, Find(rows, top.value).value);
          }
        } else {
          DropKeepsAncestors(rows, d, n, y, a);
          RehungIsKept(rows, y);
        }
      }
    }
  }

  lemma RehungApart(rows: seq<Row>, x: Row, a: Row)
    requires DistinctIds(rows) && x in rows && a in rows && x != a
    ensures Rehung(rows)(x) != Rehung(rows)(a)
  {
    if x.id == a.id {
      SameIdSameRow(rows, x, a);
    }
  }

  // ---- what the order keeps, on any rows ----

  /** No row is lost or repeated, whatever the parents say: dangling and cyclic ones included. */
  lemma OrderLosesNothing(rows: seq<Row>)
    requires DistinctIds(rows)
    ensures DistinctIds(Order(rows)) && SameRows(Order(rows), Drop(rows))
    ensures Ids(Order(rows)) == Ids(rows) - Dropped(rows)
    ensures Dropped(Order(rows)) == {}
  {
    var kept := Drop(rows);
    DropIds(rows);
    var first := AppendAll(kept, [], Roots(kept));
    var all := AppendAll(kept, first, kept);
    AppendAllAdds(kept, [], Roots(kept));
    AppendAllAdds(kept, first, kept);
    forall r | r in kept
      ensures r in all
    {
      assert r.id in Ids(all);
      var q :| q in all && q.id == r.id;
      SameIdSameRow(kept, q, r);
    }
    SameRowsIds(all, kept);
  }

  // ---- the order of acyclic rows ----

  lemma ChildrenSpan(kept: seq<Row>)
    requires DistinctIds(kept)
    ensures Spans(kept, ChildrenOf(kept))
  {
    forall r | r in kept
      ensures SameRows(ChildrenOf(kept)(r), Kids(kept, r.id)) && DistinctIds(ChildrenOf(kept)(r))
    {
      FilterDistinct(kept, IsKid(r.id));
      OrderMembersDistinct(Kids(kept, r.id));
    }
  }

  lemma {:induction false} AppendAllIsFlat(kept: seq<Row>, d: string -> nat, n: nat, fuel: nat,
                                           ordered: seq<Row>, list: seq<Row>)
    requires Ranked(kept, d, n) && Forest(kept, ChildrenOf(kept), d, n) && Apart(kept, d, n, list)
    requires Reaches(d, n, fuel, list)
    requires Unlisted(ordered, Flat(ChildrenOf(kept), fuel, list))
    ensures AppendAll(kept, ordered, list) == ordered + Flat(ChildrenOf(kept), fuel, list)
    decreases fuel, |list|
  {
    hide *;
    ApartIsKept(kept, d, n, list);
    if list == [] {
      NothingToAppend(kept, ChildrenOf(kept), fuel, ordered);
    } else {
      var h, kids := list[0], ChildrenOf(kept);
      FlatSplits(kept, kids, d, n, fuel, list);
      RoomForFlat(kids, fuel, ordered, list);
      AppendAllIsFlat(kept, d, n, fuel - 1, ordered + [h], kids(h));
      var once := ordered + [h] + Flat(kids, fuel - 1, kids(h));
      AppendAllIsFlat(kept, d, n, fuel, once, list[1..]);
      AppendStep(kept, ordered, list);
      FlatUnfold(kids, fuel, list);
      Regroup(ordered, [h], Flat(kids, fuel - 1, kids(h)), Flat(kids, fuel, list[1..]), once,
              AppendAll(kept, ordered, list));
    }
  }

  lemma ApartIsKept(rows: seq<Row>, d: string -> nat, n: nat, list: seq<Row>)
    requires Ranked(rows, d, n) && Apart(rows, d, n, list)
    ensures forall c :: c in list ==> c in rows
  {}

  lemma NothingToAppend(kept: seq<Row>, kids: Row -> seq<Row>, fuel: nat, ordered: seq<Row>)
    ensures AppendAll(kept, ordered, []) == ordered + Flat(kids, fuel, [])
  {}

  lemma Regroup(a: seq<Row>, b: seq<Row>, c: seq<Row>, e: seq<Row>, once: seq<Row>, all: seq<Row>)
    requires once == a + b + c && all == once + e
    ensures all == a + (b + c + e)
  {}

  ghost predicate Unlisted(ordered: seq<Row>, more: seq<Row>) {
    forall x, y :: x in ordered && y in more ==> x.id != y.id
  }

  lemma RoomForFlat(kids: Row -> seq<Row>, fuel: nat, ordered: seq<Row>, list: seq<Row>)
    requires list != [] && fuel > 0 && Unlisted(ordered, Flat(kids, fuel, list))
    requires Ids([list[0]]) !! Ids(Flat(kids, fuel - 1, kids(list[0]))) !! Ids(Flat(kids, fuel, list[1..]))
    ensures list[0].id !in Ids(ordered)
    ensures var below := Flat(kids, fuel - 1, kids(list[0]));
            && Unlisted(ordered + [list[0]], below)
            && Unlisted(ordered + [list[0]] + below, Flat(kids, fuel, list[1..]))
  {
    var h, below, beside := list[0], Flat(kids, fuel - 1, kids(list[0])), Flat(kids, fuel, list[1..]);
    FlatUnfold(kids, fuel, list);
    hide Flat;
    assert h in [h];
    forall x, y | x in ordered + [h] && y in below
      ensures x.id != y.id
    {
      assert h.id in Ids([h]) && y.id in Ids(below);
      assert x in ordered || x == h;
    }
    forall x, y | x in ordered + [h] + below && y in beside
      ensures x.id != y.id
    {
      assert h.id in Ids([h]) && y.id in Ids(beside);
      assert x in ordered || x == h || (x in below && x.id in Ids(below));
    }
  }

  lemma AppendStep(kept: seq<Row>, ordered: seq<Row>, list: seq<Row>)
    requires forall c :: c in list ==> c in kept
    requires list != [] && list[0].id !in Ids(ordered)
    ensures list[0] in kept && (forall c :: c in ChildrenOf(kept)(list[0]) ==> c in kept)
    ensures AppendAll(kept, ordered, list)
         == AppendAll(kept, AppendAll(kept, ordered + [list[0]], ChildrenOf(kept)(list[0])), list[1..])
  {
    assert list[0] in list;
    ChildrenAreKept(kept, list[0]);
  }

  lemma IdsConcat(a: seq<Row>, b: seq<Row>)
    ensures Ids(a + b) == Ids(a) + Ids(b)
  {
    forall r
      ensures r in a + b <==> r in a || r in b
    {}
  }

  lemma {:induction false} AppendSeen(kept: seq<Row>, ordered: seq<Row>, list: seq<Row>)
    requires forall c :: c in list ==> c in kept && c.id in Ids(ordered)
    ensures AppendAll(kept, ordered, list) == ordered
    decreases |list|
  {
    if list != [] {
      assert list[0] in list;
      AppendSeen(kept, ordered, list[1..]);
    }
  }

  /** With acyclic parents the order is the preorder of the kept rows, from their roots. */
  lemma OrderIsPreorder(rows: seq<Row>, d: string -> nat, n: nat)
    requires DistinctIds(rows) && Ranked(rows, d, n)
    ensures Forest(Drop(rows), ChildrenOf(Drop(rows)), d, n)
    ensures Order(rows) == Flat(ChildrenOf(Drop(rows)), n + 1, Roots(Drop(rows)))
  {
    var kept := Drop(rows);
    DropIds(rows);
    DropRanked(rows, d, n);
    ChildrenSpan(kept);
    RootsApart(kept, d, n);
    AppendAllIsFlat(kept, d, n, n + 1, [], Roots(kept));
    FlatRootsHoldsAll(kept, ChildrenOf(kept), d, n);
    var flat := Flat(ChildrenOf(kept), n + 1, Roots(kept));
    assert [] + flat == flat;
    SameRowsIds(flat, kept);
    AppendSeen(kept, flat, kept);
  }

  /** Roots and children keep their places: input order, or rank order under a heading. */
  lemma OrderKeepsSiblings(rows: seq<Row>, d: string -> nat, n: nat)
    requires DistinctIds(rows) && Ranked(rows, d, n)
    ensures Roots(Order(rows)) == Roots(Drop(rows))
    ensures forall p :: p in Drop(rows) ==> Kids(Order(rows), p.id) == ChildrenOf(Drop(rows))(p)
  {
    hide *;
    var kept, kids := Drop(rows), ChildrenOf(Drop(rows));
    OrderIsPreorder(rows, d, n);
    DropRanked(rows, d, n);
    RootsOfFlat(kept, kids, d, n);
    RootsApart(kept, d, n);
    FlatRootsHoldsAll(kept, kids, d, n);
    RootsReached(kept, d, n);
    forall p | p in kept
      ensures Kids(Order(rows), p.id) == kids(p)
    {
      RootsAreNoKids(kept, p);
      KidsOfFlat(kept, kids, d, n, n + 1, Roots(kept), p);
      assert p in Flat(kids, n + 1, Roots(kept)) by { SameRowsHold(Flat(kids, n + 1, Roots(kept)), kept, p); }
    }
  }

  lemma SameRowsHold(a: seq<Row>, b: seq<Row>, r: Row)
    requires SameRows(a, b)
    ensures r in a <==> r in b
  {}

  lemma RootsReached(kept: seq<Row>, d: string -> nat, n: nat)
    ensures Reaches(d, n, n + 1, Roots(kept))
  {}

  lemma RootsAreNoKids(kept: seq<Row>, p: Row)
    requires p in kept
    ensures forall c :: c in Roots(kept) ==> c.parent != Some(p.id)
  {
    assert p.id in Ids(kept);
  }

  lemma SameRowsRanked(a: seq<Row>, b: seq<Row>, d: string -> nat, n: nat)
    requires Ranked(a, d, n) && SameRows(a, b)
    ensures Ranked(b, d, n)
  {
    SameRowsIds(a, b);
  }

  /** Rows with the same roots and the same ordered children have one order. */
  lemma OrderCongruent(a: seq<Row>, b: seq<Row>, d: string -> nat, n: nat)
    requires DistinctIds(a) && DistinctIds(b) && Ranked(a, d, n) && SameRows(a, b)
    requires Dropped(a) == {}
    requires Roots(a) == Roots(b)
    requires forall p :: p in a ==> ChildrenOf(a)(p) == ChildrenOf(b)(p)
    ensures Order(a) == Order(b)
  {
    SameRowsRanked(a, b, d, n);
    assert Dropped(a) == Dropped(b);
    DropNothing(a);
    DropNothing(b);
    OrderIsPreorder(a, d, n);
    OrderIsPreorder(b, d, n);
    forall r | r in a
      ensures forall c :: c in ChildrenOf(a)(r) ==> c in a
    {
      ChildrenAreKept(a, r);
    }
    FlatCongruent(a, ChildrenOf(a), ChildrenOf(b), n + 1, Roots(a));
  }

  /** Ordering ordered rows changes nothing. */
  lemma OrderTwice(rows: seq<Row>, d: string -> nat, n: nat)
    requires DistinctIds(rows) && Ranked(rows, d, n)
    ensures Order(Order(rows)) == Order(rows)
  {
    var kept, ordered := Drop(rows), Order(rows);
    OrderLosesNothing(rows);
    OrderKeepsSiblings(rows, d, n);
    DropIds(rows);
    DropRanked(rows, d, n);
    forall p | p in kept
      ensures ChildrenOf(kept)(p) == ChildrenOf(ordered)(p)
    {
      OrderMembersTwice(Kids(kept, p.id));
    }
    OrderCongruent(kept, ordered, d, n);
    DropNothing(kept);
  }

  // ---- what an operator reads off the order ----

  lemma FlatHolding(kids: Row -> seq<Row>, fuel: nat, list: seq<Row>, p: Row)
    requires p in Flat(kids, fuel, list)
    ensures list != [] && fuel > 0
  {}

  lemma {:induction false} FlatBlock(rows: seq<Row>, kids: Row -> seq<Row>, d: string -> nat, n: nat,
                                     fuel: nat, list: seq<Row>, p: Row)
      returns (before: seq<Row>, deep: nat, after: seq<Row>)
    requires Ranked(rows, d, n) && Forest(rows, kids, d, n) && Apart(rows, d, n, list) && Reaches(d, n, fuel, list)
    requires p in Flat(kids, fuel, list)
    ensures p in rows && Reaches(d, n, deep, [p])
    ensures Flat(kids, fuel, list) == before + Flat(kids, deep, [p]) + after
    decreases fuel, |list|
  {
    hide *;
    FlatHolding(kids, fuel, list, p);
    var h := list[0];
    FlatSplits(rows, kids, d, n, fuel, list);
    FlatUnfold(kids, fuel, list);
    ReachesSome(d, n, fuel, list, [h]);
    var below, beside := Flat(kids, fuel - 1, kids(h)), Flat(kids, fuel, list[1..]);
    if p == h {
      FlatOne(kids, fuel, p);
      before, deep, after := [], fuel, beside;
      assert [] + ([h] + below) == [h] + below;
    } else if p in below {
      before, deep, after := FlatBlock(rows, kids, d, n, fuel - 1, kids(h), p);
      before := RegroupInside([h], before, Flat(kids, deep, [p]), after, below, beside);
      after := after + beside;
    } else {
      before, deep, after := FlatBlock(rows, kids, d, n, fuel, list[1..], p);
      before := RegroupAfter([h] + below, before, Flat(kids, deep, [p]), after, beside);
    }
  }

  lemma RegroupInside(a: seq<Row>, b: seq<Row>, c: seq<Row>, e: seq<Row>, whole: seq<Row>, f: seq<Row>)
      returns (front: seq<Row>)
    requires whole == b + c + e
    ensures a + whole + f == front + c + (e + f)
  {
    front := a + b;
  }

  lemma RegroupAfter(a: seq<Row>, b: seq<Row>, c: seq<Row>, e: seq<Row>, whole: seq<Row>) returns (front: seq<Row>)
    requires whole == b + c + e
    ensures a + whole == front + c + e
  {
    front := a + b;
  }

  lemma ReachesSome(d: string -> nat, n: nat, fuel: nat, list: seq<Row>, some: seq<Row>)
    requires Reaches(d, n, fuel, list) && forall c :: c in some ==> c in list
    ensures Reaches(d, n, fuel, some)
  {}

  lemma FlatOne(kids: Row -> seq<Row>, fuel: nat, p: Row)
    requires fuel > 0
    ensures Flat(kids, fuel, [p]) == [p] + Flat(kids, fuel - 1, kids(p))
  {
    assert [p][1..] == [];
  }

  lemma DistinctAt(rows: seq<Row>, i: nat, j: nat)
    requires DistinctIds(rows) && i < |rows| && j < |rows| && rows[i] == rows[j]
    ensures i == j
  {}

  /** A row's subtree is the unbroken run of rows that starts with it. */
  lemma SubtreeIsContiguous(rows: seq<Row>, d: string -> nat, n: nat, i: nat) returns (k: nat)
    requires DistinctIds(rows) && Ranked(rows, d, n) && i < |Order(rows)|
    ensures Ranked(Drop(rows), d, n) && SameRows(Order(rows), Drop(rows)) && i < k <= |Order(rows)|
    ensures forall j :: 0 <= j < |Order(rows)| ==>
              Order(rows)[j] in Drop(rows)
              && (Under(Drop(rows), d, n, Order(rows)[j], Order(rows)[i]) <==> i <= j < k)
  {
    hide *;
    var kept, ordered, kids := Drop(rows), Order(rows), ChildrenOf(Drop(rows));
    OrderIsPreorder(rows, d, n);
    OrderLosesNothing(rows);
    DropRanked(rows, d, n);
    RootsApart(kept, d, n);
    RootsReached(kept, d, n);
    var before, deep, after := FlatBlock(kept, kids, d, n, n + 1, Roots(kept), ordered[i]);
    k := BlockIsSubtree(kept, kids, d, n, deep, before, after, ordered, i);
  }

  lemma BlockIsSubtree(kept: seq<Row>, kids: Row -> seq<Row>, d: string -> nat, n: nat, deep: nat,
                       before: seq<Row>, after: seq<Row>, ordered: seq<Row>, i: nat) returns (k: nat)
    requires Ranked(kept, d, n) && Forest(kept, kids, d, n) && DistinctIds(ordered) && SameRows(ordered, kept)
    requires i < |ordered| && Reaches(d, n, deep, [ordered[i]])
    requires ordered == before + Flat(kids, deep, [ordered[i]]) + after
    ensures i < k <= |ordered|
    ensures forall j :: 0 <= j < |ordered| ==>
              ordered[j] in kept && (Under(kept, d, n, ordered[j], ordered[i]) <==> i <= j < k)
  {
    var p, block := ordered[i], Flat(kids, deep, [ordered[i]]);
    assert p in ordered && p in [p];
    FlatOne(kids, deep, p);
    FlatHolds(kept, kids, d, n, deep, [p]);
    hide Flat, Reaches, Spans;
    assert ordered[|before|] == block[0] == p;
    DistinctAt(ordered, i, |before|);
    k := i + |block|;
    hide *;
    forall j | 0 <= j < |ordered|
      ensures ordered[j] in kept && (Under(kept, d, n, ordered[j], p) <==> i <= j < k)
    {
      assert ordered[j] in ordered;
      BlockHoldsUnder(kept, d, n, before, block, after, ordered, p, j);
    }
  }

  lemma UnderOne(kept: seq<Row>, d: string -> nat, n: nat, x: Row, p: Row)
    requires Ranked(kept, d, n) && x in kept
    ensures UnderAny(kept, d, n, x, [p]) <==> Under(kept, d, n, x, p)
  {
    hide Under, Ranked;
    assert p in [p];
  }

  lemma BlockHoldsUnder(kept: seq<Row>, d: string -> nat, n: nat, before: seq<Row>, block: seq<Row>, after: seq<Row>,
                        ordered: seq<Row>, p: Row, j: nat)
    requires Ranked(kept, d, n) && DistinctIds(ordered) && ordered == before + block + after
    requires j < |ordered| && ordered[j] in kept
    requires forall x :: x in block <==> x in kept && UnderAny(kept, d, n, x, [p])
    ensures Under(kept, d, n, ordered[j], p) <==> |before| <= j < |before| + |block|
  {
    hide *;
    var x := ordered[j];
    UnderOne(kept, d, n, x, p);
    if x in block {
      var m :| 0 <= m < |block| && block[m] == x;
      assert ordered[|before| + m] == x;
      DistinctAt(ordered, j, |before| + m);
    }
    if |before| <= j < |before| + |block| {
      assert x == block[j - |before|];
    }
  }

  /** A parent that is listed is listed before its children. */
  lemma ParentIsListedFirst(rows: seq<Row>, d: string -> nat, n: nat, i: nat) returns (j: nat)
    requires DistinctIds(rows) && Ranked(rows, d, n) && i < |Order(rows)| && HasParent(Drop(rows), Order(rows)[i])
    ensures j < i && Order(rows)[j] == Parent(Drop(rows), Order(rows)[i])
  {
    hide Order, Drop, AppendAll, AppendTree, Filter, Kids, Dropped, DistinctIds;
    var kept, x := Drop(rows), Order(rows)[i];
    OrderLosesNothing(rows);
    DropRanked(rows, d, n);
    assert x in Order(rows);
    assert x in kept;
    var p := Parent(kept, x);
    assert p in Order(rows);
    assert Under(kept, d, n, x, p) && p != x by { assert d(p.id) < d(x.id); }
    hide *;
    j :| 0 <= j < |Order(rows)| && Order(rows)[j] == p;
    var k := SubtreeIsContiguous(rows, d, n, j);
    assert Under(kept, d, n, Order(rows)[i], Order(rows)[j]);
  }

  /** A row that has a surviving ancestor hangs from the nearest one. */
  lemma HangsFromNearestSurvivor(rows: seq<Row>, d: string -> nat, n: nat, x: Row, a: Row)
    requires DistinctIds(rows) && Ranked(rows, d, n) && x in rows && a in rows
    requires x.id !in Dropped(rows) && a.id !in Dropped(rows) && a != x
    requires Under(rows, d, n, x, a)
    ensures var x' := Rehung(rows)(x);
            && HasParent(Drop(rows), x')
            && var z := Find(rows, x'.parent.value);
               && z.Some? && z.value.id !in Dropped(rows)
               && z.value != x && Under(rows, d, n, x, z.value) && Under(rows, d, n, z.value, a)
  {
    var x' := Rehung(rows)(x);
    DropKeepsAncestors(rows, d, n, x, a);
    RehungApart(rows, x, a);
    DropIds(rows);
    assert HasParent(Drop(rows), x');
    var z := Find(rows, x'.parent.value).value;
    RehungIsKept(rows, z);
    DropKeepsAncestors(rows, d, n, z, a);
    DropRanked(rows, d, n);
    KidIsUnder(Drop(rows), d, n, x', Rehung(rows)(z));
    DropKeepsAncestors(rows, d, n, x, z);
  }

  ghost predicate HasSurvivor(rows: seq<Row>, d: string -> nat, n: nat, x: Row)
    requires Ranked(rows, d, n) && x in rows
  {
    exists a :: a in rows && a.id !in Dropped(rows) && a != x && Under(rows, d, n, x, a)
  }

  /** And a row hangs from something exactly when an ancestor survives; otherwise it is a root. */
  lemma HangsIfOneSurvives(rows: seq<Row>, d: string -> nat, n: nat, x: Row)
    requires DistinctIds(rows) && Ranked(rows, d, n) && x in rows && x.id !in Dropped(rows)
    ensures HasParent(Drop(rows), Rehung(rows)(x)) <==> HasSurvivor(rows, d, n, x)
  {
    var x' := Rehung(rows)(x);
    if HasParent(Drop(rows), x') {
      RehungIsKept(rows, x);
      DropRanked(rows, d, n);
      DropIds(rows);
      var p := Parent(Drop(rows), x');
      var z := DropComesFrom(rows, p);
      KidIsUnder(Drop(rows), d, n, x', p);
      DropKeepsAncestors(rows, d, n, x, z);
      assert z != x && z.id !in Dropped(rows) && Under(rows, d, n, x, z);
    }
    if a :| a in rows && a.id !in Dropped(rows) && a != x && Under(rows, d, n, x, a) {
      HangsFromNearestSurvivor(rows, d, n, x, a);
    }
  }
}
