/**
 The forest that `parent` links make of a row list, and its preorder listing.
 Every walk over live rows (ordering, token sums, member counts) is a preorder
 walk, so what is proved here is shared by all of them.
 */
module LiveRowForest {
  import opened Wrappers
  import opened LiveRows

  function IsKid(parent: string): Row -> bool {
    (r: Row) => r.parent == Some(parent)
  }

  function Kids(rows: seq<Row>, parent: string): seq<Row> {
    Filter(rows, IsKid(parent))
  }

  predicate HasParent(rows: seq<Row>, r: Row) {
    r.parent.Some? && r.parent.value in Ids(rows)
  }

  function Parent(rows: seq<Row>, r: Row): (parent: Row)
    requires HasParent(rows, r)
    ensures parent in rows && Some(parent.id) == r.parent
  {
    Find(rows, r.parent.value).value
  }

  function IsRoot(rows: seq<Row>): Row -> bool {
    (r: Row) => !HasParent(rows, r)
  }

  function Roots(rows: seq<Row>): seq<Row> {
    Filter(rows, IsRoot(rows))
  }

  // ---- acyclic parents ----

  /** `d` puts every row strictly below its parent; `n` bounds it. */
  ghost predicate Ranked(rows: seq<Row>, d: string -> nat, n: nat) {
    forall r :: r in rows ==> d(r.id) <= n && (HasParent(rows, r) ==> d(r.parent.value) < d(r.id))
  }

  ghost predicate Acyclic(rows: seq<Row>) {
    exists d: string -> nat, n: nat :: Ranked(rows, d, n)
  }

  /** `x` is `top` or one of its descendants. */
  ghost predicate Under(rows: seq<Row>, d: string -> nat, n: nat, x: Row, top: Row)
    requires Ranked(rows, d, n) && x in rows
    decreases d(x.id)
  {
    x == top || (HasParent(rows, x) && Under(rows, d, n, Parent(rows, x), top))
  }

  lemma {:induction false} UnderDeepens(rows: seq<Row>, d: string -> nat, n: nat, x: Row, top: Row)
    requires Ranked(rows, d, n) && x in rows && Under(rows, d, n, x, top)
    ensures top in rows && d(top.id) <= d(x.id) && (d(top.id) == d(x.id) ==> x == top)
    decreases d(x.id)
  {
    if x != top {
      UnderDeepens(rows, d, n, Parent(rows, x), top);
    }
  }

  lemma {:induction false} UnderTransitive(rows: seq<Row>, d: string -> nat, n: nat, x: Row, y: Row, z: Row)
    requires Ranked(rows, d, n) && x in rows && y in rows
    requires Under(rows, d, n, x, y) && Under(rows, d, n, y, z)
    ensures Under(rows, d, n, x, z)
    decreases d(x.id)
  {
    if x != y {
      UnderTransitive(rows, d, n, Parent(rows, x), y, z);
    }
  }

  /** Two ancestors of one row lie on one line. */
  lemma {:induction false} AncestorsCompare(rows: seq<Row>, d: string -> nat, n: nat, x: Row, a: Row, b: Row)
    requires Ranked(rows, d, n) && x in rows && a in rows && b in rows
    requires Under(rows, d, n, x, a) && Under(rows, d, n, x, b)
    ensures Under(rows, d, n, a, b) || Under(rows, d, n, b, a)
    decreases d(x.id)
  {
    if x != a && x != b {
      AncestorsCompare(rows, d, n, Parent(rows, x), a, b);
    }
  }

  lemma KidIsUnder(rows: seq<Row>, d: string -> nat, n: nat, kid: Row, p: Row)
    requires DistinctIds(rows) && Ranked(rows, d, n) && kid in rows && p in rows && kid.parent == Some(p.id)
    ensures HasParent(rows, kid) && Parent(rows, kid) == p && Under(rows, d, n, kid, p) && d(p.id) < d(kid.id)
  {
    FoundIsTheOne(rows, p);
  }

  // ---- preorder ----

  /** Each row of `list` followed by its subtree; `fuel` bounds the depth listed. */
  function Flat(kids: Row -> seq<Row>, fuel: nat, list: seq<Row>): seq<Row>
    decreases fuel, |list|
  {
    if list == [] || fuel == 0 then []
    else [list[0]] + Flat(kids, fuel - 1, kids(list[0])) + Flat(kids, fuel, list[1..])
  }

  lemma FlatUnfold(kids: Row -> seq<Row>, fuel: nat, list: seq<Row>)
    requires list != [] && fuel > 0
    ensures Flat(kids, fuel, list) == [list[0]] + Flat(kids, fuel - 1, kids(list[0])) + Flat(kids, fuel, list[1..])
    ensures forall x :: x in Flat(kids, fuel, list) <==>
              x == list[0] || x in Flat(kids, fuel - 1, kids(list[0])) || x in Flat(kids, fuel, list[1..])
  {}

  /** `kids` lists the children of each row, each once, in some order. */
  ghost predicate Spans(rows: seq<Row>, kids: Row -> seq<Row>) {
    forall r :: r in rows ==> SameRows(kids(r), Kids(rows, r.id)) && DistinctIds(kids(r))
  }

  ghost predicate Forest(rows: seq<Row>, kids: Row -> seq<Row>, d: string -> nat, n: nat) {
    DistinctIds(rows) && Ranked(rows, d, n) && Spans(rows, kids)
  }

  /** The fuel reaches the bottom of every subtree of `list`. */
  ghost predicate Reaches(d: string -> nat, n: nat, fuel: nat, list: seq<Row>) {
    forall c :: c in list ==> n < d(c.id) + fuel
  }

  /** Distinct rows, none of them below another. */
  ghost predicate Apart(rows: seq<Row>, d: string -> nat, n: nat, list: seq<Row>)
    requires Ranked(rows, d, n)
  {
    && DistinctIds(list)
    && (forall c :: c in list ==> c in rows)
    && (forall a, b :: a in list && b in list && Under(rows, d, n, a, b) ==> a == b)
  }

  lemma KidsApart(rows: seq<Row>, kids: Row -> seq<Row>, d: string -> nat, n: nat, p: Row)
    requires Forest(rows, kids, d, n) && p in rows
    ensures Apart(rows, d, n, kids(p))
    ensures forall c :: c in kids(p) <==> c in rows && c.parent == Some(p.id)
  {
    forall a, b | a in kids(p) && b in kids(p) && Under(rows, d, n, a, b)
      ensures a == b
    {
      KidIsUnder(rows, d, n, a, p);
      KidIsUnder(rows, d, n, b, p);
      if a != b {
        UnderDeepens(rows, d, n, p, b);
      }
    }
  }

  lemma RootsApart(rows: seq<Row>, d: string -> nat, n: nat)
    requires DistinctIds(rows) && Ranked(rows, d, n)
    ensures Apart(rows, d, n, Roots(rows))
  {
    hide Spans, Filter, Kids;
    FilterDistinct(rows, IsRoot(rows));
  }

  lemma KidsReached(rows: seq<Row>, kids: Row -> seq<Row>, d: string -> nat, n: nat, fuel: nat, p: Row)
    requires Forest(rows, kids, d, n) && p in rows && Reaches(d, n, fuel, [p])
    ensures fuel > 0 && Reaches(d, n, fuel - 1, kids(p))
  {
    hide Spans, Filter, Kids;
    assert p in [p];
    KidsApart(rows, kids, d, n, p);
    forall c | c in kids(p)
      ensures n < d(c.id) + (fuel - 1)
    {
      KidIsUnder(rows, d, n, c, p);
    }
  }

  /** Below some row of `list`, or one of them. */
  ghost predicate UnderAny(rows: seq<Row>, d: string -> nat, n: nat, x: Row, list: seq<Row>)
    requires Ranked(rows, d, n) && x in rows
  {
    exists c :: c in list && Under(rows, d, n, x, c)
  }

  /** The preorder holds only rows under its tops. */
  lemma {:induction false} FlatIsUnder(rows: seq<Row>, kids: Row -> seq<Row>, d: string -> nat, n: nat,
                                       fuel: nat, list: seq<Row>, x: Row)
    requires Forest(rows, kids, d, n) && (forall c :: c in list ==> c in rows)
    requires x in Flat(kids, fuel, list)
    ensures x in rows && UnderAny(rows, d, n, x, list)
    decreases fuel, |list|
  {
    hide Spans, Filter, Kids;
    var h := list[0];
    if x == h {
      assert Under(rows, d, n, x, h);
    } else if x in Flat(kids, fuel - 1, kids(h)) {
      KidsApart(rows, kids, d, n, h);
      FlatIsUnder(rows, kids, d, n, fuel - 1, kids(h), x);
      var c :| c in kids(h) && Under(rows, d, n, x, c);
      KidIsUnder(rows, d, n, c, h);
      UnderTransitive(rows, d, n, x, c, h);
    } else {
      FlatIsUnder(rows, kids, d, n, fuel, list[1..], x);
      var c :| c in list[1..] && Under(rows, d, n, x, c);
      assert c in list;
    }
  }

  /** The preorder holds the children of what it holds. */
  lemma {:induction false} FlatHasKids(rows: seq<Row>, kids: Row -> seq<Row>, d: string -> nat, n: nat,
                                       fuel: nat, list: seq<Row>, y: Row, x: Row)
    requires Forest(rows, kids, d, n) && (forall c :: c in list ==> c in rows) && Reaches(d, n, fuel, list)
    requires y in Flat(kids, fuel, list) && y in rows && x in rows && x.parent == Some(y.id)
    ensures x in Flat(kids, fuel, list)
    decreases fuel, |list|
  {
    hide Spans, Filter, Kids;
    var h := list[0];
    assert h in list;
    KidsReached(rows, kids, d, n, fuel, h);
    KidsApart(rows, kids, d, n, h);
    FlatUnfold(kids, fuel, list);
    hide Flat, Ranked, Apart, Under, UnderAny;
    if y == h {
      FlatHasTops(rows, kids, d, n, fuel - 1, kids(h), x);
    } else if y in Flat(kids, fuel - 1, kids(h)) {
      FlatHasKids(rows, kids, d, n, fuel - 1, kids(h), y, x);
    } else {
      FlatHasKids(rows, kids, d, n, fuel, list[1..], y, x);
    }
  }

  lemma {:induction false} FlatHasTops(rows: seq<Row>, kids: Row -> seq<Row>, d: string -> nat, n: nat,
                                       fuel: nat, list: seq<Row>, x: Row)
    requires Forest(rows, kids, d, n) && x in list && x in rows && Reaches(d, n, fuel, list)
    ensures x in Flat(kids, fuel, list)
    decreases |list|
  {
    hide Spans, Filter, Kids;
    assert d(x.id) <= n && n < d(x.id) + fuel;
    if x != list[0] {
      FlatHasTops(rows, kids, d, n, fuel, list[1..], x);
    }
  }

  lemma {:induction false} FlatHasUnder(rows: seq<Row>, kids: Row -> seq<Row>, d: string -> nat, n: nat,
                                        fuel: nat, list: seq<Row>, x: Row, top: Row)
    requires Forest(rows, kids, d, n) && (forall c :: c in list ==> c in rows) && Reaches(d, n, fuel, list)
    requires x in rows && top in list && Under(rows, d, n, x, top)
    ensures x in Flat(kids, fuel, list)
    decreases d(x.id)
  {
    hide Spans, Filter, Kids;
    if x == top {
      FlatHasTops(rows, kids, d, n, fuel, list, x);
    } else {
      FlatHasUnder(rows, kids, d, n, fuel, list, Parent(rows, x), top);
      FlatHasKids(rows, kids, d, n, fuel, list, Parent(rows, x), x);
    }
  }

  /** The preorder of `list` holds exactly the rows under it. */
  lemma FlatHolds(rows: seq<Row>, kids: Row -> seq<Row>, d: string -> nat, n: nat, fuel: nat, list: seq<Row>)
    requires Forest(rows, kids, d, n) && (forall c :: c in list ==> c in rows) && Reaches(d, n, fuel, list)
    ensures forall x :: x in Flat(kids, fuel, list) <==> x in rows && UnderAny(rows, d, n, x, list)
  {
    hide Spans, Filter, Kids;
    forall x
      ensures x in Flat(kids, fuel, list) <==> x in rows && UnderAny(rows, d, n, x, list)
    {
      if x in Flat(kids, fuel, list) {
        FlatIsUnder(rows, kids, d, n, fuel, list, x);
      }
      if x in rows && UnderAny(rows, d, n, x, list) {
        var c :| c in list && Under(rows, d, n, x, c);
        FlatHasUnder(rows, kids, d, n, fuel, list, x, c);
      }
    }
  }

  lemma BelowIsUnder(rows: seq<Row>, kids: Row -> seq<Row>, d: string -> nat, n: nat, fuel: nat, h: Row, x: Row)
    requires Forest(rows, kids, d, n) && h in rows && x in Flat(kids, fuel, kids(h))
    ensures x in rows && HasParent(rows, x) && Under(rows, d, n, Parent(rows, x), h)
    ensures Under(rows, d, n, x, h) && x != h
  {
    hide Spans, Filter, Kids;
    KidsApart(rows, kids, d, n, h);
    FlatIsUnder(rows, kids, d, n, fuel, kids(h), x);
    var c :| c in kids(h) && Under(rows, d, n, x, c);
    KidIsUnder(rows, d, n, c, h);
    UnderDeepens(rows, d, n, x, c);
    if x != c {
      UnderTransitive(rows, d, n, Parent(rows, x), c, h);
    }
  }

  lemma BesideIsNotUnder(rows: seq<Row>, kids: Row -> seq<Row>, d: string -> nat, n: nat,
                         fuel: nat, list: seq<Row>, y: Row)
    requires Forest(rows, kids, d, n) && Apart(rows, d, n, list) && list != []
    requires y in Flat(kids, fuel, list[1..])
    ensures list[0] in rows && y in rows && !Under(rows, d, n, y, list[0])
  {
    hide Spans, Filter, Kids, Flat;
    var h := list[0];
    assert h in list;
    FlatIsUnder(rows, kids, d, n, fuel, list[1..], y);
    var c :| c in list[1..] && Under(rows, d, n, y, c);
    var j :| 0 <= j < |list[1..]| && list[1..][j] == c;
    assert list[j + 1] == c && c.id != h.id;
    if Under(rows, d, n, y, h) {
      AncestorsCompare(rows, d, n, y, c, h);
    }
  }

  /** A row, its subtree and the subtrees of the rows beside it share nothing. */
  lemma FlatSplits(rows: seq<Row>, kids: Row -> seq<Row>, d: string -> nat, n: nat, fuel: nat, list: seq<Row>)
    requires Forest(rows, kids, d, n) && Apart(rows, d, n, list) && Reaches(d, n, fuel, list) && list != []
    ensures fuel > 0 && list[0] in rows
    ensures Apart(rows, d, n, kids(list[0])) && Reaches(d, n, fuel - 1, kids(list[0]))
    ensures Apart(rows, d, n, list[1..]) && Reaches(d, n, fuel, list[1..])
    ensures Ids([list[0]]) !! Ids(Flat(kids, fuel - 1, kids(list[0]))) !! Ids(Flat(kids, fuel, list[1..]))
  {
    hide Spans, Filter, Kids, Flat;
    var h := list[0];
    assert h in list;
    KidsReached(rows, kids, d, n, fuel, h);
    KidsApart(rows, kids, d, n, h);
    assert forall c :: c in list[1..] ==> c in list;
    assert Under(rows, d, n, h, h);
    hide Apart, Reaches, Ranked;
    var below, beside := Flat(kids, fuel - 1, kids(h)), Flat(kids, fuel, list[1..]);
    forall x | x in below
      ensures x.id != h.id
    {
      BelowIsUnder(rows, kids, d, n, fuel - 1, h, x);
      if x.id == h.id {
        SameIdSameRow(rows, x, h);
      }
    }
    forall y | y in beside
      ensures y.id != h.id
    {
      BesideIsNotUnder(rows, kids, d, n, fuel, list, y);
      if y.id == h.id {
        SameIdSameRow(rows, y, h);
      }
    }
    forall x, y | x in below && y in beside
      ensures x.id != y.id
    {
      BelowIsUnder(rows, kids, d, n, fuel - 1, h, x);
      BesideIsNotUnder(rows, kids, d, n, fuel, list, y);
      if x.id == y.id {
        SameIdSameRow(rows, x, y);
      }
    }
  }

  lemma {:induction false} FlatDistinct(rows: seq<Row>, kids: Row -> seq<Row>, d: string -> nat, n: nat,
                                        fuel: nat, list: seq<Row>)
    requires Forest(rows, kids, d, n) && Apart(rows, d, n, list) && Reaches(d, n, fuel, list)
    ensures DistinctIds(Flat(kids, fuel, list))
    decreases fuel, |list|
  {
    hide Spans, Filter, Kids;
    if list != [] && fuel > 0 {
      FlatSplits(rows, kids, d, n, fuel, list);
      FlatDistinct(rows, kids, d, n, fuel - 1, kids(list[0]));
      FlatDistinct(rows, kids, d, n, fuel, list[1..]);
      var below, beside := Flat(kids, fuel - 1, kids(list[0])), Flat(kids, fuel, list[1..]);
      DistinctConcat([list[0]], below);
      DistinctConcat([list[0]] + below, beside);
    }
  }

  lemma {:induction false} RowHasRoot(rows: seq<Row>, d: string -> nat, n: nat, x: Row)
    requires Ranked(rows, d, n) && x in rows
    ensures UnderAny(rows, d, n, x, Roots(rows))
    decreases d(x.id)
  {
    hide Spans, Filter, Kids;
    if HasParent(rows, x) {
      RowHasRoot(rows, d, n, Parent(rows, x));
      var c :| c in Roots(rows) && Under(rows, d, n, Parent(rows, x), c);
      assert Under(rows, d, n, x, c);
    } else {
      assert x in Roots(rows) && Under(rows, d, n, x, x);
    }
  }

  /** The preorder from the roots lists every row exactly once. */
  lemma FlatRootsHoldsAll(rows: seq<Row>, kids: Row -> seq<Row>, d: string -> nat, n: nat)
    requires Forest(rows, kids, d, n)
    ensures SameRows(Flat(kids, n + 1, Roots(rows)), rows)
    ensures DistinctIds(Flat(kids, n + 1, Roots(rows)))
  {
    hide Spans, Filter, Kids;
    RootsApart(rows, d, n);
    FlatDistinct(rows, kids, d, n, n + 1, Roots(rows));
    FlatHolds(rows, kids, d, n, n + 1, Roots(rows));
    forall x | x in rows
      ensures x in Flat(kids, n + 1, Roots(rows))
    {
      RowHasRoot(rows, d, n, x);
    }
  }

  // ---- selecting from a preorder ----

  /** Selecting rows that only the tops of a preorder can be gives the tops back. */
  lemma {:induction false} FilterTops(rows: seq<Row>, kids: Row -> seq<Row>, d: string -> nat, n: nat,
                                      fuel: nat, list: seq<Row>, f: Row -> bool)
    requires Forest(rows, kids, d, n) && Reaches(d, n, fuel, list)
    requires forall c :: c in list ==> c in rows && f(c)
    requires forall x :: x in rows && HasParent(rows, x) && UnderAny(rows, d, n, Parent(rows, x), list) ==> !f(x)
    ensures Filter(Flat(kids, fuel, list), f) == list
    decreases |list|
  {
    hide Spans;
    if list != [] {
      var h := list[0];
      assert h in list;
      KidsReached(rows, kids, d, n, fuel, h);
      FlatUnfold(kids, fuel, list);
      hide Flat, HasParent, Under;
      var below, beside := Flat(kids, fuel - 1, kids(h)), Flat(kids, fuel, list[1..]);
      forall x | x in below
        ensures !f(x)
      {
        BelowIsUnder(rows, kids, d, n, fuel - 1, h, x);
        assert UnderAny(rows, d, n, Parent(rows, x), list);
      }
      forall x | x in rows && HasParent(rows, x) && UnderAny(rows, d, n, Parent(rows, x), list[1..])
        ensures !f(x)
      {
        assert UnderAny(rows, d, n, Parent(rows, x), list);
      }
      hide UnderAny, Forest, Reaches;
      FilterTops(rows, kids, d, n, fuel, list[1..], f);
      FilterFirst(h, below, beside, f);
    }
  }

  lemma FilterFirst(h: Row, below: seq<Row>, beside: seq<Row>, f: Row -> bool)
    requires f(h) && forall x :: x in below ==> !f(x)
    ensures Filter([h] + below + beside, f) == [h] + Filter(beside, f)
  {
    FilterNone(below, f);
    FilterConcat([h] + below, beside, f);
    FilterConcat([h], below, f);
    assert Filter([h], f) == [h];
  }

  /** The preorder from the roots keeps the order of the roots. */
  lemma RootsOfFlat(rows: seq<Row>, kids: Row -> seq<Row>, d: string -> nat, n: nat)
    requires Forest(rows, kids, d, n)
    ensures Roots(Flat(kids, n + 1, Roots(rows))) == Roots(rows)
  {
    hide Spans, Filter, Kids;
    var flat := Flat(kids, n + 1, Roots(rows));
    FlatRootsHoldsAll(rows, kids, d, n);
    SameRowsIds(flat, rows);
    FilterTops(rows, kids, d, n, n + 1, Roots(rows), IsRoot(rows));
    FilterSame(flat, IsRoot(flat), IsRoot(rows));
  }

  lemma {:induction false} FilterSame(rows: seq<Row>, f: Row -> bool, g: Row -> bool)
    requires forall r :: r in rows ==> f(r) == g(r)
    ensures Filter(rows, f) == Filter(rows, g)
  {
    if rows != [] {
      FilterSame(rows[1..], f, g);
    }
  }

  /** In a preorder that lists `p`, the children of `p` keep their order. */
  lemma {:induction false} KidsOfFlat(rows: seq<Row>, kids: Row -> seq<Row>, d: string -> nat, n: nat,
                                      fuel: nat, list: seq<Row>, p: Row)
    requires DistinctIds(rows) && Ranked(rows, d, n) && Forest(rows, kids, d, n) && Apart(rows, d, n, list)
    requires Reaches(d, n, fuel, list) && p in rows
    requires forall c :: c in list ==> c.parent != Some(p.id)
    ensures Kids(Flat(kids, fuel, list), p.id) == if p in Flat(kids, fuel, list) then kids(p) else []
    decreases fuel, |list|
  {
    hide *;
    if list == [] || fuel == 0 {
      KidsOfNothing(kids, fuel, list, p);
    } else {
      var h := list[0];
      FlatSplits(rows, kids, d, n, fuel, list);
      KidsApart(rows, kids, d, n, h);
      FlatUnfold(kids, fuel, list);
      KidsUnfold(kids, fuel, list, p.id);
      assert h in list && forall c :: c in list[1..] ==> c in list;
      var below, beside := Flat(kids, fuel - 1, kids(h)), Flat(kids, fuel, list[1..]);
      KidsOfFlat(rows, kids, d, n, fuel, list[1..], p);
      OnlyIn([h], below, beside, p);
      if p.id == h.id {
        SameIdSameRow(rows, p, h);
        KidsOnTop(rows, kids, d, n, fuel - 1, p);
        assert p in [h];
      } else {
        KidsOfFlat(rows, kids, d, n, fuel - 1, kids(h), p);
      }
    }
  }

  lemma KidsOfNothing(kids: Row -> seq<Row>, fuel: nat, list: seq<Row>, p: Row)
    requires list == [] || fuel == 0
    ensures Kids(Flat(kids, fuel, list), p.id) == [] && p !in Flat(kids, fuel, list)
  {}

  lemma OnlyIn(a: seq<Row>, b: seq<Row>, c: seq<Row>, p: Row)
    requires Ids(a) !! Ids(b) !! Ids(c)
    ensures p in a ==> p !in b && p !in c
    ensures p in b ==> p !in c
  {
    assert p in a ==> p.id in Ids(a);
    assert p in b ==> p.id in Ids(b);
    assert p in c ==> p.id in Ids(c);
  }

  lemma KidsUnfold(kids: Row -> seq<Row>, fuel: nat, list: seq<Row>, p: string)
    requires list != [] && fuel > 0
    ensures Kids(Flat(kids, fuel, list), p)
         == (if list[0].parent == Some(p) then [list[0]] else [])
            + Kids(Flat(kids, fuel - 1, kids(list[0])), p) + Kids(Flat(kids, fuel, list[1..]), p)
  {
    var h, below, beside := list[0], Flat(kids, fuel - 1, kids(list[0])), Flat(kids, fuel, list[1..]);
    FilterConcat([h] + below, beside, IsKid(p));
    FilterConcat([h], below, IsKid(p));
  }

  lemma KidsOnTop(rows: seq<Row>, kids: Row -> seq<Row>, d: string -> nat, n: nat, fuel: nat, p: Row)
    requires Forest(rows, kids, d, n) && p in rows && Reaches(d, n, fuel, kids(p))
    ensures Kids(Flat(kids, fuel, kids(p)), p.id) == kids(p)
  {
    hide Spans;
    KidsApart(rows, kids, d, n, p);
    forall x | x in rows && HasParent(rows, x) && UnderAny(rows, d, n, Parent(rows, x), kids(p))
      ensures x.parent != Some(p.id)
    {
      var c :| c in kids(p) && Under(rows, d, n, Parent(rows, x), c);
      UnderDeepens(rows, d, n, Parent(rows, x), c);
      KidIsUnder(rows, d, n, c, p);
    }
    FilterTops(rows, kids, d, n, fuel, kids(p), IsKid(p.id));
  }

  /** The preorder depends on the children of the rows listed only. */
  lemma {:induction false} FlatCongruent(rows: seq<Row>, f: Row -> seq<Row>, g: Row -> seq<Row>,
                                         fuel: nat, list: seq<Row>)
    requires forall c :: c in list ==> c in rows
    requires forall r :: r in rows ==> f(r) == g(r) && (forall c :: c in f(r) ==> c in rows)
    ensures Flat(f, fuel, list) == Flat(g, fuel, list)
    decreases fuel, |list|
  {
    hide Spans, Filter, Kids;
    if list != [] && fuel > 0 {
      assert list[0] in list;
      FlatCongruent(rows, f, g, fuel - 1, f(list[0]));
      FlatCongruent(rows, f, g, fuel, list[1..]);
    }
  }
}
