/**
 Heading totals mean what they should: the tokens and the outcomes of the agents
 below the heading, whatever the order of the rows and however many headings lie
 between.
 */
module FleetTotals {
  import opened Wrappers
  import opened LiveRows
  import opened LiveRowForest
  import opened LiveRowOrder
  import opened FleetProjection

  function KidsIn(rows: seq<Row>): Row -> seq<Row> {
    (r: Row) => Kids(rows, r.id)
  }

  lemma KidsInSpan(rows: seq<Row>)
    requires DistinctIds(rows)
    ensures Spans(rows, KidsIn(rows))
  {
    forall r | r in rows
      ensures SameRows(KidsIn(rows)(r), Kids(rows, r.id)) && DistinctIds(KidsIn(rows)(r))
    {
      FilterDistinct(rows, IsKid(r.id));
    }
  }

  // ---- sums over a list of rows ----

  function FoldTokens(rows: seq<Row>): Option<Tokens> {
    if rows == [] then None else Add(OwnTokens(rows[0]), FoldTokens(rows[1..]))
  }

  // What the fold comes to, written as plain sums over the agents that state tokens.

  predicate HasTokens(rows: seq<Row>) {
    exists r :: r in rows && !r.grouped && r.tokens.Some?
  }

  function InputOf(rows: seq<Row>): int {
    if rows == [] then 0
    else (if !rows[0].grouped && rows[0].tokens.Some? then rows[0].tokens.value.input else 0) + InputOf(rows[1..])
  }

  function OutputOf(rows: seq<Row>): int {
    if rows == [] then 0
    else (if !rows[0].grouped && rows[0].tokens.Some? then rows[0].tokens.value.output else 0) + OutputOf(rows[1..])
  }

  lemma {:induction false} FoldIsSum(rows: seq<Row>)
    ensures FoldTokens(rows) == if HasTokens(rows) then Some(Tokens(InputOf(rows), OutputOf(rows))) else None
    ensures !HasTokens(rows) ==> InputOf(rows) == 0 && OutputOf(rows) == 0
  {
    if rows != [] {
      FoldIsSum(rows[1..]);
      HasTokensHead(rows);
      hide HasTokens;
    }
  }

  lemma HasTokensHead(rows: seq<Row>)
    requires rows != []
    ensures HasTokens(rows) <==> HasTokens(rows[1..]) || (!rows[0].grouped && rows[0].tokens.Some?)
  {
    assert rows == [rows[0]] + rows[1..];
    assert forall r :: r in rows <==> r == rows[0] || r in rows[1..];
  }

  lemma {:induction false} FoldConcat(a: seq<Row>, b: seq<Row>)
    ensures FoldTokens(a + b) == Add(FoldTokens(a), FoldTokens(b))
  {
    if a == [] {
      assert a + b == b;
    } else {
      assert (a + b)[1..] == a[1..] + b;
      FoldConcat(a[1..], b);
    }
  }

  /** `b` has every agent of `a`, with the same tokens. */
  ghost predicate HasAgents(a: seq<Row>, b: seq<Row>) {
    forall x :: x in a && !x.grouped ==> HasAgent(b, x)
  }

  ghost predicate HasAgent(b: seq<Row>, x: Row) {
    exists y :: y in b && y.id == x.id && !y.grouped && y.tokens == x.tokens
  }

  /** The sum is over a set of agents: order and headings do not matter. */
  lemma {:induction false} FoldIgnoresOrder(a: seq<Row>, b: seq<Row>)
    requires DistinctIds(a) && DistinctIds(b) && HasAgents(a, b) && HasAgents(b, a)
    ensures FoldTokens(a) == FoldTokens(b)
    decreases |a| + |b|
  {
    if a == [] {
      NoAgents(b);
    } else if a[0].grouped {
      DropHeading(a, b);
      FoldIgnoresOrder(a[1..], b);
    } else {
      var k := AgentAt(a, b);
      var rest := b[..k] + b[k + 1..];
      RemoveAgent(a, b, k);
      FoldWithout(b, k);
      hide *;
      FoldIgnoresOrder(a[1..], rest);
      FoldHead(a);
    }
  }

  lemma FoldHead(a: seq<Row>)
    requires a != []
    ensures FoldTokens(a) == Add(OwnTokens(a[0]), FoldTokens(a[1..]))
  {}

  lemma AgentAt(a: seq<Row>, b: seq<Row>) returns (k: nat)
    requires a != [] && !a[0].grouped && HasAgents(a, b)
    ensures k < |b| && b[k].id == a[0].id && OwnTokens(b[k]) == OwnTokens(a[0])
  {
    assert a[0] in a;
    assert HasAgent(b, a[0]);
    var y :| y in b && y.id == a[0].id && !y.grouped && y.tokens == a[0].tokens;
    k :| 0 <= k < |b| && b[k] == y;
  }

  lemma FoldWithout(b: seq<Row>, k: nat)
    requires k < |b|
    ensures FoldTokens(b) == Add(OwnTokens(b[k]), FoldTokens(b[..k] + b[k + 1..]))
  {
    hide *;
    FoldMiddle(b[..k], b[k], b[k + 1..]);
    assert b == b[..k] + ([b[k]] + b[k + 1..]);
  }

  lemma FoldMiddle(front: seq<Row>, y: Row, back: seq<Row>)
    ensures FoldTokens(front + ([y] + back)) == Add(OwnTokens(y), FoldTokens(front + back))
  {
    FoldConcat(front, back);
    FoldConcat(front, [y] + back);
    FoldHead([y] + back);
    assert ([y] + back)[1..] == back;
    hide FoldTokens;
    var f, b := FoldTokens(front), FoldTokens(back);
    assert Add(f, Add(OwnTokens(y), b)) == Add(OwnTokens(y), Add(f, b));
  }

  lemma {:induction false} NoAgents(b: seq<Row>)
    requires HasAgents(b, [])
    ensures FoldTokens(b) == None
  {
    if b != [] {
      assert b[0] in b && (!b[0].grouped ==> HasAgent([], b[0]));
      forall x | x in b[1..] && !x.grouped
        ensures HasAgent([], x)
      {
        assert x in b;
      }
      NoAgents(b[1..]);
    }
  }

  lemma DropHeading(a: seq<Row>, b: seq<Row>)
    requires DistinctIds(a) && a != [] && a[0].grouped && HasAgents(a, b) && HasAgents(b, a)
    ensures DistinctIds(a[1..]) && HasAgents(a[1..], b) && HasAgents(b, a[1..])
  {
    forall x | x in a[1..] && !x.grouped
      ensures HasAgent(b, x)
    {
      assert x in a;
    }
    forall x | x in b && !x.grouped
      ensures HasAgent(a[1..], x)
    {
      assert HasAgent(a, x);
      var y :| y in a && y.id == x.id && !y.grouped && y.tokens == x.tokens;
      assert y in a[1..];
    }
  }

  lemma RemoveAgent(a: seq<Row>, b: seq<Row>, k: nat)
    requires DistinctIds(a) && DistinctIds(b) && a != [] && k < |b| && HasAgents(a, b) && HasAgents(b, a)
    requires b[k].id == a[0].id
    ensures DistinctIds(a[1..]) && DistinctIds(b[..k] + b[k + 1..])
    ensures HasAgents(a[1..], b[..k] + b[k + 1..]) && HasAgents(b[..k] + b[k + 1..], a[1..])
  {
    var rest := b[..k] + b[k + 1..];
    DistinctWithout(b, k);
    forall x | x in a[1..] && !x.grouped
      ensures HasAgent(rest, x)
    {
      NotFirst(a, x);
      assert x in a && HasAgent(b, x);
      var y :| y in b && y.id == x.id && !y.grouped && y.tokens == x.tokens;
      InWithout(b, k, y);
    }
    forall x | x in rest && !x.grouped
      ensures HasAgent(a[1..], x)
    {
      InWithout(b, k, x);
      assert HasAgent(a, x);
      var y :| y in a && y.id == x.id && !y.grouped && y.tokens == x.tokens;
      assert y in a[1..];
    }
  }

  lemma NotFirst(a: seq<Row>, x: Row)
    requires DistinctIds(a) && a != [] && x in a[1..]
    ensures x in a && x.id != a[0].id
  {
    var i :| 0 <= i < |a[1..]| && a[1..][i] == x;
    assert a[i + 1] == x;
  }

  lemma InWithout(b: seq<Row>, k: nat, y: Row)
    requires DistinctIds(b) && k < |b|
    ensures y in b[..k] + b[k + 1..] <==> y in b && y.id != b[k].id
  {
    var rest := b[..k] + b[k + 1..];
    if y in b && y.id != b[k].id {
      var j :| 0 <= j < |b| && b[j] == y;
      assert rest[if j < k then j else j - 1] == y;
    }
    if y in rest {
      var i :| 0 <= i < |rest| && rest[i] == y;
      assert b[if i < k then i else i + 1] == y;
    }
  }

  lemma DistinctWithout(b: seq<Row>, k: nat)
    requires DistinctIds(b) && k < |b|
    ensures DistinctIds(b[..k] + b[k + 1..])
  {
    var rest := b[..k] + b[k + 1..];
    assert forall i :: 0 <= i < |rest| ==> rest[i] == b[if i < k then i else i + 1];
  }

  // ---- the walk sums the preorder ----

  ghost predicate Unseen(seen: set<string>, more: seq<Row>) {
    forall x :: x in more ==> x.id !in seen
  }

  lemma UnseenSplits(kids: Row -> seq<Row>, fuel: nat, seen: set<string>, list: seq<Row>)
    requires list != [] && fuel > 0 && Unseen(seen, Flat(kids, fuel, list))
    requires Ids([list[0]]) !! Ids(Flat(kids, fuel - 1, kids(list[0]))) !! Ids(Flat(kids, fuel, list[1..]))
    ensures list[0].id !in seen
    ensures var below := Flat(kids, fuel - 1, kids(list[0]));
            && Unseen(seen + {list[0].id}, below)
            && Unseen(seen + {list[0].id} + Ids(below), Flat(kids, fuel, list[1..]))
            && seen + {list[0].id} + Ids(below) + Ids(Flat(kids, fuel, list[1..])) == seen + Ids(Flat(kids, fuel, list))
  {
    var h, below, beside := list[0], Flat(kids, fuel - 1, kids(list[0])), Flat(kids, fuel, list[1..]);
    FlatUnfold(kids, fuel, list);
    hide Flat;
    IdsConcat([h], below);
    IdsConcat([h] + below, beside);
    assert h in [h];
    assert Ids([h]) == {h.id};
    forall x | x in below
      ensures x.id !in seen + {h.id}
    {
      assert x.id in Ids(below);
    }
    forall x | x in beside
      ensures x.id !in seen + {h.id} + Ids(below)
    {
      assert x.id in Ids(beside);
    }
  }

  lemma SumStep(rows: seq<Row>, list: seq<Row>, seen: set<string>)
    requires (forall c :: c in list ==> c in rows) && list != [] && list[0].id !in seen
    ensures (forall c :: c in Kids(rows, list[0].id) ==> c in rows) && (forall c :: c in list[1..] ==> c in rows)
    ensures var nested := SumTokens(rows, Kids(rows, list[0].id), seen + {list[0].id});
            var rest := SumTokens(rows, list[1..], nested.seen);
            SumTokens(rows, list, seen) == Sum(Add(Add(OwnTokens(list[0]), nested.tokens), rest.tokens), rest.seen)
  {}

  lemma SumNone(rows: seq<Row>, kids: Row -> seq<Row>, fuel: nat, seen: set<string>)
    ensures SumTokens(rows, [], seen) == Sum(FoldTokens(Flat(kids, fuel, [])), seen + Ids(Flat(kids, fuel, [])))
  {}

  lemma FoldFlat(kids: Row -> seq<Row>, fuel: nat, list: seq<Row>)
    requires list != [] && fuel > 0
    ensures FoldTokens(Flat(kids, fuel, list))
         == Add(Add(OwnTokens(list[0]), FoldTokens(Flat(kids, fuel - 1, kids(list[0])))),
                 FoldTokens(Flat(kids, fuel, list[1..])))
  {
    var h, below, beside := list[0], Flat(kids, fuel - 1, kids(list[0])), Flat(kids, fuel, list[1..]);
    FoldConcat([h] + below, beside);
    FoldConcat([h], below);
    assert FoldTokens([h]) == OwnTokens(h);
  }

  lemma {:induction false} SumIsFold(rows: seq<Row>, d: string -> nat, n: nat, fuel: nat,
                                 list: seq<Row>, seen: set<string>)
    requires Ranked(rows, d, n) && Forest(rows, KidsIn(rows), d, n) && Apart(rows, d, n, list)
    requires Reaches(d, n, fuel, list) && Unseen(seen, Flat(KidsIn(rows), fuel, list))
    ensures SumTokens(rows, list, seen)
         == Sum(FoldTokens(Flat(KidsIn(rows), fuel, list)), seen + Ids(Flat(KidsIn(rows), fuel, list)))
    decreases fuel, |list|
  {
    hide *;
    ApartIsKept(rows, d, n, list);
    var kids := KidsIn(rows);
    if list == [] {
      SumNone(rows, kids, fuel, seen);
    } else {
      var h := list[0];
      FlatSplits(rows, kids, d, n, fuel, list);
      UnseenSplits(kids, fuel, seen, list);
      KidsInAre(rows, h);
      var below := Flat(kids, fuel - 1, kids(h));
      SumIsFold(rows, d, n, fuel - 1, kids(h), seen + {h.id});
      SumIsFold(rows, d, n, fuel, list[1..], seen + {h.id} + Ids(below));
      SumStep(rows, list, seen);
      FoldFlat(kids, fuel, list);
    }
  }

  lemma KidsInAre(rows: seq<Row>, r: Row)
    ensures KidsIn(rows)(r) == Kids(rows, r.id)
  {}

  // ---- members ----

  /** An agent with no agent below it. */
  ghost predicate LeafAgent(rows: seq<Row>, d: string -> nat, n: nat, r: Row) {
    && Ranked(rows, d, n) && !r.grouped
    && forall x :: x in rows && !x.grouped && Under(rows, d, n, x, r) ==> x == r
  }

  ghost function IsLeafAgent(rows: seq<Row>, d: string -> nat, n: nat): Row -> bool {
    (r: Row) => LeafAgent(rows, d, n, r)
  }

  lemma {:induction false} LeafAgentBelow(rows: seq<Row>, d: string -> nat, n: nat, x: Row) returns (leaf: Row)
    requires Ranked(rows, d, n) && x in rows && !x.grouped
    ensures leaf in rows && LeafAgent(rows, d, n, leaf) && Under(rows, d, n, leaf, x)
    decreases n - d(x.id)
  {
    if LeafAgent(rows, d, n, x) {
      leaf := x;
    } else {
      var y :| y in rows && !y.grouped && Under(rows, d, n, y, x) && y != x;
      UnderDeepens(rows, d, n, y, x);
      leaf := LeafAgentBelow(rows, d, n, y);
      UnderTransitive(rows, d, n, leaf, y, x);
    }
  }

  lemma MemberStep(rows: seq<Row>, list: seq<Row>, seen: set<string>)
    requires (forall c :: c in list ==> c in rows) && list != [] && list[0].id !in seen
    ensures (forall c :: c in Kids(rows, list[0].id) ==> c in rows) && (forall c :: c in list[1..] ==> c in rows)
    ensures var h := list[0];
            var nested := MemberRows(rows, Kids(rows, h.id), seen + {h.id});
            var rest := MemberRows(rows, list[1..], nested.seen);
            var own := if nested.rows != [] then nested.rows else if h.grouped then [] else [h];
            MemberRows(rows, list, seen) == Members(own + rest.rows, rest.seen)
  {}

  lemma MemberNone(rows: seq<Row>, kids: Row -> seq<Row>, fuel: nat, seen: set<string>, f: Row -> bool)
    ensures MemberRows(rows, [], seen) == Members(Filter(Flat(kids, fuel, []), f), seen + Ids(Flat(kids, fuel, [])))
  {}

  /** What one row and its subtree contribute to the members. */
  lemma LeafAgentsOf(rows: seq<Row>, d: string -> nat, n: nat, fuel: nat, h: Row)
    requires Ranked(rows, d, n) && Forest(rows, KidsIn(rows), d, n) && h in rows
    requires Apart(rows, d, n, KidsIn(rows)(h)) && Reaches(d, n, fuel, KidsIn(rows)(h))
    ensures var f := IsLeafAgent(rows, d, n);
            var nested := Filter(Flat(KidsIn(rows), fuel, KidsIn(rows)(h)), f);
            Filter([h] + Flat(KidsIn(rows), fuel, KidsIn(rows)(h)), f) ==
              if nested != [] then nested else if h.grouped then [] else [h]
  {
    var f, kids := IsLeafAgent(rows, d, n), KidsIn(rows);
    var below := Flat(kids, fuel, kids(h));
    var nested := Filter(below, f);
    FilterConcat([h], below, f);
    assert Filter([h], f) == if f(h) then [h] else [];
    assert f(h) <==> !h.grouped && nested == [] by {
      hide Flat, Filter, Spans, Apart;
      if nested != [] {
        var x := nested[0];
        assert x in nested;
        BelowIsUnder(rows, kids, d, n, fuel, h, x);
      }
      forall x | x in rows && !x.grouped && Under(rows, d, n, x, h) && x != h
        ensures nested != []
      {
        var leaf := LeafAgentBelow(rows, d, n, x);
        UnderSplits(rows, kids, d, n, fuel, h, x, leaf);
        assert leaf in nested;
      }
    }
  }

  /** A leaf strictly below `h` is in the preorder below `h`. */
  lemma UnderSplits(rows: seq<Row>, kids: Row -> seq<Row>, d: string -> nat, n: nat, fuel: nat,
                    h: Row, x: Row, leaf: Row)
    requires Ranked(rows, d, n) && Forest(rows, kids, d, n) && h in rows && x in rows && leaf in rows && x != h
    requires Under(rows, d, n, x, h) && Under(rows, d, n, leaf, x)
    requires Reaches(d, n, fuel, kids(h))
    ensures leaf in Flat(kids, fuel, kids(h))
  {
    hide Flat, Filter, Spans;
    var c := TopBelow(rows, d, n, x, h);
    UnderTransitive(rows, d, n, leaf, x, c);
    KidsApart(rows, kids, d, n, h);
    FlatHasUnder(rows, kids, d, n, fuel, kids(h), leaf, c);
  }

  /** The child of `h` on the way from `x` up to `h`. */
  lemma {:induction false} TopBelow(rows: seq<Row>, d: string -> nat, n: nat, x: Row, h: Row) returns (c: Row)
    requires Ranked(rows, d, n) && x in rows && x != h && Under(rows, d, n, x, h)
    ensures c in rows && c.parent == Some(h.id) && Under(rows, d, n, x, c)
    decreases d(x.id)
  {
    if Parent(rows, x) == h {
      c := x;
    } else {
      c := TopBelow(rows, d, n, Parent(rows, x), h);
    }
  }

  lemma {:induction false} MembersAreLeafAgents(rows: seq<Row>, d: string -> nat, n: nat, fuel: nat,
                                                list: seq<Row>, seen: set<string>)
    requires Ranked(rows, d, n) && Forest(rows, KidsIn(rows), d, n) && Apart(rows, d, n, list)
    requires Reaches(d, n, fuel, list) && Unseen(seen, Flat(KidsIn(rows), fuel, list))
    ensures MemberRows(rows, list, seen)
         == Members(Filter(Flat(KidsIn(rows), fuel, list), IsLeafAgent(rows, d, n)),
                     seen + Ids(Flat(KidsIn(rows), fuel, list)))
    decreases fuel, |list|
  {
    hide *;
    ApartIsKept(rows, d, n, list);
    var kids, f := KidsIn(rows), IsLeafAgent(rows, d, n);
    if list == [] {
      MemberNone(rows, kids, fuel, seen, f);
    } else {
      var h := list[0];
      FlatSplits(rows, kids, d, n, fuel, list);
      UnseenSplits(kids, fuel, seen, list);
      KidsInAre(rows, h);
      var below, beside := Flat(kids, fuel - 1, kids(h)), Flat(kids, fuel, list[1..]);
      MembersAreLeafAgents(rows, d, n, fuel - 1, kids(h), seen + {h.id});
      MembersAreLeafAgents(rows, d, n, fuel, list[1..], seen + {h.id} + Ids(below));
      MemberStep(rows, list, seen);
      LeafAgentsOf(rows, d, n, fuel - 1, h);
      FlatUnfold(kids, fuel, list);
      FilterConcat([h] + below, beside, f);
    }
  }
}
