/**
 Projecting a projected fleet changes nothing. Each stage finds nothing left to do:
 no anchor has an agent below it, every heading already carries the sum of what is
 below it, the rows are in order and earlier runs are behind.
 */
module FleetIdempotence {
  import opened Wrappers
  import opened LiveRows
  import opened LiveRowForest
  import opened LiveRowOrder
  import opened FleetProjection
  import opened FleetTotals
  import opened FleetCompaction
  import opened Sizes

  // ---- compaction ----

  lemma CompactDistinct(rows: seq<Row>)
    requires DistinctIds(rows)
    ensures DistinctIds(Compact(rows))
  {
    FilterDistinct(rows, Stays(rows));
    MappedDistinct(Filter(rows, Stays(rows)), Spliced(rows));
  }

  lemma CompactRanked(rows: seq<Row>, d: string -> nat, n: nat)
    requires Ranked(rows, d, n)
    ensures Ranked(Compact(rows), d, n)
  {
    hide Filter, Mapped, Compact, Includes, IsAnchor, ParentIds;
    CompactIds(rows);
    forall m | m in Compact(rows)
      ensures d(m.id) <= n && (HasParent(Compact(rows), m) ==> d(m.parent.value) < d(m.id))
    {
      var r := CompactComesFrom(rows, m);
      if r.parent.Some? && r.parent.value in Collapsed(rows) {
        assert HasParent(rows, r);
        var anchor := Find(rows, r.parent.value).value;
        assert anchor in rows && anchor.id == r.parent.value && anchor.parent == m.parent;
        if HasParent(Compact(rows), m) {
          assert HasParent(rows, anchor);
        }
      }
    }
  }

  lemma CompactParentIds(rows: seq<Row>)
    ensures ParentIds(Compact(rows)) <= ParentIds(rows)
  {
    forall m | m in Compact(rows) && m.parent.Some?
      ensures m.parent.value in ParentIds(rows)
    {
      var r := CompactComesFrom(rows, m);
      if r.parent.Some? && r.parent.value in Collapsed(rows) {
        var anchor := Find(rows, r.parent.value).value;
        assert anchor in rows && anchor.parent == m.parent;
      }
    }
  }

  lemma CompactNothing(rows: seq<Row>)
    requires Collapsed(rows) == {}
    ensures Compact(rows) == rows
  {
    FilterAll(rows, Stays(rows));
  }

  // ---- totals ----

  lemma TotalsLevel(rows: seq<Row>, r: Row)
    ensures var t := WithTotals(rows)(r);
            t == r.(tokens := t.tokens, groupCompleted := t.groupCompleted, groupFailed := t.groupFailed)
    ensures !r.grouped ==> WithTotals(rows)(r) == r
  {
    hide TokensBelow, MembersBelow, Filter;
  }

  lemma TotalsComesFrom(rows: seq<Row>, t: Row) returns (r: Row)
    requires t in Totals(rows)
    ensures r in rows && WithTotals(rows)(r) == t
    ensures t == r.(tokens := t.tokens, groupCompleted := t.groupCompleted, groupFailed := t.groupFailed)
    ensures !r.grouped ==> t == r
  {
    r :| r in rows && WithTotals(rows)(r) == t;
    TotalsLevel(rows, r);
  }

  lemma TotalsKeep(rows: seq<Row>, d: string -> nat, n: nat)
    requires DistinctIds(rows) && Ranked(rows, d, n)
    ensures DistinctIds(Totals(rows)) && Ranked(Totals(rows), d, n)
    ensures Ids(Totals(rows)) == Ids(rows) && ParentIds(Totals(rows)) <= ParentIds(rows)
  {
    hide WithTotals, DistinctIds, Ranked, ParentIds;
    forall r | r in rows
      ensures WithTotals(rows)(r).id == r.id
    {
      TotalsLevel(rows, r);
    }
    MappedDistinct(rows, WithTotals(rows));
    TotalsParents(rows);
    TotalsRanked(rows, d, n);
  }

  lemma TotalsParents(rows: seq<Row>)
    ensures Ids(Totals(rows)) == Ids(rows) && ParentIds(Totals(rows)) <= ParentIds(rows)
  {
    hide WithTotals, Mapped, Totals, Ids, ParentIds;
    forall t | t in Totals(rows)
      ensures t.id in Ids(rows) && (t.parent.Some? ==> t.parent.value in ParentIds(rows))
    {
      var r := TotalsComesFrom(rows, t);
      RowNames(rows, r);
    }
    forall r | r in rows
      ensures r.id in Ids(Totals(rows))
    {
      TotalsLists(rows, r);
    }
    NamesWithin(Totals(rows), Ids(rows), ParentIds(rows));
    NamesCover(rows, Ids(Totals(rows)));
  }

  lemma RowNames(rows: seq<Row>, r: Row)
    requires r in rows
    ensures r.id in Ids(rows) && (r.parent.Some? ==> r.parent.value in ParentIds(rows))
  {}

  lemma NamesWithin(rows: seq<Row>, ids: set<string>, parents: set<string>)
    requires forall r :: r in rows ==> r.id in ids && (r.parent.Some? ==> r.parent.value in parents)
    ensures Ids(rows) <= ids && ParentIds(rows) <= parents
  {}

  lemma NamesCover(rows: seq<Row>, ids: set<string>)
    requires forall r :: r in rows ==> r.id in ids
    ensures Ids(rows) <= ids
  {}

  lemma TotalsLists(rows: seq<Row>, r: Row)
    requires r in rows
    ensures r.id in Ids(Totals(rows))
  {
    hide WithTotals;
    TotalsLevel(rows, r);
    assert WithTotals(rows)(r) in Totals(rows);
  }

  lemma TotalsRanked(rows: seq<Row>, d: string -> nat, n: nat)
    requires Ranked(rows, d, n)
    ensures Ranked(Totals(rows), d, n)
  {
    hide WithTotals, Mapped, Totals;
    TotalsParents(rows);
    forall t | t in Totals(rows)
      ensures d(t.id) <= n && (HasParent(Totals(rows), t) ==> d(t.parent.value) < d(t.id))
    {
      var r := TotalsComesFrom(rows, t);
    }
  }

  // The walks below see the same ids and the same agents after `w` as before.

  /** Changes only what the walks do not read. */
  ghost predicate Retotals(rows: seq<Row>, w: Row -> Row) {
    forall r :: r in rows ==>
      && w(r).id == r.id && w(r).parent == r.parent && w(r).grouped == r.grouped
      && OwnTokens(w(r)) == OwnTokens(r)
  }

  lemma {:induction false} FilterMapped(rows: seq<Row>, w: Row -> Row, keep: Row -> bool)
    requires forall r :: r in rows ==> keep(w(r)) == keep(r)
    ensures Filter(Mapped(rows, w), keep) == Mapped(Filter(rows, keep), w)
  {
    if rows != [] {
      hide *;
      var h, rest := rows[0], rows[1..];
      assert h in rows && forall r :: r in rest ==> r in rows;
      FilterMapped(rest, w, keep);
      MappedStep(rows, w);
      FilterStep(rows, keep);
      FilterStep(Mapped(rows, w), keep);
      if keep(h) {
        MappedConcat([h], Filter(rest, keep), w);
        MappedOne(h, w);
      }
    }
  }

  lemma FilterStep(rows: seq<Row>, keep: Row -> bool)
    requires rows != []
    ensures Filter(rows, keep) == if keep(rows[0]) then [rows[0]] + Filter(rows[1..], keep) else Filter(rows[1..], keep)
  {}

  lemma MappedOne(h: Row, w: Row -> Row)
    ensures Mapped([h], w) == [w(h)]
  {}

  lemma MappedKids(rows: seq<Row>, w: Row -> Row, p: string)
    requires Retotals(rows, w)
    ensures Kids(Mapped(rows, w), p) == Mapped(Kids(rows, p), w)
  {
    FilterMapped(rows, w, IsKid(p));
  }

  lemma MappedStep(rows: seq<Row>, w: Row -> Row)
    requires rows != []
    ensures Mapped(rows, w) != [] && Mapped(rows, w)[0] == w(rows[0]) && Mapped(rows, w)[1..] == Mapped(rows[1..], w)
  {}

  lemma MappedIn(rows: seq<Row>, list: seq<Row>, w: Row -> Row)
    requires forall c :: c in list ==> c in rows
    ensures forall c :: c in Mapped(list, w) ==> c in Mapped(rows, w)
  {}

  lemma {:induction false} SumMapped(rows: seq<Row>, w: Row -> Row, list: seq<Row>, seen: set<string>)
    requires Retotals(rows, w) && forall c :: c in list ==> c in rows
    ensures forall c :: c in Mapped(list, w) ==> c in Mapped(rows, w)
    ensures SumTokens(Mapped(rows, w), Mapped(list, w), seen) == SumTokens(rows, list, seen)
    decreases |Ids(rows) - seen|, |list|
  {
    MappedIn(rows, list, w);
    if list != [] {
      MappedStep(list, w);
      hide Mapped;
      var h := list[0];
      assert h in list && h in rows;
      if h.id in seen {
        SumMapped(rows, w, list[1..], seen);
      } else {
        MappedKids(rows, w, h.id);
        hide Kids;
        SeeingShrinks(rows, h, seen, seen + {h.id});
        SumMapped(rows, w, Kids(rows, h.id), seen + {h.id});
        var nested := SumTokens(rows, Kids(rows, h.id), seen + {h.id});
        SeeingShrinks(rows, h, seen, nested.seen);
        SumMapped(rows, w, list[1..], nested.seen);
      }
    }
  }

  lemma MappedConcat(a: seq<Row>, b: seq<Row>, w: Row -> Row)
    ensures Mapped(a + b, w) == Mapped(a, w) + Mapped(b, w)
  {}

  lemma {:induction false} MembersMapped(rows: seq<Row>, w: Row -> Row, list: seq<Row>, seen: set<string>)
    requires Retotals(rows, w) && forall c :: c in list ==> c in rows
    ensures forall c :: c in Mapped(list, w) ==> c in Mapped(rows, w)
    ensures MemberRows(Mapped(rows, w), Mapped(list, w), seen)
         == Members(Mapped(MemberRows(rows, list, seen).rows, w), MemberRows(rows, list, seen).seen)
    decreases |Ids(rows) - seen|, |list|
  {
    MappedIn(rows, list, w);
    if list != [] {
      MappedStep(list, w);
      var h := list[0];
      assert h in list && h in rows;
      if h.id in seen {
        MembersMapped(rows, w, list[1..], seen);
      } else {
        MappedKids(rows, w, h.id);
        SeeingShrinks(rows, h, seen, seen + {h.id});
        MembersMapped(rows, w, Kids(rows, h.id), seen + {h.id});
        var nested := MemberRows(rows, Kids(rows, h.id), seen + {h.id});
        SeeingShrinks(rows, h, seen, nested.seen);
        MembersMapped(rows, w, list[1..], nested.seen);
        var own := if nested.rows != [] then nested.rows else if h.grouped then [] else [h];
        MappedConcat(own, MemberRows(rows, list[1..], nested.seen).rows, w);
      }
    }
  }

  // ---- the same agents below a heading ----

  /** Every agent below `x` in `a` is below `y` in `b`, with the same tokens. */
  ghost predicate AgentsBelow(a: seq<Row>, b: seq<Row>, d: string -> nat, n: nat, x: Row, y: Row)
    requires Ranked(a, d, n) && Ranked(b, d, n)
  {
    forall r :: r in a && !r.grouped && Under(a, d, n, r, x) ==> AgentBelow(b, d, n, y, r)
  }

  ghost predicate AgentBelow(b: seq<Row>, d: string -> nat, n: nat, y: Row, r: Row)
    requires Ranked(b, d, n)
  {
    exists s :: s in b && s.id == r.id && !s.grouped && s.tokens == r.tokens && Under(b, d, n, s, y)
  }

  /** The preorder below a heading holds the rows strictly below it. */
  lemma BelowHolds(rows: seq<Row>, d: string -> nat, n: nat, g: Row)
    requires DistinctIds(rows) && Ranked(rows, d, n) && g in rows
    ensures Forest(rows, KidsIn(rows), d, n) && Apart(rows, d, n, Kids(rows, g.id))
    ensures Reaches(d, n, n, Kids(rows, g.id)) && DistinctIds(Flat(KidsIn(rows), n, Kids(rows, g.id)))
    ensures forall x :: x in Flat(KidsIn(rows), n, Kids(rows, g.id)) <==> x in rows && x != g && Under(rows, d, n, x, g)
  {
    hide Flat, Under, Filter, Kids;
    var kids := KidsIn(rows);
    KidsInSpan(rows);
    KidsInAre(rows, g);
    KidsApart(rows, kids, d, n, g);
    forall c | c in kids(g)
      ensures n < d(c.id) + n
    {
      KidIsUnder(rows, d, n, c, g);
    }
    FlatDistinct(rows, kids, d, n, n, kids(g));
    forall x
      ensures x in Flat(kids, n, kids(g)) <==> x in rows && x != g && Under(rows, d, n, x, g)
    {
      if x in Flat(kids, n, kids(g)) {
        BelowIsUnder(rows, kids, d, n, n, g, x);
      }
      if x in rows && x != g && Under(rows, d, n, x, g) {
        var c := TopBelow(rows, d, n, x, g);
        FlatHasUnder(rows, kids, d, n, n, kids(g), x, c);
      }
    }
  }

  /** A heading's tokens are the sum over the agents below it; its members the leaf agents. */
  lemma HeadingTotals(rows: seq<Row>, d: string -> nat, n: nat, g: Row)
    requires DistinctIds(rows) && Ranked(rows, d, n) && g in rows
    ensures var below := Flat(KidsIn(rows), n, Kids(rows, g.id));
            && (forall x :: x in below <==> x in rows && x != g && Under(rows, d, n, x, g))
            && DistinctIds(below)
            && TokensBelow(rows, g.id) == FoldTokens(below)
            && MembersBelow(rows, g.id) == Filter(below, IsLeafAgent(rows, d, n))
  {
    hide Flat, Under, Filter, Kids;
    BelowHolds(rows, d, n, g);
    SumIsFold(rows, d, n, n, Kids(rows, g.id), {});
    MembersAreLeafAgents(rows, d, n, n, Kids(rows, g.id), {});
  }

  lemma NoMembersNoAgents(rows: seq<Row>, d: string -> nat, n: nat, g: Row)
    requires DistinctIds(rows) && Ranked(rows, d, n) && g in rows
    ensures MembersBelow(rows, g.id) == [] <==>
            (forall x :: x in rows && x != g && !x.grouped ==> !Under(rows, d, n, x, g))
  {
    hide Flat, Filter, Kids, MembersBelow;
    HeadingTotals(rows, d, n, g);
    var below := Flat(KidsIn(rows), n, Kids(rows, g.id));
    var f := IsLeafAgent(rows, d, n);
    assert MembersBelow(rows, g.id) == Filter(below, f);
    forall x | x in rows && x != g && !x.grouped && Under(rows, d, n, x, g)
      ensures Filter(below, f) != []
    {
      var leaf := LeafAgentBelow(rows, d, n, x);
      UnderTransitive(rows, d, n, leaf, x, g);
      UnderDeepens(rows, d, n, x, g);
      UnderDeepens(rows, d, n, leaf, x);
      assert leaf in below && leaf in Filter(below, f);
    }
    if Filter(below, f) != [] {
      var m := Filter(below, f)[0];
      assert m in Filter(below, f) && m in below && LeafAgent(rows, d, n, m);
    }
  }

  /** Headings with the same agents below them have the same totals. */
  lemma SameAgentsSameTotals(a: seq<Row>, b: seq<Row>, d: string -> nat, n: nat, x: Row, y: Row)
    requires DistinctIds(a) && DistinctIds(b) && Ranked(a, d, n) && Ranked(b, d, n)
    requires x in a && y in b && x.grouped && y.grouped
    requires AgentsBelow(a, b, d, n, x, y) && AgentsBelow(b, a, d, n, y, x)
    ensures TokensBelow(a, x.id) == TokensBelow(b, y.id)
    ensures MembersBelow(a, x.id) == [] <==> MembersBelow(b, y.id) == []
  {
    hide Flat, Filter, Kids, TokensBelow, MembersBelow, Under;
    HeadingTotals(a, d, n, x);
    HeadingTotals(b, d, n, y);
    var fa, fb := Flat(KidsIn(a), n, Kids(a, x.id)), Flat(KidsIn(b), n, Kids(b, y.id));
    BelowHasAgents(a, b, d, n, x, y, fa, fb);
    BelowHasAgents(b, a, d, n, y, x, fb, fa);
    FoldIgnoresOrder(fa, fb);
    NoMembersNoAgents(a, d, n, x);
    NoMembersNoAgents(b, d, n, y);
    if MembersBelow(a, x.id) != [] {
      var r :| r in a && r != x && !r.grouped && Under(a, d, n, r, x);
      assert AgentBelow(b, d, n, y, r);
    }
    if MembersBelow(b, y.id) != [] {
      var r :| r in b && r != y && !r.grouped && Under(b, d, n, r, y);
      assert AgentBelow(a, d, n, x, r);
    }
  }

  lemma BelowHasAgents(a: seq<Row>, b: seq<Row>, d: string -> nat, n: nat, x: Row, y: Row, fa: seq<Row>, fb: seq<Row>)
    requires Ranked(a, d, n) && Ranked(b, d, n) && y.grouped && AgentsBelow(a, b, d, n, x, y)
    requires forall r :: r in fa <==> r in a && r != x && Under(a, d, n, r, x)
    requires forall r :: r in fb <==> r in b && r != y && Under(b, d, n, r, y)
    ensures HasAgents(fa, fb)
  {
    forall r | r in fa && !r.grouped
      ensures HasAgent(fb, r)
    {
      assert AgentBelow(b, d, n, y, r);
      var s :| s in b && s.id == r.id && !s.grouped && s.tokens == r.tokens && Under(b, d, n, s, y);
      assert s in fb;
    }
  }

  // ---- a projected row set has nothing left to compact or total ----

  lemma {:induction false} UnderSame(a: seq<Row>, b: seq<Row>, d: string -> nat, n: nat, x: Row, top: Row)
    requires DistinctIds(a) && DistinctIds(b) && SameRows(a, b) && Ranked(a, d, n) && Ranked(b, d, n) && x in a
    ensures Under(a, d, n, x, top) <==> Under(b, d, n, x, top)
    decreases d(x.id)
  {
    if HasParent(a, x) {
      SameRowsFind(a, b, x.parent.value);
      SameRowsIds(a, b);
      UnderSame(a, b, d, n, Parent(a, x), top);
    } else {
      SameRowsIds(a, b);
    }
  }

  lemma AgentSurvives(rows: seq<Row>, r: Row)
    requires DistinctIds(rows) && r in rows && !r.grouped
    ensures r.id !in Dropped(rows)
  {
    forall q | q in rows && BelowThreshold(q)
      ensures q.id != r.id
    {
      if q.id == r.id {
        SameIdSameRow(rows, q, r);
      }
    }
  }

  /** `p` lists what is left of `t` without its small headings. */
  ghost predicate Lists(p: seq<Row>, t: seq<Row>, d: string -> nat, n: nat) {
    && DistinctIds(t) && Ranked(t, d, n)
    && DistinctIds(p) && Ranked(p, d, n) && SameRows(p, Drop(t))
  }

  lemma ListsAgentsBelow(p: seq<Row>, t: seq<Row>, d: string -> nat, n: nat, g: Row, h: Row)
    requires Lists(p, t, d, n) && g in p && h in t && h.id !in Dropped(t) && Rehung(t)(h) == g
    ensures AgentsBelow(p, t, d, n, g, h) && AgentsBelow(t, p, d, n, h, g)
  {
    forall r | r in p && !r.grouped && Under(p, d, n, r, g)
      ensures AgentBelow(t, d, n, h, r)
    {
      ListedAgentIsBelow(p, t, d, n, g, h, r);
    }
    forall s | s in t && !s.grouped && Under(t, d, n, s, h)
      ensures AgentBelow(p, d, n, g, s)
    {
      AgentIsListedBelow(p, t, d, n, g, h, s);
    }
    hide Dropped, Rehung, Under, Ranked, DistinctIds;
  }

  lemma ListedAgentIsBelow(p: seq<Row>, t: seq<Row>, d: string -> nat, n: nat, g: Row, h: Row, r: Row)
    requires Lists(p, t, d, n) && g in p && h in t && h.id !in Dropped(t) && Rehung(t)(h) == g
    requires r in p && !r.grouped && Under(p, d, n, r, g)
    ensures AgentBelow(t, d, n, h, r)
  {
    DropRanked(t, d, n);
    DropIds(t);
    assert r in Drop(t);
    hide Dropped, Under, Ranked, DistinctIds, Drop;
    var s := DropComesFrom(t, r);
    UnderSame(p, Drop(t), d, n, r, g);
    DropKeepsAncestors(t, d, n, s, h);
  }

  lemma AgentIsListedBelow(p: seq<Row>, t: seq<Row>, d: string -> nat, n: nat, g: Row, h: Row, s: Row)
    requires Lists(p, t, d, n) && g in p && h in t && h.id !in Dropped(t) && Rehung(t)(h) == g
    requires s in t && !s.grouped && Under(t, d, n, s, h)
    ensures AgentBelow(p, d, n, g, s)
  {
    DropRanked(t, d, n);
    DropIds(t);
    hide Dropped, Under, Ranked, DistinctIds, Drop;
    AgentSurvives(t, s);
    DropKeepsAncestors(t, d, n, s, h);
    var r := Rehung(t)(s);
    assert r in p;
    UnderSame(p, Drop(t), d, n, r, g);
  }

  lemma TotalsRetotal(c: seq<Row>)
    ensures Retotals(c, WithTotals(c))
  {
    hide WithTotals;
    forall r | r in c
      ensures WithTotals(c)(r).id == r.id && WithTotals(c)(r).parent == r.parent
      ensures WithTotals(c)(r).grouped == r.grouped && OwnTokens(WithTotals(c)(r)) == OwnTokens(r)
    {
      TotalsLevel(c, r);
    }
  }

  /** Totalling changes no total. */
  lemma TotalsSettle(c: seq<Row>, id: string)
    ensures TokensBelow(Totals(c), id) == TokensBelow(c, id)
    ensures MembersBelow(Totals(c), id) == [] <==> MembersBelow(c, id) == []
  {
    hide WithTotals, Mapped;
    TotalsRetotal(c);
    MappedKids(c, WithTotals(c), id);
    SumMapped(c, WithTotals(c), Kids(c, id), {});
    MembersMapped(c, WithTotals(c), Kids(c, id), {});
    MappedLength(MembersBelow(c, id), WithTotals(c));
  }

  lemma MappedLength(rows: seq<Row>, w: Row -> Row)
    ensures Mapped(rows, w) == [] <==> rows == []
  {}

  lemma RowTotalled(c: seq<Row>, p: seq<Row>, d: string -> nat, n: nat, g: Row)
    requires DistinctIds(c) && Lists(p, Totals(c), d, n) && g in p
    ensures WithTotals(p)(g) == g
  {
    hide Filter, Mapped, Drop, TokensBelow, MembersBelow, Ranked, DistinctIds, SurvivingAncestor, Under;
    if g.grouped {
      var t := Totals(c);
      var h := DropComesFrom(t, g);
      ListsAgentsBelow(p, t, d, n, g, h);
      SameAgentsSameTotals(p, t, d, n, g, h);
      TotalsSettle(c, g.id);
      hide Totals;
      var k := TotalsComesFrom(c, h);
    }
  }

  lemma TotalsNothing(c: seq<Row>, p: seq<Row>, d: string -> nat, n: nat)
    requires DistinctIds(c) && Lists(p, Totals(c), d, n)
    ensures Totals(p) == p
  {
    hide WithTotals, Mapped, Lists;
    forall r | r in p
      ensures WithTotals(p)(r) == r
    {
      RowTotalled(c, p, d, n, r);
    }
    MappedSelf(p, WithTotals(p));
  }

  lemma MappedSelf(rows: seq<Row>, w: Row -> Row)
    requires forall r :: r in rows ==> w(r) == r
    ensures Mapped(rows, w) == rows
  {}

  lemma {:induction false} ClimbsToParentId(rows: seq<Row>, dropped: set<string>, candidate: Option<string>,
                                 seen: set<string>)
    requires candidate.Some? ==> candidate.value in ParentIds(rows)
    ensures var top := SurvivingAncestor(rows, dropped, candidate, seen);
            top.Some? ==> top.value in ParentIds(rows)
    decreases |dropped - seen|
  {
    if candidate.Some? && candidate.value in dropped && candidate.value !in seen {
      assert dropped - (seen + {candidate.value}) < dropped - seen;
      Shrinks(dropped - (seen + {candidate.value}), dropped - seen);
      var next := ParentOf(rows, candidate.value);
      assert next.Some? ==> next.value in ParentIds(rows);
      ClimbsToParentId(rows, dropped, next, seen + {candidate.value});
    }
  }

  lemma DropParentIds(rows: seq<Row>)
    ensures ParentIds(Drop(rows)) <= ParentIds(rows)
  {
    hide Drop, SurvivingAncestor, Mapped, Filter;
    forall m | m in Drop(rows) && m.parent.Some?
      ensures m.parent.value in ParentIds(rows)
    {
      var r := DropComesFrom(rows, m);
      RehungParent(rows, r);
    }
  }

  lemma RehungParent(rows: seq<Row>, r: Row)
    requires r in rows
    ensures Rehung(rows)(r).parent.Some? ==> Rehung(rows)(r).parent.value in ParentIds(rows)
  {
    RowNames(rows, r);
    hide ParentIds;
    ClimbsToParentId(rows, Dropped(rows), r.parent, {});
  }

  /** The source row a listed row stands for. */
  lemma ListedComesFrom(s: seq<Row>, p: seq<Row>, m: Row) returns (r: Row)
    requires SameRows(p, Drop(Totals(Compact(s)))) && m in p
    ensures r in s && r.id !in Collapsed(s) && r.id == m.id && r.status == m.status
  {
    hide Mapped, Filter, Drop, Totals, Compact, Collapsed;
    var t := DropComesFrom(Totals(Compact(s)), m);
    RehungStatus(Totals(Compact(s)), t);
    var c := TotalsComesFrom(Compact(s), t);
    r := CompactComesFrom(s, c);
  }

  lemma RehungStatus(rows: seq<Row>, r: Row)
    ensures Rehung(rows)(r).status == r.status
  {}

  /** No collapsible anchor is left with a row below it, nested anchors included. */
  lemma CollapsesNothing(s: seq<Row>, p: seq<Row>)
    requires DistinctIds(s) && SameRows(p, Drop(Totals(Compact(s))))
    ensures Collapsed(p) == {}
  {
    var c := Compact(s);
    CompactParentIds(s);
    TotalsParents(c);
    DropParentIds(Totals(c));
    SameParentIds(p, Drop(Totals(c)));
    hide Compact, Totals, Drop, ParentIds, SameRows;
    forall m | m in p && m.id in ParentIds(p) && IsAnchor(m)
      ensures m.status == Error || m.status == Cancelled
    {
      var r := ListedComesFrom(s, p, m);
      assert r.id in ParentIds(s) && IsAnchor(r);
    }
  }

  lemma SameParentIds(a: seq<Row>, b: seq<Row>)
    requires SameRows(a, b)
    ensures ParentIds(a) == ParentIds(b)
  {}

  // ---- newest run first ----

  /** The newest run id is the greatest of the rows' run ids. */
  lemma {:induction false} NewestFromIs(rows: seq<Row>, newest: Option<string>)
    ensures var top := NewestFrom(rows, newest);
            && (newest.Some? ==> top.Some? && !TextOrder.Before(top.value, newest.value))
            && (top.Some? ==> top == newest || exists r :: r in rows && r.run == top)
            && (forall r :: r in rows && r.run.Some? ==> top.Some? && !TextOrder.Before(top.value, r.run.value))
  {
    if rows == [] {
      if newest.Some? {
        TextOrder.BeforeIrreflexive(newest.value);
      }
    } else {
      var run := rows[0].run;
      var next := if run.Some? && (newest.None? || TextOrder.Before(newest.value, run.value)) then run else newest;
      NewestFromIs(rows[1..], next);
      var top := NewestFrom(rows[1..], next);
      if newest.Some? && run.Some? && TextOrder.Before(newest.value, run.value) {
        NotBefore(newest.value, run.value, top.value);
      }
      if run.Some? && next == newest && !TextOrder.Before(newest.value, run.value) {
        NotBeforeTwice(run.value, newest.value, top.value);
      }
      assert rows[0] in rows;
    }
  }

  lemma NotBefore(a: string, b: string, top: string)
    requires TextOrder.Before(a, b) && !TextOrder.Before(top, b)
    ensures !TextOrder.Before(top, a)
  {
    if TextOrder.Before(top, a) {
      TextOrder.BeforeTransitive(top, a, b);
    }
  }

  lemma NotBeforeTwice(a: string, b: string, top: string)
    requires !TextOrder.Before(b, a) && !TextOrder.Before(top, b)
    ensures !TextOrder.Before(top, a)
  {
    TextOrder.BeforeTotal(a, b);
    TextOrder.BeforeTotal(b, top);
    if TextOrder.Before(top, a) {
      if a != b {
        TextOrder.BeforeTransitive(top, a, b);
      }
    }
  }

  lemma NewestIsTheRows(a: seq<Row>, b: seq<Row>)
    requires SameRows(a, b)
    ensures NewestRun(a) == NewestRun(b)
  {
    NewestFromIs(a, None);
    NewestFromIs(b, None);
    if NewestRun(a).Some? && NewestRun(b).Some? {
      TextOrder.BeforeTotal(NewestRun(a).value, NewestRun(b).value);
    }
  }

  lemma NewestFirstSame(rows: seq<Row>, newest: string)
    requires DistinctIds(rows)
    ensures SameRows(NewestFirst(rows, newest), rows) && DistinctIds(NewestFirst(rows, newest))
  {
    var current, earlier := Filter(rows, IsCurrent(newest)), Filter(rows, IsEarlier(newest));
    FilterDistinct(rows, IsCurrent(newest));
    FilterDistinct(rows, IsEarlier(newest));
    forall x, y | x in current && y in earlier
      ensures x.id != y.id
    {
      if x.id == y.id {
        SameIdSameRow(rows, x, y);
      }
    }
    DistinctConcat(current, earlier);
  }

  lemma NewestFirstOfFilter(rows: seq<Row>, newest: string, f: Row -> bool)
    ensures Filter(NewestFirst(rows, newest), f) == NewestFirst(Filter(rows, f), newest)
  {
    FilterConcat(Filter(rows, IsCurrent(newest)), Filter(rows, IsEarlier(newest)), f);
    FilterCommutes(rows, IsCurrent(newest), f);
    FilterCommutes(rows, IsEarlier(newest), f);
  }

  lemma NewestFirstTwice(rows: seq<Row>, newest: string)
    ensures NewestFirst(NewestFirst(rows, newest), newest) == NewestFirst(rows, newest)
  {
    var f, g := IsCurrent(newest), IsEarlier(newest);
    NewestFirstOfFilter(rows, newest, f);
    NewestFirstOfFilter(rows, newest, g);
    FilterTwice(rows, f);
    FilterTwice(rows, g);
    FilterNone(Filter(rows, f), g);
    FilterNone(Filter(rows, g), f);
    var twice := NewestFirst(rows, newest);
    assert Filter(twice, f) == Filter(rows, f) by { hide Filter; assert Filter(rows, f) + [] == Filter(rows, f); }
    assert Filter(twice, g) == Filter(rows, g) by { hide Filter; assert [] + Filter(rows, g) == Filter(rows, g); }
  }

  /** Putting ranked members newest first and ranking them again is ranking them newest first. */
  lemma RankNewestFirst(rows: seq<Row>, newest: string)
    ensures OrderMembers(NewestFirst(OrderMembers(rows), newest)) == OrderMembers(NewestFirst(rows, newest))
  {
    hide NewestFirst, Filter;
    RankBucket(rows, newest, 0);
    RankBucket(rows, newest, 1);
    RankBucket(rows, newest, 2);
    RankBucket(rows, newest, 3);
  }

  lemma RankBucket(rows: seq<Row>, newest: string, rank: nat)
    ensures OfRank(NewestFirst(OrderMembers(rows), newest), rank) == OfRank(NewestFirst(rows, newest), rank)
  {
    hide NewestFirst, Filter;
    OfRankOrdered(rows, rank);
    NewestFirstOfFilter(OrderMembers(rows), newest, HasRank(rank));
    NewestFirstOfFilter(rows, newest, HasRank(rank));
  }

  lemma SamePartitionKids(o: seq<Row>, x: seq<Row>, p: seq<Row>, newest: string, r: Row)
    requires x == NewestFirst(o, newest) && Kids(p, r.id) == ChildrenOf(x)(r)
    ensures ChildrenOf(NewestFirst(p, newest))(r) == ChildrenOf(x)(r)
  {
    hide NewestFirst, Filter, OrderMembers;
    var kids := Kids(o, r.id);
    NewestFirstOfFilter(o, newest, IsKid(r.id));
    NewestFirstOfFilter(p, newest, IsKid(r.id));
    NewestFirstTwice(kids, newest);
    if r.grouped {
      RankNewestFirst(Kids(x, r.id), newest);
    }
  }

  lemma SamePartitionRoots(o: seq<Row>, x: seq<Row>, p: seq<Row>, newest: string)
    requires DistinctIds(o) && DistinctIds(p) && x == NewestFirst(o, newest) && SameRows(p, x) && Roots(p) == Roots(x)
    ensures Roots(NewestFirst(p, newest)) == Roots(x)
  {
    var y := NewestFirst(p, newest);
    NewestFirstSame(o, newest);
    NewestFirstSame(p, newest);
    SameRowsIds(o, x);
    SameRowsIds(p, x);
    SameRowsIds(y, p);
    hide NewestFirst;
    NewestFirstOfFilter(o, newest, IsRoot(x));
    NewestFirstOfFilter(p, newest, IsRoot(y));
    FilterSame(p, IsRoot(y), IsRoot(p));
    NewestFirstTwice(Filter(o, IsRoot(x)), newest);
  }

  lemma PartitionKeeps(rows: seq<Row>, d: string -> nat, n: nat)
    requires DistinctIds(rows) && Ranked(rows, d, n) && Dropped(rows) == {}
    ensures SameRows(Partition(rows), rows) && DistinctIds(Partition(rows))
    ensures Ranked(Partition(rows), d, n) && Dropped(Partition(rows)) == {}
  {
    hide Filter, NewestRun, Order, NewestFirst, Ranked, DistinctIds, Dropped, Drop;
    var newest := NewestRun(rows);
    if newest.Some? && Filter(rows, IsEarlier(newest.value)) != [] {
      var x := NewestFirst(rows, newest.value);
      NewestFirstSame(rows, newest.value);
      SameDropped(rows, x);
      DropNothing(x);
      OrderLosesNothing(x);
      SameRowsRanked(rows, Order(x), d, n);
    }
  }

  lemma SameDropped(a: seq<Row>, b: seq<Row>)
    requires SameRows(a, b)
    ensures Dropped(a) == Dropped(b)
  {}

  /** Ordered rows, partitioned: still ordered, and partitioned already. */
  lemma PartitionSettles(rows: seq<Row>, d: string -> nat, n: nat)
    requires DistinctIds(rows) && Ranked(rows, d, n) && Dropped(rows) == {} && Order(rows) == rows
    ensures Order(Partition(rows)) == Partition(rows) && Partition(Partition(rows)) == Partition(rows)
  {
    hide Filter, Order, Ranked, DistinctIds, SameRows, Dropped, ChildrenOf, Roots;
    PartitionKeeps(rows, d, n);
    var p := Partition(rows);
    NewestIsTheRows(p, rows);
    var newest := NewestRun(rows);
    if newest.Some? && Filter(rows, IsEarlier(newest.value)) != [] {
      var x := NewestFirst(rows, newest.value);
      PartitionReorders(rows, x, p, newest.value, d, n);
    }
  }

  lemma PartitionReorders(o: seq<Row>, x: seq<Row>, p: seq<Row>, newest: string, d: string -> nat, n: nat)
    requires DistinctIds(o) && Ranked(o, d, n) && Dropped(o) == {}
    requires x == NewestFirst(o, newest) && p == Order(x)
    ensures Order(p) == p && Order(NewestFirst(p, newest)) == p
  {
    hide NewestFirst, Order, ChildrenOf, Filter, Roots, Kids, Ranked;
    NewestFirstSame(o, newest);
    SameDropped(o, x);
    SameRowsRanked(o, x, d, n);
    DropNothing(x);
    OrderTwice(x, d, n);
    OrderLosesNothing(x);
    OrderKeepsSiblings(x, d, n);
    SamePartitionRoots(o, x, p, newest);
    NewestFirstSame(p, newest);
    forall r | r in x
      ensures ChildrenOf(x)(r) == ChildrenOf(NewestFirst(p, newest))(r)
    {
      SamePartitionKids(o, x, p, newest, r);
    }
    OrderCongruent(x, NewestFirst(p, newest), d, n);
  }

  // ---- the projection ----

  lemma ProjectIsOrdered(rows: seq<Row>, d: string -> nat, n: nat)
    requires DistinctIds(rows) && Ranked(rows, d, n)
    ensures Lists(Project(rows), Totals(Compact(rows)), d, n)
    ensures Order(Project(rows)) == Project(rows) && Partition(Project(rows)) == Project(rows)
  {
    hide Compact, Totals, Order, Partition, Drop, Ranked, DistinctIds, Dropped, Mapped;
    var c := Compact(rows);
    CompactDistinct(rows);
    CompactRanked(rows, d, n);
    var t := Totals(c);
    TotalsKeep(c, d, n);
    var o := Order(t);
    OrderLosesNothing(t);
    OrderTwice(t, d, n);
    DropRanked(t, d, n);
    SameRowsRanked(Drop(t), o, d, n);
    PartitionKeeps(o, d, n);
    PartitionSettles(o, d, n);
  }

  /** Projecting what was projected gives it back: the same rows, with the same contents, in the same order. */
  lemma ProjectionIsIdempotent(rows: seq<Row>)
    requires DistinctIds(rows) && Acyclic(rows)
    ensures Project(Project(rows)) == Project(rows)
  {
    var d: string -> nat, n: nat :| Ranked(rows, d, n);
    hide Compact, Totals, Order, Partition, Drop, DistinctIds, Dropped, Collapsed;
    var p := Project(rows);
    ProjectIsOrdered(rows, d, n);
    CollapsesNothing(rows, p);
    CompactNothing(p);
    CompactDistinct(rows);
    TotalsNothing(Compact(rows), p, d, n);
  }

  /** The projection hides only collapsed anchors and small headings, and repeats nothing. */
  lemma ProjectionLosesNothing(rows: seq<Row>)
    requires DistinctIds(rows) && Acyclic(rows)
    ensures DistinctIds(Project(rows))
    ensures Ids(Project(rows)) == Ids(rows) - Collapsed(rows) - Dropped(Totals(Compact(rows)))
  {
    var d: string -> nat, n: nat :| Ranked(rows, d, n);
    hide Compact, Totals, Order, Partition, Drop, DistinctIds, Dropped, Collapsed, Project;
    ProjectIsOrdered(rows, d, n);
    DropIds(Totals(Compact(rows)));
    SameRowsIds(Project(rows), Drop(Totals(Compact(rows))));
    TotalsParents(Compact(rows));
    CompactIds(rows);
  }

  /**
   What a heading ends up saying: the token sum over the agents below it, if any has tokens,
   and, unless it states counts itself, how many leaf agents below it are done and failed.
   */
  lemma HeadingSays(rows: seq<Row>, d: string -> nat, n: nat, g: Row)
    requires DistinctIds(rows) && Ranked(rows, d, n) && g in rows && g.grouped
    ensures var below := Flat(KidsIn(rows), n, Kids(rows, g.id));
            var leaves := Filter(below, IsLeafAgent(rows, d, n));
            var said := WithTotals(rows)(g);
            && said.tokens == (if FoldTokens(below).Some? then FoldTokens(below) else g.tokens)
            && (if g.groupCompleted.Some? || g.groupFailed.Some? || leaves == []
                then said.groupCompleted == g.groupCompleted && said.groupFailed == g.groupFailed
                else said.groupCompleted == Some(|Filter(leaves, HasStatus(Done))|)
                     && said.groupFailed == Some(|Filter(leaves, HasStatus(Error))|))
  {
    hide Flat, Under, Filter, Kids, TokensBelow, MembersBelow, FoldTokens;
    HeadingTotals(rows, d, n, g);
  }
}
