/**
 What an operator reads off the focused fleet (fleet-menu.ts, agent-live-panel.ts): which
 rows are shown, what they say, and in which order they hang from one row.
 */
module FleetReading {
  import opened Wrappers
  import opened LiveRows
  import opened LiveRowForest
  import opened LiveRowOrder
  import opened LiveRowSiblings
  import opened FleetProjection
  import opened FleetTotals
  import opened FleetCompaction
  import opened FleetIdempotence
  import TextOrder

  // ---- the newest run first ----

  /** The row belongs to no run, or to one that no other row's run is later than. */
  ghost predicate IsNewest(rows: seq<Row>, r: Row) {
    r.run.None? || forall z :: z in rows && z.run.Some? ==> !TextOrder.Before(r.run.value, z.run.value)
  }

  lemma CurrentIsNewest(rows: seq<Row>, r: Row)
    requires r in rows
    ensures var newest := NewestRun(rows);
            if newest.None? then r.run.None?
            else
              && (IsNewest(rows, r) <==> IsCurrent(newest.value)(r))
              && (IsNewest(rows, r) <==> !IsEarlier(newest.value)(r))
  {
    NewestFromIs(rows, None);
    var newest := NewestRun(rows);
    if newest.Some? && r.run.Some? {
      TextOrder.BeforeTotal(r.run.value, newest.value);
    }
  }

  lemma SameNewest(a: seq<Row>, b: seq<Row>, r: Row)
    requires SameRows(a, b)
    ensures IsNewest(a, r) <==> IsNewest(b, r)
  {}

  lemma NewestPart(rows: seq<Row>, newest: string, p: nat)
    requires p < |NewestFirst(rows, newest)| && NewestRun(rows) == Some(newest)
    ensures NewestFirst(rows, newest)[p] in rows
    ensures IsNewest(rows, NewestFirst(rows, newest)[p]) <==> p < |Filter(rows, IsCurrent(newest))|
  {
    var c, e := Filter(rows, IsCurrent(newest)), Filter(rows, IsEarlier(newest));
    var x := NewestFirst(rows, newest)[p];
    assert p < |c| ==> x in c;
    assert p >= |c| ==> x in e;
    FilterHas(rows, IsCurrent(newest), x);
    FilterHas(rows, IsEarlier(newest), x);
    hide Filter, IsNewest, NewestRun;
    CurrentIsNewest(rows, x);
  }

  /** Who stands first among rows put newest first: the newest, and within a class as before. */
  lemma NewestFirstSays(rows: seq<Row>, newest: string, p: nat, q: nat)
    requires p < q < |NewestFirst(rows, newest)| && NewestRun(rows) == Some(newest)
    ensures var x, y := NewestFirst(rows, newest)[p], NewestFirst(rows, newest)[q];
            && x in rows && y in rows
            && (IsNewest(rows, y) ==> IsNewest(rows, x))
            && ((IsNewest(rows, x) <==> IsNewest(rows, y)) ==>
                  exists i, j :: 0 <= i < j < |rows| && rows[i] == x && rows[j] == y)
  {
    hide Filter, IsNewest, NewestRun, IsCurrent, IsEarlier;
    NewestPart(rows, newest, p);
    NewestPart(rows, newest, q);
    var c := |Filter(rows, IsCurrent(newest))|;
    if q < c {
      var i, j := FilterPlaces(rows, IsCurrent(newest), p, q);
    } else if p >= c {
      var i, j := FilterPlaces(rows, IsEarlier(newest), p - c, q - c);
    }
  }

  // ---- the order of the projection ----

  lemma TotalsPlace(rows: seq<Row>, i: nat)
    requires i < |rows|
    ensures |Totals(rows)| == |rows| && Totals(rows)[i].id == rows[i].id
  {
    hide WithTotals;
    TotalsLevel(rows, rows[i]);
  }

  lemma CompactPlace(rows: seq<Row>, i: nat)
    requires i < |Compact(rows)|
    ensures |Filter(rows, Stays(rows))| == |Compact(rows)|
    ensures Compact(rows)[i].id == Filter(rows, Stays(rows))[i].id
  {
    hide Filter, Collapsed;
  }

  /** Folding and totalling move nothing. */
  lemma TotalsBefore(rows: seq<Row>, a: string, b: string)
    requires Before(Totals(Compact(rows)), a, b)
    ensures Before(rows, a, b)
  {
    hide Filter, Totals, Compact;
    var t, c := Totals(Compact(rows)), Compact(rows);
    var i, j :| 0 <= i < j < |t| && t[i].id == a && t[j].id == b;
    TotalsSize(c);
    TotalsPlace(c, i);
    TotalsPlace(c, j);
    CompactPlace(rows, i);
    CompactPlace(rows, j);
    FilterBefore(rows, Stays(rows), i, j);
    hide Before;
  }

  lemma TotalsSize(rows: seq<Row>)
    ensures |Totals(rows)| == |rows|
  {}

  /** What is said of two rows of the projected list, `x` before `y`, that hang from the same row or from none. */
  ghost predicate ReadsRight(rows: seq<Row>, shown: seq<Row>, heading: bool, x: Row, y: Row) {
    && (heading ==> MayPrecede(x.status, y.status))
    && (!heading || Alike(x.status, y.status) ==>
          && (IsNewest(shown, y) ==> IsNewest(shown, x))
          && ((IsNewest(shown, x) <==> IsNewest(shown, y)) ==> Before(rows, x.id, y.id)))
  }

  lemma OrderedReads(rows: seq<Row>, d: string -> nat, n: nat, i: nat, j: nat)
    requires DistinctIds(rows) && Ranked(rows, d, n)
    requires var q := Order(Totals(Compact(rows))); i < j < |q| && Siblings(q, q[i], q[j])
    ensures var q := Order(Totals(Compact(rows)));
            RightOrder(rows, HasParent(q, q[i]) && Parent(q, q[i]).grouped, q[i], q[j])
  {
    hide Order, Siblings, DistinctIds, Ranked, Totals, Compact;
    var t := Totals(Compact(rows));
    CompactDistinct(rows);
    CompactRanked(rows, d, n);
    TotalsKeep(Compact(rows), d, n);
    SiblingsAreOrdered(t, d, n, i, j);
    var q := Order(t);
    if Before(t, q[i].id, q[j].id) {
      TotalsBefore(rows, q[i].id, q[j].id);
    }
    hide Before, HasParent;
  }

  lemma SameSiblings(a: seq<Row>, b: seq<Row>, x: Row, y: Row)
    requires DistinctIds(a) && DistinctIds(b) && SameRows(a, b) && Siblings(a, x, y)
    ensures Siblings(b, x, y) && (HasParent(a, x) <==> HasParent(b, x))
    ensures HasParent(a, x) ==> Parent(a, x) == Parent(b, x)
  {
    SameRowsIds(a, b);
    if HasParent(a, x) {
      SameRowsFind(a, b, x.parent.value);
    }
    hide DistinctIds;
  }

  /** Reading rows put newest first off the rows as they were before. */
  lemma ReadsFrom(rows: seq<Row>, q: seq<Row>, newest: string, heading: bool, x: Row, y: Row)
    requires DistinctIds(q) && NewestRun(q) == Some(newest) && x in q && y in q
    requires RightOrder(NewestFirst(q, newest), heading, x, y)
    requires (exists a, b :: 0 <= a < b < |q| && q[a] == x && q[b] == y) ==> RightOrder(rows, heading, x, y)
    ensures ReadsRight(rows, q, heading, x, y)
  {
    hide NewestFirst, NewestRun, MayPrecede, Alike, IsNewest, DistinctIds;
    if Before(NewestFirst(q, newest), x.id, y.id) {
      hide Before;
      ReorderedPlaces(q, newest, x, y);
    }
    hide Before;
  }

  lemma ReorderedKeeps(q: seq<Row>, newest: string, d: string -> nat, n: nat)
    requires DistinctIds(q) && Ranked(q, d, n) && Dropped(q) == {}
    ensures var r := NewestFirst(q, newest);
            && DistinctIds(r) && Ranked(r, d, n)
            && DistinctIds(Order(r)) && SameRows(Order(r), q)
  {
    hide Order, NewestFirst, Ranked, Dropped, DistinctIds, Drop;
    var r := NewestFirst(q, newest);
    NewestFirstSame(q, newest);
    SameDropped(q, r);
    DropNothing(r);
    SameRowsRanked(q, r, d, n);
    OrderLosesNothing(r);
  }

  /** What is needed of the ordered rows `q` to read them once they are put newest first. */
  lemma ReorderedReads(rows: seq<Row>, q: seq<Row>, newest: string, d: string -> nat, n: nat, i: nat, j: nat)
    requires DistinctIds(q) && Ranked(q, d, n) && Dropped(q) == {} && NewestRun(q) == Some(newest)
    requires forall a, b :: 0 <= a < b < |q| && Siblings(q, q[a], q[b]) ==>
               RightOrder(rows, HasParent(q, q[a]) && Parent(q, q[a]).grouped, q[a], q[b])
    requires var p := Order(NewestFirst(q, newest)); i < j < |p| && Siblings(p, p[i], p[j])
    ensures var p := Order(NewestFirst(q, newest));
            ReadsRight(rows, p, HasParent(p, p[i]) && Parent(p, p[i]).grouped, p[i], p[j])
  {
    var p := Order(NewestFirst(q, newest));
    var x, y := p[i], p[j];
    hide Order, NewestFirst, NewestRun, Ranked, Dropped, Siblings, ReadsRight, RightOrder, DistinctIds, HasParent;
    ReorderedKeeps(q, newest, d, n);
    SiblingsAreOrdered(NewestFirst(q, newest), d, n, i, j);
    SameSiblings(p, q, x, y);
    SameRowsHold(p, q, x);
    SameRowsHold(p, q, y);
    var heading := HasParent(p, x) && Parent(p, x).grouped;
    if a, b :| 0 <= a < b < |q| && q[a] == x && q[b] == y {
      assert Siblings(q, q[a], q[b]);
    }
    ReadsFrom(rows, q, newest, heading, x, y);
    SameReading(rows, q, p, heading, x, y);
  }

  lemma SameReading(rows: seq<Row>, q: seq<Row>, p: seq<Row>, heading: bool, x: Row, y: Row)
    requires SameRows(p, q) && ReadsRight(rows, q, heading, x, y)
    ensures ReadsRight(rows, p, heading, x, y)
  {
    SameNewest(p, q, x);
    SameNewest(p, q, y);
    hide IsNewest, SameRows, Before, MayPrecede, Alike;
  }

  lemma ReorderedPlaces(q: seq<Row>, newest: string, x: Row, y: Row)
    requires DistinctIds(q) && NewestRun(q) == Some(newest) && x in q && y in q
    requires Before(NewestFirst(q, newest), x.id, y.id)
    ensures IsNewest(q, y) ==> IsNewest(q, x)
    ensures (IsNewest(q, x) <==> IsNewest(q, y)) ==> exists a, b :: 0 <= a < b < |q| && q[a] == x && q[b] == y
  {
    var r := NewestFirst(q, newest);
    var a, b :| 0 <= a < b < |r| && r[a].id == x.id && r[b].id == y.id;
    NewestFirstSays(q, newest, a, b);
    SameIdSameRow(q, r[a], x);
    SameIdSameRow(q, r[b], y);
    hide IsNewest, NewestFirst, NewestRun, DistinctIds;
  }

  /**
   The order of the focused fleet. Of two rows that hang from the same row, or from none, no
   row of an earlier run comes before one that belongs to no run or to the newest; and within
   either class they stand as in the input. Under a heading that decides only where the
   status does not: working rows first, then errors, then queued ones, then the finished.
   */
  lemma ProjectionReads(rows: seq<Row>, d: string -> nat, n: nat, i: nat, j: nat)
    requires DistinctIds(rows) && Ranked(rows, d, n) && i < j < |Project(rows)|
    requires Siblings(Project(rows), Project(rows)[i], Project(rows)[j])
    ensures var shown := Project(rows);
            var x := shown[i];
            ReadsRight(rows, shown, HasParent(shown, x) && Parent(shown, x).grouped, x, shown[j])
  {
    hide Order, Totals, Compact, NewestRun, NewestFirst, Filter, DistinctIds, Ranked, Dropped, Siblings, ReadsRight,
         RightOrder;
    var q := Order(Totals(Compact(rows)));
    OrderedKeeps(rows, d, n);
    forall a, b | 0 <= a < b < |q| && Siblings(q, q[a], q[b])
      ensures RightOrder(rows, HasParent(q, q[a]) && Parent(q, q[a]).grouped, q[a], q[b])
    {
      OrderedReads(rows, d, n, a, b);
    }
    var newest := NewestRun(q);
    if newest.Some? && Filter(q, IsEarlier(newest.value)) != [] {
      ReorderedReads(rows, q, newest.value, d, n, i, j);
    } else {
      NothingEarlier(rows, q, HasParent(q, q[i]) && Parent(q, q[i]).grouped, q[i], q[j]);
    }
  }

  lemma NothingEarlier(rows: seq<Row>, q: seq<Row>, heading: bool, x: Row, y: Row)
    requires x in q && y in q && RightOrder(rows, heading, x, y)
    requires NewestRun(q).None? || Filter(q, IsEarlier(NewestRun(q).value)) == []
    ensures ReadsRight(rows, q, heading, x, y)
  {
    CurrentIsNewest(q, x);
    CurrentIsNewest(q, y);
    if NewestRun(q).Some? {
      FilterHas(q, IsEarlier(NewestRun(q).value), x);
      FilterHas(q, IsEarlier(NewestRun(q).value), y);
    }
    hide NewestRun, Before, MayPrecede, Alike, Filter;
  }

  lemma OrderedKeeps(rows: seq<Row>, d: string -> nat, n: nat)
    requires DistinctIds(rows) && Ranked(rows, d, n)
    ensures var q := Order(Totals(Compact(rows))); DistinctIds(q) && Ranked(q, d, n) && Dropped(q) == {}
  {
    hide Order, Totals, Compact, DistinctIds, Ranked, Dropped, Drop, SameRows;
    var t := Totals(Compact(rows));
    CompactDistinct(rows);
    CompactRanked(rows, d, n);
    TotalsKeep(Compact(rows), d, n);
    OrderLosesNothing(t);
    DropRanked(t, d, n);
    DropIds(t);
    SameRowsRanked(Drop(t), Order(t), d, n);
    SameRowsDropped(Order(t), Drop(t));
  }

  lemma SameRowsDropped(a: seq<Row>, b: seq<Row>)
    requires SameRows(a, b)
    ensures Dropped(a) == Dropped(b) && SameRows(b, a)
  {}

  // ---- which rows are shown ----

  predicate HasAt(text: string, part: string, i: int) {
    0 <= i <= |text| - |part| && text[i..i + |part|] == part
  }

  /** The text has this part somewhere. */
  ghost predicate Has(text: string, part: string) {
    exists i :: HasAt(text, part, i)
  }

  lemma {:induction false} IncludesSays(text: string, part: string)
    ensures Includes(text, part) <==> Has(text, part)
  {
    assert part <= text <==> HasAt(text, part, 0);
    if !(part <= text) && text != [] {
      IncludesSays(text[1..], part);
      if i :| HasAt(text, part, i) {
        HasLater(text, part, i - 1);
      }
      if i :| HasAt(text[1..], part, i) {
        HasLater(text, part, i);
      }
      hide HasAt;
    } else if text == [] {
      assert forall i :: HasAt(text, part, i) ==> i == 0;
    }
  }

  lemma HasLater(text: string, part: string, i: int)
    requires text != [] && i >= -1 && (i == -1 ==> !HasAt(text, part, 0))
    ensures HasAt(text, part, i + 1) <==> HasAt(text[1..], part, i)
  {
    if 0 <= i <= |text[1..]| - |part| {
      assert text[1..][i..i + |part|] == text[i + 1..i + 1 + |part|];
    }
  }

  /** A workflow's own row, whose agent has a row below it, unless it has failed. */
  ghost predicate FoldedAnchor(rows: seq<Row>, r: Row) {
    && |r.id| >= 9 && r.id[..9] == "workflow:" && !Has(r.id, ":group:")
    && (exists c :: c in rows && c.parent == Some(r.id))
    && (r.status == Queued || r.status == Working || r.status == Done)
  }

  lemma CollapsedSays(rows: seq<Row>, r: Row)
    requires DistinctIds(rows) && r in rows
    ensures r.id in Collapsed(rows) <==> FoldedAnchor(rows, r)
  {
    IncludesSays(r.id, ":group:");
    ParentIdsSay(rows, r.id);
    assert |"workflow:"| == 9;
    assert "workflow:" <= r.id <==> |r.id| >= 9 && r.id[..9] == "workflow:";
    hide Includes, Has, ParentIds;
    forall q | q in rows && q.id == r.id
      ensures q == r
    {
      SameIdSameRow(rows, q, r);
    }
  }

  lemma ParentIdsSay(rows: seq<Row>, id: string)
    ensures id in ParentIds(rows) <==> exists c :: c in rows && c.parent == Some(id)
  {}

  /** Shown are all rows but folded workflow anchors and small headings, each once. */
  lemma ShownExactly(rows: seq<Row>, r: Row)
    requires DistinctIds(rows) && Acyclic(rows) && r in rows
    ensures DistinctIds(Project(rows))
    ensures r.id in Ids(Project(rows)) <==> !FoldedAnchor(rows, r) && !SmallHeading(r)
  {
    hide Project, Compact, Totals, Collapsed, FoldedAnchor, DistinctIds, Acyclic;
    ProjectionLosesNothing(rows);
    CollapsedSays(rows, r);
    if r.id !in Collapsed(rows) {
      SmallStaysSmall(rows, r);
    }
    RowNamed(rows, r);
    hide Dropped, SmallHeading, Ids;
  }

  lemma RowNamed(rows: seq<Row>, r: Row)
    requires r in rows
    ensures r.id in Ids(rows)
  {}

  lemma SmallStaysSmall(rows: seq<Row>, r: Row)
    requires DistinctIds(rows) && r in rows && r.id !in Collapsed(rows)
    ensures r.id in Dropped(Totals(Compact(rows))) <==> SmallHeading(r)
  {
    var c := Compact(rows);
    var m := Spliced(rows)(r);
    CompactDistinct(rows);
    hide Collapsed, WithTotals, Filter;
    assert m in c && m.grouped == r.grouped && m.groupTotal == r.groupTotal && m.id == r.id by {
      SplicedIsListed(rows, r);
    }
    TotalsLevel(c, m);
    hide Compact;
    var w := WithTotals(c)(m);
    assert w in Totals(c);
    forall h | h in Totals(c) && h.id == r.id
      ensures h == w
    {
      var q := TotalsComesFrom(c, h);
      SameIdSameRow(c, q, m);
    }
    hide Totals;
  }

  /**
   A shown row is the input's row: all that may differ is the row it hangs from and, for a
   heading, its totals.
   */
  lemma ShownSays(rows: seq<Row>, m: Row) returns (r: Row)
    requires DistinctIds(rows) && Acyclic(rows) && m in Project(rows)
    ensures r in rows && r.id == m.id
    ensures m == if r.grouped then r.(parent := m.parent, tokens := m.tokens, groupCompleted := m.groupCompleted,
                                      groupFailed := m.groupFailed)
                 else r.(parent := m.parent)
  {
    var d: string -> nat, n: nat :| Ranked(rows, d, n);
    hide Project, Compact, Totals, Drop, Filter, Collapsed, Ranked, DistinctIds, Rehung, WithTotals, Spliced;
    ProjectIsOrdered(rows, d, n);
    ListedRow(rows, m);
    var t := DropComesFrom(Totals(Compact(rows)), m);
    RehungSays(Totals(Compact(rows)), t);
    var c := TotalsComesFrom(Compact(rows), t);
    r := CompactComesFrom(rows, c);
    SplicedSays(rows, r);
  }

  lemma ListedRow(rows: seq<Row>, m: Row)
    requires SameRows(Project(rows), Drop(Totals(Compact(rows)))) && m in Project(rows)
    ensures m in Drop(Totals(Compact(rows)))
  {
    hide Project, Drop, Totals, Compact;
  }

  lemma SplicedSays(rows: seq<Row>, r: Row)
    ensures Spliced(rows)(r) == r.(parent := Spliced(rows)(r).parent)
  {
    hide Collapsed;
  }

  /**
   A shown heading says the sum of the tokens of the agents shown below it, wherever one of
   them has any.
   */
  lemma HeadingShowsTotals(rows: seq<Row>, d: string -> nat, n: nat, g: Row)
    requires DistinctIds(rows) && Ranked(rows, d, n) && g in Project(rows) && g.grouped
    ensures Ranked(Project(rows), d, n)
    ensures var shown := Project(rows);
            var below := Flat(KidsIn(shown), n, Kids(shown, g.id));
            && (forall x :: x in below <==> x in shown && x != g && Under(shown, d, n, x, g))
            && DistinctIds(below)
            && (HasTokens(below) ==> g.tokens == Some(Tokens(InputOf(below), OutputOf(below))))
  {
    hide Project, Compact, Totals, Order, Partition, Drop, Dropped, Collapsed, Flat, Under, Filter, Kids, WithTotals,
         TokensBelow, MembersBelow, FoldTokens, HasTokens, InputOf, OutputOf;
    var shown := Project(rows);
    ProjectIsOrdered(rows, d, n);
    CompactDistinct(rows);
    CompactRanked(rows, d, n);
    TotalsNothing(Compact(rows), shown, d, n);
    HeadingTotals(shown, d, n, g);
    TotalsAreKept(shown, g);
    SaysTotals(shown, g);
    FoldIsSum(Flat(KidsIn(shown), n, Kids(shown, g.id)));
  }

  lemma TotalsAreKept(rows: seq<Row>, g: Row)
    requires DistinctIds(rows) && Totals(rows) == rows && g in rows
    ensures WithTotals(rows)(g) == g
  {
    TotalsLevel(rows, g);
    hide WithTotals;
    var i :| 0 <= i < |rows| && rows[i] == g;
    assert Totals(rows)[i] == WithTotals(rows)(g);
  }

  lemma SaysTotals(rows: seq<Row>, g: Row)
    requires g.grouped && WithTotals(rows)(g) == g
    ensures TokensBelow(rows, g.id).Some? ==> g.tokens == TokensBelow(rows, g.id)
  {
    hide TokensBelow, MembersBelow, Filter;
  }

  /**
   Where a shown heading gets its numbers: counts that it came with stay; otherwise, if any
   agent is left below it once anchors are folded, they are how many of the leaf agents are
   done and how many have failed. Without an agent that has tokens its own stay.
   */
  lemma HeadingShowsCounts(rows: seq<Row>, d: string -> nat, n: nat, g: Row) returns (r: Row, folded: Row)
    requires DistinctIds(rows) && Ranked(rows, d, n) && g in Project(rows) && g.grouped
    ensures r in rows && r.id == g.id && folded in Compact(rows) && folded == r.(parent := folded.parent)
    ensures DistinctIds(Compact(rows)) && Ranked(Compact(rows), d, n)
    ensures var c := Compact(rows);
            var below := Flat(KidsIn(c), n, Kids(c, g.id));
            var leaves := Filter(below, IsLeafAgent(c, d, n));
            && (forall x :: x in below <==> x in c && x != folded && Under(c, d, n, x, folded))
            && g.tokens == (if HasTokens(below) then Some(Tokens(InputOf(below), OutputOf(below))) else r.tokens)
            && (if r.groupCompleted.Some? || r.groupFailed.Some? || leaves == []
                then g.groupCompleted == r.groupCompleted && g.groupFailed == r.groupFailed
                else g.groupCompleted == Some(CountOf(leaves, Done)) && g.groupFailed == Some(CountOf(leaves, Error)))
  {
    hide Project, Compact, Totals, Drop, Filter, Collapsed, Ranked, DistinctIds, Rehung, WithTotals, Spliced, Flat,
         Under, FoldTokens, HasTokens, InputOf, OutputOf, CountOf, IsLeafAgent, Kids;
    ProjectIsOrdered(rows, d, n);
    ListedRow(rows, g);
    var t := DropComesFrom(Totals(Compact(rows)), g);
    RehungSays(Totals(Compact(rows)), t);
    folded := TotalsComesFrom(Compact(rows), t);
    r := CompactComesFrom(rows, folded);
    SplicedSays(rows, r);
    CompactDistinct(rows);
    CompactRanked(rows, d, n);
    HeadingTotals(Compact(rows), d, n, folded);
    HeadingSays(Compact(rows), d, n, folded);
    var below := Flat(KidsIn(Compact(rows)), n, Kids(Compact(rows), g.id));
    FoldIsSum(below);
    CountSays(Filter(below, IsLeafAgent(Compact(rows), d, n)), Done);
    CountSays(Filter(below, IsLeafAgent(Compact(rows), d, n)), Error);
  }

  /** How many rows have this status. */
  function CountOf(rows: seq<Row>, status: Status): nat {
    if rows == [] then 0 else (if rows[0].status == status then 1 else 0) + CountOf(rows[1..], status)
  }

  lemma {:induction false} CountSays(rows: seq<Row>, status: Status)
    ensures |Filter(rows, HasStatus(status))| == CountOf(rows, status)
  {
    if rows != [] {
      CountSays(rows[1..], status);
    }
  }
}
