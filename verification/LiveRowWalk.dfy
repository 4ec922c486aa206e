/**
 The loops that build the tree order and the heading totals: maps from parent to
 children filled row by row, a list of ordered rows and a set of seen ids updated in
 place (agent-live-panel.ts, fleet-menu.ts). Each is proved to compute its value form.
 */
module LiveRowWalk {
  import opened Wrappers
  import opened LiveRows
  import opened LiveRowForest
  import opened LiveRowOrder
  import opened FleetProjection
  import opened FleetTotals
  import opened Sizes
  import TextOrder

  function Bucket(byParent: map<string, seq<Row>>, p: string): seq<Row> {
    if p in byParent then byParent[p] else []
  }

  ghost predicate Indexes(byParent: map<string, seq<Row>>, rows: seq<Row>) {
    forall p :: Bucket(byParent, p) == Kids(rows, p)
  }

  lemma IndexGrows(byParent: map<string, seq<Row>>, grown: map<string, seq<Row>>, rows: seq<Row>, row: Row)
    requires Indexes(byParent, rows)
    requires grown == if row.parent.None? then byParent
                      else byParent[row.parent.value := Bucket(byParent, row.parent.value) + [row]]
    ensures Indexes(grown, rows + [row])
  {
    forall p
      ensures Bucket(grown, p) == Kids(rows + [row], p)
    {
      FilterConcat(rows, [row], IsKid(p));
      assert Bucket(byParent, p) == Kids(rows, p);
      assert Kids([row], p) == if row.parent == Some(p) then [row] else [];
      assert Kids(rows, p) + [] == Kids(rows, p);
    }
  }

  method IndexByParent(rows: seq<Row>) returns (byParent: map<string, seq<Row>>)
    ensures Indexes(byParent, rows)
  {
    byParent := map[];
    var i := 0;
    NothingIndexed(rows[..0]);
    hide Indexes, Bucket, Kids, Filter;
    while i < |rows|
      invariant i <= |rows|
      invariant Indexes(byParent, rows[..i])
    {
      var row := rows[i];
      ghost var before := byParent;
      if row.parent.Some? {
        byParent := byParent[row.parent.value := Bucket(byParent, row.parent.value) + [row]];
      }
      IndexGrows(before, byParent, rows[..i], row);
      PrefixGrows(rows, i);
      i := i + 1;
    }
    assert rows[..i] == rows;
  }

  lemma NothingIndexed(rows: seq<Row>)
    requires rows == []
    ensures Indexes(map[], rows)
  {}

  lemma AppendTreeStep(kept: seq<Row>, ordered: seq<Row>, row: Row)
    requires row in kept && row.id !in Ids(ordered)
    ensures forall c :: c in ChildrenOf(kept)(row) ==> c in kept
    ensures Ids(ordered + [row]) == Ids(ordered) + {row.id}
    ensures Missing(kept, ordered + [row]) < Missing(kept, ordered)
    ensures AppendTree(kept, ordered, row) == AppendAll(kept, ordered + [row], ChildrenOf(kept)(row))
  {
    IdsConcat(ordered, [row]);
    assert Ids([row]) == {row.id};
    assert row in ordered + [row];
    MissingShrinks(kept, ordered, ordered + [row]);
    ChildrenAreKept(kept, row);
  }

  lemma AppendTreeSeen(kept: seq<Row>, ordered: seq<Row>, row: Row)
    requires row in kept && row.id in Ids(ordered)
    ensures AppendTree(kept, ordered, row) == ordered
  {}

  method ChildrenFound(kept: seq<Row>, byParent: map<string, seq<Row>>, row: Row) returns (children: seq<Row>)
    requires Indexes(byParent, kept)
    ensures children == ChildrenOf(kept)(row)
  {
    hide OrderMembers;
    assert Bucket(byParent, row.id) == Kids(kept, row.id);
    children := Bucket(byParent, row.id);
    if row.grouped {
      children := OrderMembers(children);
    }
  }

  /** One ordering run: rows are appended once each, children right after their parent. */
  class TreeWalk {
    const kept: seq<Row>
    const byParent: map<string, seq<Row>>
    var ordered: seq<Row>
    var seen: set<string>

    ghost predicate Valid()
      reads this
    {
      Indexes(byParent, kept) && seen == Ids(ordered)
    }

    constructor (kept: seq<Row>, byParent: map<string, seq<Row>>)
      requires Indexes(byParent, kept)
      ensures Valid() && this.kept == kept && ordered == []
    {
      this.kept, this.byParent := kept, byParent;
      ordered, seen := [], {};
    }

    method AppendTree(row: Row)
      requires Valid() && row in kept
      modifies this
      ensures Valid() && ordered == LiveRowOrder.AppendTree(kept, old(ordered), row)
      decreases Missing(kept, ordered), 0
    {
      hide LiveRowOrder.AppendTree, LiveRowOrder.AppendAll, LiveRowOrder.ChildrenOf, Missing, Ids, Indexes, Bucket;
      if row.id in seen {
        AppendTreeSeen(kept, ordered, row);
        return;
      }
      AppendTreeStep(kept, ordered, row);
      ordered := ordered + [row];
      seen := seen + {row.id};
      var children := ChildrenFound(kept, byParent, row);
      AppendAll(children);
    }

    method AppendAll(list: seq<Row>)
      requires Valid() && forall c :: c in list ==> c in kept
      modifies this
      ensures Valid() && ordered == LiveRowOrder.AppendAll(kept, old(ordered), list)
      decreases Missing(kept, ordered), 1
    {
      ghost var before := ordered;
      var i := 0;
      while i < |list|
        invariant i <= |list| && Valid() && before <= ordered
        invariant LiveRowOrder.AppendAll(kept, ordered, list[i..]) == LiveRowOrder.AppendAll(kept, before, list)
      {
        MissingShrinks(kept, before, ordered);
        assert list[i..][0] == list[i] && list[i..][1..] == list[i + 1..];
        AppendTree(list[i]);
        i := i + 1;
      }
    }
  }

  /** The nearest ancestor that is not dropped, found hop by hop. */
  method SurvivingAncestorId(rows: seq<Row>, dropped: set<string>, parent: string) returns (candidate: Option<string>)
    ensures candidate == SurvivingAncestor(rows, dropped, Some(parent), {})
  {
    candidate := Some(parent);
    var seen: set<string> := {};
    while candidate.Some? && candidate.value in dropped && candidate.value !in seen
      invariant SurvivingAncestor(rows, dropped, candidate, seen) == SurvivingAncestor(rows, dropped, Some(parent), {})
      decreases |dropped - seen|
    {
      assert dropped - (seen + {candidate.value}) < dropped - seen;
      Shrinks(dropped - (seen + {candidate.value}), dropped - seen);
      seen := seen + {candidate.value};
      candidate := ParentOf(rows, candidate.value);
    }
  }

  method DropSubThresholdGroupRows(rows: seq<Row>) returns (kept: seq<Row>)
    ensures kept == Drop(rows)
  {
    var dropped := Dropped(rows);
    if |dropped| == 0 {
      DropNothing(rows);
      return rows;
    }
    var surviving := Filter(rows, Survives(rows));
    hide SurvivingAncestor, Mapped, Filter, Dropped, Rehung;
    kept := [];
    var i := 0;
    while i < |surviving|
      invariant i <= |surviving|
      invariant kept == Mapped(surviving, Rehung(rows))[..i]
    {
      var row := RehungRow(rows, dropped, surviving[i]);
      MappedPrefix(surviving, Rehung(rows), i);
      kept := kept + [row];
      i := i + 1;
    }
    MappedWhole(surviving, Rehung(rows));
  }

  method RehungRow(rows: seq<Row>, dropped: set<string>, row: Row) returns (rehung: Row)
    requires dropped == Dropped(rows)
    ensures rehung == Rehung(rows)(row)
  {
    hide SurvivingAncestor, Dropped;
    rehung := row;
    if row.parent.Some? && row.parent.value in dropped {
      var next := SurvivingAncestorId(rows, dropped, row.parent.value);
      rehung := row.(parent := next);
    }
  }

  lemma MappedWhole(rows: seq<Row>, f: Row -> Row)
    ensures Mapped(rows, f)[..|rows|] == Mapped(rows, f)
  {}

  lemma PrefixGrows(rows: seq<Row>, i: nat)
    requires i < |rows|
    ensures rows[..i + 1] == rows[..i] + [rows[i]]
  {}

  lemma MappedPrefix(rows: seq<Row>, f: Row -> Row, i: nat)
    requires i < |rows|
    ensures Mapped(rows, f)[..i + 1] == Mapped(rows, f)[..i] + [f(rows[i])]
  {
    hide Mapped;
    PrefixGrows(Mapped(rows, f), i);
  }

  method OrderAgentLiveRows(rows: seq<Row>) returns (ordered: seq<Row>)
    ensures ordered == Order(rows)
  {
    var kept := DropSubThresholdGroupRows(rows);
    var byParent := IndexByParent(kept);
    var walk := new TreeWalk(kept, byParent);
    var roots := Roots(kept);
    walk.AppendAll(roots);
    walk.AppendAll(kept);
    ordered := walk.ordered;
  }

  /** Tokens of the agents below `list`; `seen` grows by the ids visited. */
  method SumDescendantTokens(rows: seq<Row>, byParent: map<string, seq<Row>>, list: seq<Row>, before: set<string>)
      returns (tokens: Option<Tokens>, seen: set<string>)
    requires Indexes(byParent, rows) && forall c :: c in list ==> c in rows
    ensures Sum(tokens, seen) == SumTokens(rows, list, before)
    decreases |Ids(rows) - before|, |list|
  {
    hide SumTokens, Kids, Filter, Ids, Indexes, Bucket, Add, OwnTokens;
    tokens, seen := None, before;
    var i := 0;
    assert list[0..] == list;
    AddNothing(SumTokens(rows, list, before).tokens);
    while i < |list|
      invariant i <= |list| && before <= seen
      invariant var rest := SumTokens(rows, list[i..], seen);
                Sum(Add(tokens, rest.tokens), rest.seen) == SumTokens(rows, list, before)
    {
      var child := list[i];
      assert list[i..][0] == child && list[i..][1..] == list[i + 1..];
      if child.id in seen {
        SumSkip(rows, list[i..], seen);
      } else {
        SumStep(rows, list[i..], seen);
        SeeingShrinks(rows, child, seen, seen + {child.id});
        SubsetSize(Ids(rows) - seen, Ids(rows) - before);
        BucketIs(byParent, rows, child.id);
        var nested, wider := SumDescendantTokens(rows, byParent, Bucket(byParent, child.id), seen + {child.id});
        AddRegroups(tokens, OwnTokens(child), nested, SumTokens(rows, list[i + 1..], wider).tokens);
        tokens, seen := Add(Add(tokens, OwnTokens(child)), nested), wider;
      }
      i := i + 1;
    }
    SumEnd(rows, list[i..], seen);
    AddNothing(tokens);
  }

  lemma AddNothing(a: Option<Tokens>)
    ensures Add(None, a) == a && Add(a, None) == a
  {}

  lemma SumSkip(rows: seq<Row>, list: seq<Row>, seen: set<string>)
    requires (forall c :: c in list ==> c in rows) && list != [] && list[0].id in seen
    ensures forall c :: c in list[1..] ==> c in rows
    ensures SumTokens(rows, list, seen) == SumTokens(rows, list[1..], seen)
  {}

  lemma SumEnd(rows: seq<Row>, list: seq<Row>, seen: set<string>)
    requires list == []
    ensures SumTokens(rows, list, seen) == Sum(None, seen)
  {}

  lemma AddRegroups(a: Option<Tokens>, b: Option<Tokens>, c: Option<Tokens>, e: Option<Tokens>)
    ensures Add(a, Add(Add(b, c), e)) == Add(Add(Add(a, b), c), e)
  {}

  /** Leaf agents below `list`, in preorder. */
  method GroupMemberRows(rows: seq<Row>, byParent: map<string, seq<Row>>, list: seq<Row>, before: set<string>)
      returns (members: seq<Row>, seen: set<string>)
    requires Indexes(byParent, rows) && forall c :: c in list ==> c in rows
    ensures Members(members, seen) == MemberRows(rows, list, before)
    decreases |Ids(rows) - before|, |list|
  {
    hide MemberRows, Kids, Filter, Ids, Indexes, Bucket;
    members, seen := [], before;
    var i := 0;
    assert list[0..] == list;
    MembersJoin([], [], MemberRows(rows, list, before).rows);
    while i < |list|
      invariant i <= |list| && before <= seen
      invariant var rest := MemberRows(rows, list[i..], seen);
                Members(members + rest.rows, rest.seen) == MemberRows(rows, list, before)
    {
      var child := list[i];
      assert list[i..][0] == child && list[i..][1..] == list[i + 1..];
      if child.id in seen {
        MemberSkip(rows, list[i..], seen);
      } else {
        MemberStep(rows, list[i..], seen);
        SeeingShrinks(rows, child, seen, seen + {child.id});
        SubsetSize(Ids(rows) - seen, Ids(rows) - before);
        BucketIs(byParent, rows, child.id);
        var nested, wider := GroupMemberRows(rows, byParent, Bucket(byParent, child.id), seen + {child.id});
        var own := if nested != [] then nested else if child.grouped then [] else [child];
        MembersJoin(members, own, MemberRows(rows, list[i + 1..], wider).rows);
        members, seen := members + own, wider;
      }
      i := i + 1;
    }
    MemberEnd(rows, list[i..], seen);
    MembersJoin(members, [], []);
  }

  lemma BucketIs(byParent: map<string, seq<Row>>, rows: seq<Row>, p: string)
    requires Indexes(byParent, rows)
    ensures Bucket(byParent, p) == Kids(rows, p)
  {}

  lemma MembersJoin(a: seq<Row>, b: seq<Row>, c: seq<Row>)
    ensures a + (b + c) == (a + b) + c && [] + c == c && c + [] == c && a + [] == a
  {}

  lemma MemberEnd(rows: seq<Row>, list: seq<Row>, seen: set<string>)
    requires list == []
    ensures MemberRows(rows, list, seen) == Members([], seen)
  {}

  lemma MemberSkip(rows: seq<Row>, list: seq<Row>, seen: set<string>)
    requires (forall c :: c in list ==> c in rows) && list != [] && list[0].id in seen
    ensures forall c :: c in list[1..] ==> c in rows
    ensures MemberRows(rows, list, seen) == MemberRows(rows, list[1..], seen)
  {}

  method WithWorkflowGroupTotals(rows: seq<Row>) returns (totalled: seq<Row>)
    ensures totalled == Totals(rows)
  {
    var byParent := IndexByParent(rows);
    hide Mapped, WithTotals, Indexes;
    totalled := [];
    var i := 0;
    while i < |rows|
      invariant i <= |rows|
      invariant totalled == Mapped(rows, WithTotals(rows))[..i]
    {
      var row := TotalledRow(rows, byParent, rows[i]);
      MappedPrefix(rows, WithTotals(rows), i);
      totalled := totalled + [row];
      i := i + 1;
    }
    MappedWhole(rows, WithTotals(rows));
  }

  method TotalledRow(rows: seq<Row>, byParent: map<string, seq<Row>>, r: Row) returns (row: Row)
    requires Indexes(byParent, rows)
    ensures row == WithTotals(rows)(r)
  {
    row := r;
    if !row.grouped {
      return;
    }
    hide SumTokens, MemberRows, Filter, Kids;
    assert Bucket(byParent, r.id) == Kids(rows, r.id);
    var tokens, _ := SumDescendantTokens(rows, byParent, Bucket(byParent, r.id), {});
    var members, _ := GroupMemberRows(rows, byParent, Bucket(byParent, r.id), {});
    if tokens.Some? {
      row := row.(tokens := tokens);
    }
    if row.groupCompleted.None? && row.groupFailed.None? && members != [] {
      row := row.(groupCompleted := Some(|Filter(members, HasStatus(Done))|),
                  groupFailed := Some(|Filter(members, HasStatus(Error))|));
    }
  }

  method NewestWorkflowRunId(rows: seq<Row>) returns (newest: Option<string>)
    ensures newest == NewestRun(rows)
  {
    newest := None;
    var i := 0;
    while i < |rows|
      invariant i <= |rows|
      invariant NewestFrom(rows[i..], newest) == NewestRun(rows)
    {
      var run := rows[i].run;
      assert rows[i..][0] == rows[i] && rows[i..][1..] == rows[i + 1..];
      if run.Some? && (newest.None? || TextOrder.Before(newest.value, run.value)) {
        newest := run;
      }
      i := i + 1;
    }
  }
}
