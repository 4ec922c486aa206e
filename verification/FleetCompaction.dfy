/**
 What folding workflow anchors does to the tree. The fold climbs one hop only, so a
 row under two collapsed anchors in a row is cut off from the ancestors above them.
 */
module FleetCompaction {
  import opened Wrappers
  import opened LiveRows
  import opened LiveRowForest
  import opened FleetProjection

  /** The nearest ancestor that compaction keeps. */
  ghost function NearestKept(rows: seq<Row>, d: string -> nat, n: nat, x: Row): Option<string>
    requires Ranked(rows, d, n) && x in rows
    decreases d(x.id)
  {
    if !HasParent(rows, x) then None
    else if x.parent.value !in Collapsed(rows) then x.parent
    else NearestKept(rows, d, n, Parent(rows, x))
  }

  /** The row a compacted row hangs from, if that row is listed. */
  function HangsFrom(rows: seq<Row>, x: Row): Option<string> {
    if HasParent(rows, x) then x.parent else None
  }

  /** Two collapsed anchors in a row above `x`, and a kept ancestor beyond them. */
  ghost predicate CutOff(rows: seq<Row>, d: string -> nat, n: nat, x: Row)
    requires Ranked(rows, d, n) && x in rows
  {
    && HasParent(rows, x) && x.parent.value in Collapsed(rows)
    && var anchor := Parent(rows, x);
       && HasParent(rows, anchor) && anchor.parent.value in Collapsed(rows)
       && NearestKept(rows, d, n, Parent(rows, anchor)).Some?
  }

  lemma CompactComesFrom(rows: seq<Row>, m: Row) returns (r: Row)
    requires m in Compact(rows)
    ensures r in rows && r.id !in Collapsed(rows) && Spliced(rows)(r) == m && r.id == m.id && r.status == m.status
  {
    r :| r in Filter(rows, Stays(rows)) && Spliced(rows)(r) == m;
  }

  lemma CompactIds(rows: seq<Row>)
    ensures Ids(Compact(rows)) == Ids(rows) - Collapsed(rows)
  {
    forall m | m in Compact(rows)
      ensures m.id in Ids(rows) - Collapsed(rows)
    {
      var r := CompactComesFrom(rows, m);
    }
    forall id | id in Ids(rows) - Collapsed(rows)
      ensures id in Ids(Compact(rows))
    {
      var r :| r in rows && r.id == id;
      assert r in Filter(rows, Stays(rows));
      assert Spliced(rows)(r) in Compact(rows);
    }
  }

  /** A kept row hangs from its nearest kept ancestor exactly when it is not cut off. */
  lemma SpliceIsExact(rows: seq<Row>, d: string -> nat, n: nat, x: Row)
    requires DistinctIds(rows) && Ranked(rows, d, n) && x in rows && x.id !in Collapsed(rows)
    ensures Spliced(rows)(x) in Compact(rows)
    ensures HangsFrom(Compact(rows), Spliced(rows)(x)) == NearestKept(rows, d, n, x) <==> !CutOff(rows, d, n, x)
  {
    CompactIds(rows);
    SplicedIsListed(rows, x);
    NearestIsKept(rows, d, n, x);
    hide Compact, Collapsed;
    if HasParent(rows, x) && x.parent.value in Collapsed(rows) {
      SplicedParent(rows, x);
      NearestIsKept(rows, d, n, Parent(rows, x));
      hide Ids, Ranked, DistinctIds, Spliced, Parent, Find;
    } else {
      hide Ranked, DistinctIds, Parent, Find;
    }
  }

  lemma SplicedIsListed(rows: seq<Row>, x: Row)
    requires x in rows && x.id !in Collapsed(rows)
    ensures Spliced(rows)(x) in Compact(rows)
  {
    hide Collapsed;
    assert x in Filter(rows, Stays(rows));
  }

  lemma SplicedParent(rows: seq<Row>, x: Row)
    requires HasParent(rows, x) && x.parent.value in Collapsed(rows)
    ensures Spliced(rows)(x).parent == Parent(rows, x).parent
  {
    hide Collapsed;
  }

  lemma {:induction false} NearestIsKept(rows: seq<Row>, d: string -> nat, n: nat, x: Row)
    requires Ranked(rows, d, n) && x in rows
    ensures var kept := NearestKept(rows, d, n, x);
            kept.Some? ==> kept.value in Ids(rows) && kept.value !in Collapsed(rows)
    decreases d(x.id)
  {
    if HasParent(rows, x) && x.parent.value in Collapsed(rows) {
      NearestIsKept(rows, d, n, Parent(rows, x));
    }
  }

  function Plain(id: string, parent: Option<string>): Row {
    Row(id, parent, None, false, None, None, None, None, Working, 0)
  }

  function ExampleRank(id: string): nat {
    if id == "lead" then 0 else if id == "workflow:a" then 1 else if id == "workflow:b" then 2 else 3
  }

  lemma {:induction false} IncludedFrom(text: string, part: string) returns (i: int)
    requires Includes(text, part) && part != []
    ensures 0 <= i <= |text| - |part| && text[i] == part[0]
  {
    if part <= text {
      i := 0;
    } else {
      i := IncludedFrom(text[1..], part);
      i := i + 1;
    }
  }

  lemma ExampleAnchor(r: Row)
    requires r.id == "workflow:a" || r.id == "workflow:b"
    ensures IsAnchor(r)
  {
    assert r.id[..9] == "workflow:";
    assert r.id[0] == 'w' && r.id[1] == 'o' && r.id[2] == 'r' && r.id[3] == 'k';
    if Includes(r.id, ":group:") {
      var i := IncludedFrom(r.id, ":group:");
    }
  }

  lemma ExampleCollapses(lead: Row, a: Row, b: Row, agent: Row)
    requires lead.parent == None && a.parent == Some(lead.id)
    requires b.parent == Some(a.id) && agent.parent == Some(b.id)
    requires agent.id != lead.id && agent.id != a.id && agent.id != b.id && lead.id != a.id && lead.id != b.id
    requires IsAnchor(a) && IsAnchor(b) && !IsAnchor(lead)
    requires a.status == Working && b.status == Working
    ensures Collapsed([lead, a, b, agent]) == {a.id, b.id}
  {
    var rows := [lead, a, b, agent];
    ExampleParentIds(lead, a, b, agent);
    hide IsAnchor, ParentIds, Collapsed;
    assert a in rows && b in rows;
    CollapsedAre(rows, {a.id, b.id});
  }

  lemma CollapsedAre(rows: seq<Row>, ids: set<string>)
    requires forall r :: r in rows ==>
               (r.id in ids <==> r.id in ParentIds(rows) && IsAnchor(r) && r.status != Error && r.status != Cancelled)
    requires ids <= Ids(rows)
    ensures Collapsed(rows) == ids
  {
    hide IsAnchor, ParentIds;
  }

  lemma ExampleParentIds(lead: Row, a: Row, b: Row, agent: Row)
    requires lead.parent == None && a.parent == Some(lead.id)
    requires b.parent == Some(a.id) && agent.parent == Some(b.id)
    ensures ParentIds([lead, a, b, agent]) == {lead.id, a.id, b.id}
  {
    var rows := [lead, a, b, agent];
    assert a in rows && b in rows && agent in rows;
    assert forall r :: r in rows ==> r == lead || r == a || r == b || r == agent;
  }

  lemma LeadIsNoAnchor(r: Row)
    requires r.id == "lead"
    ensures !IsAnchor(r)
  {}

  lemma ExampleIsCutOff(lead: Row, a: Row, b: Row, agent: Row)
    requires lead == Plain("lead", None) && a == Plain("workflow:a", Some("lead"))
    requires b == Plain("workflow:b", Some("workflow:a")) && agent == Plain("agent", Some("workflow:b"))
    ensures var rows := [lead, a, b, agent];
            && DistinctIds(rows) && Ranked(rows, ExampleRank, 3) && agent in rows && agent.id !in Collapsed(rows)
            && CutOff(rows, ExampleRank, 3, agent)
  {
    hide IsAnchor, Compact, Filter;
    ExampleAnchor(a);
    ExampleAnchor(b);
    LeadIsNoAnchor(lead);
    assert |"lead"| == 4 && |"workflow:a"| == 10 && |"agent"| == 5;
    ExampleCollapses(lead, a, b, agent);
    hide Collapsed;
    ExampleParents(lead, a, b, agent);
    hide *;
    TwoAnchorsUp([lead, a, b, agent], ExampleRank, 3, agent, b, a);
  }

  lemma TwoAnchorsUp(rows: seq<Row>, d: string -> nat, n: nat, x: Row, b: Row, a: Row)
    requires Ranked(rows, d, n) && x in rows
    requires HasParent(rows, x) && Parent(rows, x) == b && b.id in Collapsed(rows)
    requires HasParent(rows, b) && Parent(rows, b) == a && a.id in Collapsed(rows)
    requires HasParent(rows, a) && a.parent.value !in Collapsed(rows)
    ensures CutOff(rows, d, n, x)
  {
    hide Ranked, Collapsed;
  }

  /** An agent under two nested anchors under a kept row: it is cut off, and ends up a root. */
  lemma CutOffHappens() returns (rows: seq<Row>, x: Row)
    ensures DistinctIds(rows) && Ranked(rows, ExampleRank, 3) && x in rows && x.id !in Collapsed(rows)
    ensures CutOff(rows, ExampleRank, 3, x)
    ensures HangsFrom(Compact(rows), Spliced(rows)(x)) != NearestKept(rows, ExampleRank, 3, x)
  {
    var lead, a := Plain("lead", None), Plain("workflow:a", Some("lead"));
    var b, agent := Plain("workflow:b", Some("workflow:a")), Plain("agent", Some("workflow:b"));
    rows, x := [lead, a, b, agent], agent;
    hide *;
    ExampleIsCutOff(lead, a, b, agent);
    SpliceIsExact(rows, ExampleRank, 3, x);
  }

  lemma ExampleParents(lead: Row, a: Row, b: Row, agent: Row)
    requires lead == Plain("lead", None) && a == Plain("workflow:a", Some("lead"))
    requires b == Plain("workflow:b", Some("workflow:a")) && agent == Plain("agent", Some("workflow:b"))
    ensures var rows := [lead, a, b, agent];
            && DistinctIds(rows) && Ranked(rows, ExampleRank, 3) && agent in rows
            && HasParent(rows, agent) && Parent(rows, agent) == b
            && HasParent(rows, b) && Parent(rows, b) == a
            && HasParent(rows, a) && Parent(rows, a) == lead
  {
    var rows := [lead, a, b, agent];
    assert |"lead"| == 4 && |"workflow:a"| == 10 && |"workflow:b"| == 10 && |"agent"| == 5;
    assert "workflow:a"[9] == 'a' && "workflow:b"[9] == 'b';
    assert rows[0] == lead && rows[1] == a && rows[2] == b && rows[3] == agent;
    assert lead in rows && a in rows && b in rows && agent in rows;
    assert Ids(rows) == {"lead", "workflow:a", "workflow:b", "agent"};
    FoundIsTheOne(rows, lead);
    FoundIsTheOne(rows, a);
    FoundIsTheOne(rows, b);
  }

  /** No agent vanishes: below every collapsed anchor some row is kept. */
  lemma {:induction false} CollapsedHasKeptRow(rows: seq<Row>, d: string -> nat, n: nat, anchor: Row)
      returns (kept: Row)
    requires DistinctIds(rows) && Ranked(rows, d, n) && anchor in rows && anchor.id in Collapsed(rows)
    ensures kept in rows && kept.id !in Collapsed(rows) && Under(rows, d, n, kept, anchor)
    decreases n - d(anchor.id)
  {
    var kid := CollapsedHasKid(rows, anchor);
    KidIsUnder(rows, d, n, kid, anchor);
    if kid.id in Collapsed(rows) {
      kept := CollapsedHasKeptRow(rows, d, n, kid);
      UnderTransitive(rows, d, n, kept, kid, anchor);
    } else {
      kept := kid;
    }
  }

  lemma CollapsedHasKid(rows: seq<Row>, anchor: Row) returns (kid: Row)
    requires anchor.id in Collapsed(rows)
    ensures kid in rows && kid.parent == Some(anchor.id)
  {
    assert anchor.id in ParentIds(rows);
    kid :| kid in rows && kid.parent.Some? && kid.parent.value == anchor.id;
  }
}
