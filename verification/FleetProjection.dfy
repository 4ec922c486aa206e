/**
 The focused fleet projection (fleet-menu.ts, agent-live-panel.ts): workflow
 anchors are folded into the agents they launched, headings get the totals of the
 rows below them, the rows are put in tree order, and rows of earlier workflow runs
 go behind the newest run.
 */
module FleetProjection {
  import opened Wrappers
  import opened LiveRows
  import opened LiveRowForest
  import opened LiveRowOrder
  import opened Sizes
  import TextOrder

  // ---- workflow anchors ----

  predicate Includes(text: string, part: string) {
    part <= text || (text != [] && Includes(text[1..], part))
  }

  predicate IsAnchor(r: Row) {
    "workflow:" <= r.id && !Includes(r.id, ":group:")
  }

  function ParentIds(rows: seq<Row>): set<string> {
    set r | r in rows && r.parent.Some? :: r.parent.value
  }

  /** Anchors whose agent has a row of its own; failed anchors stay. */
  function Collapsed(rows: seq<Row>): set<string> {
    set r | r in rows && r.id in ParentIds(rows) && IsAnchor(r) && r.status != Error && r.status != Cancelled :: r.id
  }

  /** One hop: the collapsed anchor's own parent, collapsed or not. */
  function Spliced(rows: seq<Row>): Row -> Row {
    (r: Row) =>
      if r.parent.Some? && r.parent.value in Collapsed(rows)
      then r.(parent := ParentOf(rows, r.parent.value))
      else r
  }

  function Stays(rows: seq<Row>): Row -> bool {
    (r: Row) => r.id !in Collapsed(rows)
  }

  function Compact(rows: seq<Row>): seq<Row> {
    Mapped(Filter(rows, Stays(rows)), Spliced(rows))
  }

  // ---- heading totals ----

  function Add(a: Option<Tokens>, b: Option<Tokens>): Option<Tokens> {
    match (a, b)
    case (None, _) => b
    case (_, None) => a
    case (Some(x), Some(y)) => Some(Tokens(x.input + y.input, x.output + y.output))
  }

  function OwnTokens(r: Row): Option<Tokens> {
    if r.grouped then None else r.tokens
  }

  datatype Sum = Sum(tokens: Option<Tokens>, seen: set<string>)

  /** Depth first over the rows of `list` and what is below them, each id once. */
  function SumTokens(rows: seq<Row>, list: seq<Row>, seen: set<string>): (sum: Sum)
    requires forall c :: c in list ==> c in rows
    ensures seen <= sum.seen
    decreases |Ids(rows) - seen|, |list|
  {
    if list == [] then Sum(None, seen)
    else if list[0].id in seen then SumTokens(rows, list[1..], seen)
    else
      var h := list[0];
      SeeingShrinks(rows, h, seen, seen + {h.id});
      var nested := SumTokens(rows, Kids(rows, h.id), seen + {h.id});
      SeeingShrinks(rows, h, seen, nested.seen);
      var rest := SumTokens(rows, list[1..], nested.seen);
      Sum(Add(Add(OwnTokens(h), nested.tokens), rest.tokens), rest.seen)
  }

  lemma SeeingShrinks(rows: seq<Row>, h: Row, seen: set<string>, more: set<string>)
    requires h in rows && h.id !in seen && seen <= more && h.id in more
    ensures |Ids(rows) - more| < |Ids(rows) - seen|
  {
    assert h.id in Ids(rows) - seen;
    Shrinks(Ids(rows) - more, Ids(rows) - seen);
  }

  datatype Members = Members(rows: seq<Row>, seen: set<string>)

  /** A row with members below it is not a member itself, nor is a heading. */
  function MemberRows(rows: seq<Row>, list: seq<Row>, seen: set<string>): (members: Members)
    requires forall c :: c in list ==> c in rows
    ensures seen <= members.seen
    decreases |Ids(rows) - seen|, |list|
  {
    if list == [] then Members([], seen)
    else if list[0].id in seen then MemberRows(rows, list[1..], seen)
    else
      var h := list[0];
      SeeingShrinks(rows, h, seen, seen + {h.id});
      var nested := MemberRows(rows, Kids(rows, h.id), seen + {h.id});
      var own := if nested.rows != [] then nested.rows else if h.grouped then [] else [h];
      SeeingShrinks(rows, h, seen, nested.seen);
      var rest := MemberRows(rows, list[1..], nested.seen);
      Members(own + rest.rows, rest.seen)
  }

  function TokensBelow(rows: seq<Row>, id: string): Option<Tokens> {
    SumTokens(rows, Kids(rows, id), {}).tokens
  }

  function MembersBelow(rows: seq<Row>, id: string): seq<Row> {
    MemberRows(rows, Kids(rows, id), {}).rows
  }

  function HasStatus(status: Status): Row -> bool {
    (r: Row) => r.status == status
  }

  /** A heading that already states its own counts keeps them. */
  function WithTotals(rows: seq<Row>): Row -> Row {
    (r: Row) =>
      if !r.grouped then r
      else
        var tokens := TokensBelow(rows, r.id);
        var members := MembersBelow(rows, r.id);
        var summed := if tokens.Some? then r.(tokens := tokens) else r;
        if r.groupCompleted.Some? || r.groupFailed.Some? || members == [] then summed
        else summed.(groupCompleted := Some(|Filter(members, HasStatus(Done))|),
                     groupFailed := Some(|Filter(members, HasStatus(Error))|))
  }

  function Totals(rows: seq<Row>): seq<Row> {
    Mapped(rows, WithTotals(rows))
  }

  // ---- newest run first ----

  function NewestFrom(rows: seq<Row>, newest: Option<string>): Option<string> {
    if rows == [] then newest
    else
      var run := rows[0].run;
      NewestFrom(rows[1..],
                 if run.Some? && (newest.None? || TextOrder.Before(newest.value, run.value)) then run else newest)
  }

  function NewestRun(rows: seq<Row>): Option<string> {
    NewestFrom(rows, None)
  }

  function IsCurrent(newest: string): Row -> bool {
    (r: Row) => r.run.None? || r.run.value == newest
  }

  function IsEarlier(newest: string): Row -> bool {
    (r: Row) => r.run.Some? && r.run.value != newest
  }

  function NewestFirst(rows: seq<Row>, newest: string): seq<Row> {
    Filter(rows, IsCurrent(newest)) + Filter(rows, IsEarlier(newest))
  }

  function Partition(rows: seq<Row>): seq<Row> {
    match NewestRun(rows)
    case None => rows
    case Some(newest) => if Filter(rows, IsEarlier(newest)) == [] then rows else Order(NewestFirst(rows, newest))
  }

  function Project(rows: seq<Row>): seq<Row> {
    Partition(Order(Totals(Compact(rows))))
  }
}
