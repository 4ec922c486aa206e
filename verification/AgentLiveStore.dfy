/**
 Live rows and who may write them (agent-live-store.ts). Each row has one current
 execution handle; beginning a row again supersedes it. Every change is announced to
 listeners that may call the store from inside the call that changed it: each operation
 carries what the listeners do, in full, when it announces its change.
 */
module AgentLiveStore {
  import opened Wrappers

  type Handle = nat
  type Token = nat

  datatype Status = Queued | Working | Done | Cancelled | Error

  /** `body` stands for the fields that no rule here reads. */
  datatype Row = Row(status: Status, parent: Option<string>, model: Option<string>, thinking: Option<string>, body: nat)

  datatype Options = Options(parent: Option<string>, model: Option<string>, thinking: Option<string>, body: nat)

  datatype Patch = Patch(
    status: Option<Status>, parent: Option<string>, model: Option<string>, thinking: Option<string>, body: Option<nat>)

  /** What a terminal patch lacks proof of. */
  datatype Missing = ModelMissing | ThinkingMissing

  datatype Registration = Registration(token: Token, execution: Handle)

  /** `rowOf` remembers every handle ever issued, `cancelRow` every cancellation token. */
  datatype Store = Store(
    rows: map<string, Row>,
    current: map<string, Handle>,
    rowOf: map<Handle, string>,
    cancels: map<string, Registration>,
    cancelRow: map<Token, string>,
    inputs: map<string, Registration>,
    transcripts: set<string>,
    nextHandle: Handle,
    nextToken: Token)

  /** The listeners' calls at each announcement come last: `after`, and `between` two writes. */
  datatype Op =
    | Reset(after: seq<Op>)
    | Remove(ids: seq<string>, after: seq<Op>)
    | Begin(id: string, options: Options, isFresh: bool, resets: bool, after: seq<Op>)
    | PatchRow(id: string, patch: Patch, after: seq<Op>)
    | PatchExecution(execution: Handle, patch: Patch, after: seq<Op>)
    | PatchWithoutReadback(execution: Handle, missing: Missing, patch: Patch, between: seq<Op>, after: seq<Op>)
    | FeedExecution(execution: Handle, patch: Patch, after: seq<Op>)
    | RegisterCancel(rowId: string)
    | RegisterCancelFor(execution: Handle)
    | UnregisterCancel(rowId: string, token: Token)
    | CancelWith(token: Token, after: seq<Op>)
    | RegisterInputFor(execution: Handle, after: seq<Op>)
    | UnregisterInput(rowId: string, token: Token, after: seq<Op>)

  function Or<T>(value: Option<T>, otherwise: Option<T>): Option<T> {
    if value.Some? then value else otherwise
  }

  function Get<T>(m: map<string, T>, id: string): Option<T> {
    if id in m then Some(m[id]) else None
  }

  function Empty(s: Store): Store {
    s.(rows := map[], current := map[], cancels := map[], inputs := map[], transcripts := {})
  }

  function Without(s: Store, id: string): Store {
    if id !in s.rows then s
    else s.(rows := s.rows - {id}, current := s.current - {id}, cancels := s.cancels - {id}, inputs := s.inputs - {id},
            transcripts := s.transcripts - {id})
  }

  function WithoutAll(s: Store, ids: seq<string>): Store
    decreases |ids|
  {
    if ids == [] then s else WithoutAll(Without(s, ids[0]), ids[1..])
  }

  /** A fresh execution starts over; a compatible begin keeps what the row already says. */
  function BegunRow(existing: Option<Row>, o: Options, isFresh: bool): Row {
    match existing
    case None => Row(Queued, o.parent, o.model, o.thinking, o.body)
    case Some(row) =>
      Row(if isFresh then Queued else row.status, Or(row.parent, o.parent),
          if isFresh then Or(o.model, row.model) else Or(row.model, o.model),
          if isFresh then Or(o.thinking, row.thinking) else Or(row.thinking, o.thinking), o.body)
  }

  /** The row's new handle supersedes the old one, with its registrations. */
  function Begun(s: Store, id: string, o: Options, isFresh: bool, resets: bool): Store {
    s.(rows := s.rows[id := BegunRow(Get(s.rows, id), o, isFresh)],
       transcripts := if isFresh || resets then s.transcripts - {id} else s.transcripts,
       rowOf := s.rowOf[s.nextHandle := id], current := s.current[id := s.nextHandle],
       cancels := s.cancels - {id}, inputs := s.inputs - {id}, nextHandle := s.nextHandle + 1)
  }

  function PatchedRow(row: Row, p: Patch): Row {
    Row(if p.status.Some? then p.status.value else row.status, Or(p.parent, row.parent), Or(p.model, row.model),
        Or(p.thinking, row.thinking), if p.body.Some? then p.body.value else row.body)
  }

  function Patched(s: Store, id: string, p: Patch): Store
    requires id in s.rows
  {
    s.(rows := s.rows[id := PatchedRow(s.rows[id], p)])
  }

  function Cleared(s: Store, id: string, missing: Missing): Store
    requires id in s.rows
  {
    var row := s.rows[id];
    s.(rows := s.rows[id := row.(model := if missing == ModelMissing then None else row.model, thinking := None)])
  }

  /** The row a handle may write: its own, while it is that row's current handle. */
  function CurrentRow(s: Store, execution: Handle): Option<string> {
    if execution in s.rowOf && Get(s.current, s.rowOf[execution]) == Some(execution)
    then Some(s.rowOf[execution]) else None
  }

  function Registered(s: Store, id: string, execution: Handle): Store {
    s.(cancels := s.cancels[id := Registration(s.nextToken, execution)],
       cancelRow := s.cancelRow[s.nextToken := id], nextToken := s.nextToken + 1)
  }

  function Exec(s: Store, op: Op): Store
    decreases op
  {
    match op
    case Reset(after) => ExecAll(Empty(s), after)
    case Remove(ids, after) =>
      var t := WithoutAll(s, ids);
      if |t.rows| < |s.rows| then ExecAll(t, after) else t
    case Begin(id, o, isFresh, resets, after) => ExecAll(Begun(s, id, o, isFresh, resets), after)
    case PatchRow(id, p, after) => if id in s.rows then ExecAll(Patched(s, id, p), after) else s
    case PatchExecution(execution, p, after) =>
      (match CurrentRow(s, execution)
       case Some(id) => if id in s.rows then ExecAll(Patched(s, id, p), after) else s
       case None => s)
    case FeedExecution(execution, p, after) =>
      (match CurrentRow(s, execution)
       case Some(id) =>
         if id in s.rows then ExecAll(Patched(s.(transcripts := s.transcripts + {id}), id, p), after) else s
       case None => s)
    case PatchWithoutReadback(execution, missing, p, between, after) =>
      (match CurrentRow(s, execution)
       case Some(id) =>
         if id !in s.rows then s
         else
           var t := ExecAll(Patched(s, id, p), between);
           if CurrentRow(t, execution) == Some(id) && id in t.rows then ExecAll(Cleared(t, id, missing), after) else t
       case None => s)
    case RegisterCancel(id) => if id in s.current then Registered(s, id, s.current[id]) else s
    case RegisterCancelFor(execution) =>
      (match CurrentRow(s, execution)
       case Some(id) => Registered(s, id, execution)
       case None => s)
    case UnregisterCancel(id, token) =>
      if id in s.cancels && s.cancels[id].token == token then s.(cancels := s.cancels - {id}) else s
    case CancelWith(token, after) =>
      if token in s.cancelRow && s.cancelRow[token] in s.cancels && s.cancels[s.cancelRow[token]].token == token
         && CurrentRow(s, s.cancels[s.cancelRow[token]].execution).Some?
      then ExecAll(s, after) else s
    case RegisterInputFor(execution, after) =>
      (match CurrentRow(s, execution)
       case Some(id) => ExecAll(InputRegistered(s, id, execution), after)
       case None => s)
    case UnregisterInput(id, token, after) =>
      if id in s.inputs && s.inputs[id].token == token then ExecAll(s.(inputs := s.inputs - {id}), after) else s
  }

  function ExecAll(s: Store, ops: seq<Op>): Store
    decreases ops
  {
    if ops == [] then s else ExecAll(Exec(s, ops[0]), ops[1..])
  }

  // ---- what holds at every announcement ----

  /** A registration belongs to its row's current execution. */
  ghost predicate Owned(s: Store, id: string, r: Registration) {
    id in s.current && r.execution == s.current[id] && r.token < s.nextToken
  }

  ghost predicate Coherent(s: Store) {
    && s.rows.Keys == s.current.Keys && s.transcripts <= s.rows.Keys
    && (forall h: Handle :: h in s.rowOf <==> h < s.nextHandle)
    && (forall id :: id in s.current ==> s.current[id] in s.rowOf && s.rowOf[s.current[id]] == id)
    && (forall id :: id in s.cancels ==> Owned(s, id, s.cancels[id]))
    && (forall id :: id in s.cancels ==> s.cancels[id].token in s.cancelRow && s.cancelRow[s.cancels[id].token] == id)
    && (forall id :: id in s.inputs ==> Owned(s, id, s.inputs[id]))
    && (forall token: Token :: token in s.cancelRow ==> token < s.nextToken)
  }

  /** What only ever grows: issued handles and tokens keep their rows. */
  ghost predicate Remembers(s: Store, t: Store) {
    && s.nextHandle <= t.nextHandle && s.nextToken <= t.nextToken
    && (forall h: Handle :: h in s.rowOf ==> h in t.rowOf && t.rowOf[h] == s.rowOf[h])
    && (forall token: Token :: token in s.cancelRow ==>
          token in t.cancelRow && t.cancelRow[token] == s.cancelRow[token])
  }

  /** A handle issued before is current after only if it was current before; likewise a registration. */
  ghost predicate NoRevival(s: Store, t: Store) {
    && (forall h: Handle :: h < s.nextHandle && CurrentRow(t, h).Some? ==> CurrentRow(s, h) == CurrentRow(t, h))
    && (forall id :: id in t.cancels && t.cancels[id].token < s.nextToken ==>
          id in s.cancels && s.cancels[id] == t.cancels[id])
    && (forall id :: id in t.inputs && t.inputs[id].token < s.nextToken ==>
          id in s.inputs && s.inputs[id] == t.inputs[id])
  }

  ghost predicate Evolves(s: Store, t: Store) {
    Coherent(s) && Coherent(t) && Remembers(s, t) && NoRevival(s, t)
  }

  lemma EvolvesTransitive(s: Store, t: Store, u: Store)
    requires Evolves(s, t) && Evolves(t, u)
    ensures Evolves(s, u)
  {
    forall h: Handle | h < s.nextHandle && CurrentRow(u, h).Some?
      ensures CurrentRow(s, h) == CurrentRow(u, h)
    {
      assert CurrentRow(t, h) == CurrentRow(u, h);
    }
  }

  lemma EvolvesSelf(s: Store)
    requires Coherent(s)
    ensures Evolves(s, s)
  {}

  lemma EmptyEvolves(s: Store)
    requires Coherent(s)
    ensures Evolves(s, Empty(s))
  {}

  lemma WithoutEvolves(s: Store, id: string)
    requires Coherent(s)
    ensures Evolves(s, Without(s, id))
  {
    WithoutIsCoherent(s, id);
    hide Coherent;
  }

  lemma WithoutIsCoherent(s: Store, id: string)
    requires Coherent(s)
    ensures Coherent(Without(s, id))
  {}

  lemma {:induction false} WithoutAllEvolves(s: Store, ids: seq<string>)
    requires Coherent(s)
    ensures Evolves(s, WithoutAll(s, ids))
    decreases |ids|
  {
    hide Coherent, Remembers, NoRevival, Without;
    if ids == [] {
      EvolvesSelf(s);
    } else {
      WithoutEvolves(s, ids[0]);
      var t := Without(s, ids[0]);
      assert Coherent(t);
      WithoutAllEvolves(t, ids[1..]);
      EvolvesTransitive(s, t, WithoutAll(t, ids[1..]));
    }
  }

  lemma BegunEvolves(s: Store, id: string, o: Options, isFresh: bool, resets: bool)
    requires Coherent(s)
    ensures Evolves(s, Begun(s, id, o, isFresh, resets))
  {
    hide BegunRow;
    BegunIsCoherent(s, id, o, isFresh, resets);
    BegunRevivesNothing(s, id, o, isFresh, resets);
    HandlesAreIssued(s);
    hide Coherent, NoRevival;
  }

  lemma BegunIsCoherent(s: Store, id: string, o: Options, isFresh: bool, resets: bool)
    requires Coherent(s)
    ensures Coherent(Begun(s, id, o, isFresh, resets))
  {
    hide BegunRow;
  }

  lemma HandlesAreIssued(s: Store)
    requires Coherent(s)
    ensures forall h: Handle :: h in s.rowOf ==> h < s.nextHandle
  {}

  lemma BegunRevivesNothing(s: Store, id: string, o: Options, isFresh: bool, resets: bool)
    requires Coherent(s)
    ensures NoRevival(s, Begun(s, id, o, isFresh, resets))
  {
    HandlesAreIssued(s);
    hide BegunRow, Coherent;
  }

  lemma PatchedEvolves(s: Store, id: string, row: Row, transcripts: set<string>)
    requires Coherent(s) && id in s.rows && transcripts <= s.rows.Keys
    ensures Evolves(s, s.(rows := s.rows[id := row], transcripts := transcripts))
  {}

  lemma RegisteredEvolves(s: Store, id: string)
    requires Coherent(s) && id in s.current
    ensures Evolves(s, Registered(s, id, s.current[id]))
  {}

  function InputRegistered(s: Store, id: string, execution: Handle): Store {
    s.(inputs := s.inputs[id := Registration(s.nextToken, execution)], nextToken := s.nextToken + 1)
  }

  lemma InputEvolves(s: Store, id: string)
    requires Coherent(s) && id in s.current
    ensures Evolves(s, InputRegistered(s, id, s.current[id]))
  {}

  lemma UnregisteredEvolves(s: Store, id: string)
    requires Coherent(s)
    ensures Evolves(s, s.(cancels := s.cancels - {id})) && Evolves(s, s.(inputs := s.inputs - {id}))
  {
    UncancelledIsCoherent(s, id);
    hide Coherent;
  }

  lemma UncancelledIsCoherent(s: Store, id: string)
    requires Coherent(s)
    ensures Coherent(s.(cancels := s.cancels - {id})) && Coherent(s.(inputs := s.inputs - {id}))
  {}

  lemma CurrentRowIs(s: Store, h: Handle)
    requires Coherent(s) && CurrentRow(s, h).Some?
    ensures var id := CurrentRow(s, h).value; id in s.rows && id in s.current && s.current[id] == h
  {}

  /** Any operation, with whatever its listeners do inside it, keeps the store coherent and revives nothing. */
  lemma {:induction false} ExecEvolves(s: Store, op: Op)
    requires Coherent(s)
    ensures Evolves(s, Exec(s, op))
    decreases op, 1
  {
    hide Coherent, Remembers, NoRevival, Evolves, Begun, Patched, Registered, InputRegistered, Empty;
    match op
    case Reset(after) =>
      EmptyEvolves(s);
      ThenEvolves(s, Empty(s), after);
    case Remove(ids, after) =>
      WithoutAllEvolves(s, ids);
      ThenEvolves(s, WithoutAll(s, ids), after);
    case Begin(id, o, isFresh, resets, after) =>
      BegunEvolves(s, id, o, isFresh, resets);
      ThenEvolves(s, Begun(s, id, o, isFresh, resets), after);
    case PatchRow(id, p, after) => PatchEvolves(s, id, p, after);
    case PatchExecution(execution, p, after) =>
      if CurrentRow(s, execution).Some? {
        PatchEvolves(s, CurrentRow(s, execution).value, p, after);
      } else {
        EvolvesSelf(s);
      }
    case FeedExecution(execution, p, after) => FeedEvolves(s, execution, p, after);
    case PatchWithoutReadback(execution, missing, p, between, after) =>
      ReadbackEvolves(s, op);
    case RegisterCancel(id) =>
      EvolvesSelf(s);
      if id in s.current {
        RegisteredEvolves(s, id);
      }
    case RegisterCancelFor(execution) =>
      EvolvesSelf(s);
      if CurrentRow(s, execution).Some? {
        CurrentRowIs(s, execution);
        RegisteredEvolves(s, CurrentRow(s, execution).value);
      }
    case UnregisterCancel(id, token) =>
      EvolvesSelf(s);
      UnregisteredEvolves(s, id);
    case CancelWith(token, after) =>
      EvolvesSelf(s);
      ThenEvolves(s, s, after);
    case RegisterInputFor(execution, after) =>
      EvolvesSelf(s);
      if CurrentRow(s, execution).Some? {
        var id := CurrentRow(s, execution).value;
        CurrentRowIs(s, execution);
        InputEvolves(s, id);
        ThenEvolves(s, InputRegistered(s, id, execution), after);
      }
    case UnregisterInput(id, token, after) =>
      EvolvesSelf(s);
      UnregisteredEvolves(s, id);
      ThenEvolves(s, s.(inputs := s.inputs - {id}), after);
  }

  lemma {:induction false} ThenEvolves(s: Store, t: Store, after: seq<Op>)
    requires Evolves(s, t)
    ensures Evolves(s, t) && Evolves(s, ExecAll(t, after))
    decreases after, 1
  {
    hide Remembers, NoRevival;
    assert Coherent(t);
    hide Coherent;
    ExecAllEvolves(t, after);
    EvolvesTransitive(s, t, ExecAll(t, after));
  }

  lemma {:induction false} ExecAllEvolves(s: Store, ops: seq<Op>)
    requires Coherent(s)
    ensures Evolves(s, ExecAll(s, ops))
    decreases ops, 0
  {
    hide Remembers, NoRevival;
    if ops == [] {
      EvolvesSelf(s);
    } else {
      ExecEvolves(s, ops[0]);
      var t := Exec(s, ops[0]);
      assert Coherent(t);
      hide Coherent;
      ExecAllEvolves(t, ops[1..]);
      EvolvesTransitive(s, t, ExecAll(t, ops[1..]));
    }
  }

  lemma {:induction false} PatchEvolves(s: Store, id: string, p: Patch, after: seq<Op>)
    requires Coherent(s)
    ensures Evolves(s, if id in s.rows then ExecAll(Patched(s, id, p), after) else s)
    decreases after, 2
  {
    EvolvesSelf(s);
    if id in s.rows {
      PatchedEvolves(s, id, PatchedRow(s.rows[id], p), s.transcripts);
      assert Patched(s, id, p) == s.(rows := s.rows[id := PatchedRow(s.rows[id], p)], transcripts := s.transcripts);
      hide Remembers, NoRevival, Coherent;
      ThenEvolves(s, Patched(s, id, p), after);
    }
  }

  lemma {:induction false} FeedEvolves(s: Store, execution: Handle, p: Patch, after: seq<Op>)
    requires Coherent(s)
    ensures Evolves(s, Exec(s, FeedExecution(execution, p, after)))
    decreases after, 2
  {
    EvolvesSelf(s);
    if CurrentRow(s, execution).Some? {
      var id := CurrentRow(s, execution).value;
      CurrentRowIs(s, execution);
      PatchedEvolves(s, id, PatchedRow(s.rows[id], p), s.transcripts + {id});
      var t := s.(transcripts := s.transcripts + {id});
      assert Patched(t, id, p) ==
             s.(rows := s.rows[id := PatchedRow(s.rows[id], p)], transcripts := s.transcripts + {id});
      hide Remembers, NoRevival, Coherent;
      ThenEvolves(s, Patched(t, id, p), after);
    }
  }

  lemma ClearedEvolves(s: Store, id: string, missing: Missing)
    requires Coherent(s) && id in s.rows
    ensures Evolves(s, Cleared(s, id, missing))
  {
    PatchedEvolves(s, id, Cleared(s, id, missing).rows[id], s.transcripts);
    hide Coherent, Remembers, NoRevival;
    assert Cleared(s, id, missing)
        == s.(rows := s.rows[id := Cleared(s, id, missing).rows[id]], transcripts := s.transcripts);
  }

  lemma {:induction false} ReadbackEvolves(s: Store, op: Op)
    requires Coherent(s) && op.PatchWithoutReadback?
    ensures Evolves(s, Exec(s, op))
    decreases op, 0
  {
    hide Remembers, NoRevival, Coherent, Patched, Cleared, CurrentRow;
    EvolvesSelf(s);
    if CurrentRow(s, op.execution).Some? {
      var id := CurrentRow(s, op.execution).value;
      CurrentRowIs(s, op.execution);
      PatchEvolves(s, id, op.patch, op.between);
      var t := ExecAll(Patched(s, id, op.patch), op.between);
      if CurrentRow(t, op.execution) == Some(id) && id in t.rows {
        var u := Cleared(t, id, op.missing);
        ClearedEvolves(t, id, op.missing);
        ThenEvolves(t, u, op.after);
        EvolvesTransitive(s, t, ExecAll(u, op.after));
      }
    }
  }

  // ---- superseded handles ----

  /** The handle an operation goes through, if any. */
  function Through(op: Op): Option<Handle> {
    match op
    case PatchExecution(execution, _, _) => Some(execution)
    case PatchWithoutReadback(execution, _, _, _, _) => Some(execution)
    case FeedExecution(execution, _, _) => Some(execution)
    case RegisterCancelFor(execution) => Some(execution)
    case RegisterInputFor(execution, _) => Some(execution)
    case _ => None
  }

  /** Once superseded or removed, a handle never writes again, whatever runs in between. */
  lemma SupersededForever(s: Store, ops: seq<Op>, op: Op)
    requires Coherent(s) && Through(op).Some? && Through(op).value < s.nextHandle
    requires CurrentRow(s, Through(op).value).None?
    ensures var t := ExecAll(s, ops); Exec(t, op) == t
  {
    ExecAllEvolves(s, ops);
  }

  /** Beginning a row again supersedes the handle it had, and drops that execution's registrations. */
  lemma BeginSupersedes(s: Store, id: string, o: Options, isFresh: bool, resets: bool)
    requires Coherent(s) && id in s.current
    ensures var t := Begun(s, id, o, isFresh, resets);
            && CurrentRow(t, s.current[id]).None? && CurrentRow(t, s.nextHandle) == Some(id)
            && id !in t.cancels && id !in t.inputs
  {}

  /** Nothing about `id` differs. */
  ghost predicate SameRow(s: Store, t: Store, id: string) {
    && Get(t.rows, id) == Get(s.rows, id) && Get(t.current, id) == Get(s.current, id)
    && Get(t.cancels, id) == Get(s.cancels, id) && Get(t.inputs, id) == Get(s.inputs, id)
    && (id in t.transcripts <==> id in s.transcripts)
  }

  // ---- what a row keeps ----

  /** Neither the operation nor anything its listeners do drops the row or patches a parent into it. */
  predicate Spares(op: Op, id: string)
    decreases op
  {
    match op
    case Reset(_) => false
    case Remove(ids, after) => id !in ids && SparesAll(after, id)
    case Begin(_, _, _, _, after) => SparesAll(after, id)
    case PatchRow(other, p, after) => (other == id ==> p.parent.None?) && SparesAll(after, id)
    case PatchExecution(_, p, after) => p.parent.None? && SparesAll(after, id)
    case PatchWithoutReadback(_, _, p, between, after) =>
      p.parent.None? && SparesAll(between, id) && SparesAll(after, id)
    case FeedExecution(_, p, after) => p.parent.None? && SparesAll(after, id)
    case RegisterCancel(_) => true
    case RegisterCancelFor(_) => true
    case UnregisterCancel(_, _) => true
    case CancelWith(_, after) => SparesAll(after, id)
    case RegisterInputFor(_, after) => SparesAll(after, id)
    case UnregisterInput(_, _, after) => SparesAll(after, id)
  }

  predicate SparesAll(ops: seq<Op>, id: string)
    decreases ops
  {
    ops == [] || (Spares(ops[0], id) && SparesAll(ops[1..], id))
  }

  /** The row is there with the same parent. */
  predicate SameParent(s: Store, t: Store, id: string) {
    id in s.rows && id in t.rows && t.rows[id].parent == s.rows[id].parent
  }

  lemma {:induction false} WithoutKeepsRow(s: Store, ids: seq<string>, id: string)
    requires id in s.rows && id !in ids
    ensures id in WithoutAll(s, ids).rows && WithoutAll(s, ids).rows[id] == s.rows[id]
    decreases |ids|
  {
    if ids != [] {
      WithoutKeepsRow(Without(s, ids[0]), ids[1..], id);
    }
  }

  /** What one operation does to the row before its listeners run. */
  lemma WritesKeepParent(s: Store, id: string, other: string)
    requires id in s.rows && s.rows[id].parent.Some?
    ensures forall o, isFresh, resets :: SameParent(s, Begun(s, other, o, isFresh, resets), id)
    ensures other in s.rows ==> forall p: Patch :: other != id || p.parent.None? ==>
              SameParent(s, Patched(s, other, p), id)
    ensures other in s.rows ==> forall p: Patch :: p.parent.None? ==>
              SameParent(s, Patched(s.(transcripts := s.transcripts + {other}), other, p), id)
    ensures other in s.rows ==> forall missing :: SameParent(s, Cleared(s, other, missing), id)
  {}

  lemma {:induction false} ParentStays(s: Store, op: Op, id: string)
    requires id in s.rows && s.rows[id].parent.Some? && Spares(op, id)
    ensures SameParent(s, Exec(s, op), id)
    decreases op, 1
  {
    hide Begun, Patched, Cleared, Registered, InputRegistered, CurrentRow, Without, WithoutAll;
    match op
    case Remove(ids, after) =>
      WithoutKeepsRow(s, ids, id);
      ParentNeverChanges(WithoutAll(s, ids), after, id);
    case Begin(other, o, isFresh, resets, after) =>
      WritesKeepParent(s, id, other);
      assert SameParent(s, Begun(s, other, o, isFresh, resets), id);
      ParentNeverChanges(Begun(s, other, o, isFresh, resets), after, id);
    case PatchRow(other, p, after) => PatchKeepsParent(s, other, p, after, id);
    case PatchExecution(execution, p, after) =>
      if CurrentRow(s, execution).Some? {
        PatchKeepsParent(s, CurrentRow(s, execution).value, p, after, id);
      }
    case FeedExecution(execution, p, after) =>
      if CurrentRow(s, execution).Some? && CurrentRow(s, execution).value in s.rows {
        var other := CurrentRow(s, execution).value;
        var t := s.(transcripts := s.transcripts + {other});
        WritesKeepParent(s, id, other);
        assert SameParent(s, Patched(t, other, p), id);
        ParentNeverChanges(Patched(t, other, p), after, id);
      }
    case PatchWithoutReadback(execution, missing, p, between, after) =>
      if CurrentRow(s, execution).Some? && CurrentRow(s, execution).value in s.rows {
        var other := CurrentRow(s, execution).value;
        PatchKeepsParent(s, other, p, between, id);
        var t := ExecAll(Patched(s, other, p), between);
        if other in t.rows {
          WritesKeepParent(t, id, other);
          assert SameParent(t, Cleared(t, other, missing), id);
          ParentNeverChanges(Cleared(t, other, missing), after, id);
        }
      }
    case RegisterCancel(other) => RegistersKeepRows(s);
    case RegisterCancelFor(execution) => RegistersKeepRows(s);
    case UnregisterCancel(_, _) =>
    case CancelWith(_, after) => ParentNeverChanges(s, after, id);
    case RegisterInputFor(execution, after) =>
      if CurrentRow(s, execution).Some? {
        RegistersKeepRows(s);
        ParentNeverChanges(InputRegistered(s, CurrentRow(s, execution).value, execution), after, id);
      }
    case UnregisterInput(other, _, after) => ParentNeverChanges(s.(inputs := s.inputs - {other}), after, id);
  }

  lemma RegistersKeepRows(s: Store)
    ensures forall id, h: Handle :: Registered(s, id, h).rows == s.rows && InputRegistered(s, id, h).rows == s.rows
  {}

  lemma {:induction false} PatchKeepsParent(s: Store, other: string, p: Patch, after: seq<Op>, id: string)
    requires id in s.rows && s.rows[id].parent.Some? && SparesAll(after, id) && (other == id ==> p.parent.None?)
    ensures SameParent(s, if other in s.rows then ExecAll(Patched(s, other, p), after) else s, id)
    decreases after, 1
  {
    if other in s.rows {
      WritesKeepParent(s, id, other);
      assert SameParent(s, Patched(s, other, p), id);
      hide Patched;
      ParentNeverChanges(Patched(s, other, p), after, id);
    }
  }

  /**
   A row that has a parent keeps it for as long as it is not dropped and nobody patches
   another parent into it: no begin, fresh or not, whatever parent it names, and no other
   write moves it, be it a listener's at any depth.
   */
  lemma {:induction false} ParentNeverChanges(s: Store, ops: seq<Op>, id: string)
    requires id in s.rows && s.rows[id].parent.Some? && SparesAll(ops, id)
    ensures SameParent(s, ExecAll(s, ops), id)
    decreases ops, 0
  {
    hide Exec, Spares;
    if ops != [] {
      ParentStays(s, ops[0], id);
      ParentNeverChanges(Exec(s, ops[0]), ops[1..], id);
    }
  }

  /**
   The operation, and everything its listeners do, stays away from the row `id`: none names
   it, and none goes through its current handle, which is `holder`.
   */
  predicate Avoids(op: Op, id: string, holder: Option<Handle>)
    decreases op
  {
    match op
    case Reset(_) => false
    case Remove(ids, after) => id !in ids && AvoidsAll(after, id, holder)
    case Begin(other, _, _, _, after) => other != id && AvoidsAll(after, id, holder)
    case PatchRow(other, _, after) => other != id && AvoidsAll(after, id, holder)
    case PatchExecution(execution, _, after) => Some(execution) != holder && AvoidsAll(after, id, holder)
    case PatchWithoutReadback(execution, _, _, between, after) =>
      Some(execution) != holder && AvoidsAll(between, id, holder) && AvoidsAll(after, id, holder)
    case FeedExecution(execution, _, after) => Some(execution) != holder && AvoidsAll(after, id, holder)
    case RegisterCancel(other) => other != id
    case RegisterCancelFor(execution) => Some(execution) != holder
    case UnregisterCancel(other, _) => other != id
    case CancelWith(_, after) => AvoidsAll(after, id, holder)
    case RegisterInputFor(execution, after) => Some(execution) != holder && AvoidsAll(after, id, holder)
    case UnregisterInput(other, _, after) => other != id && AvoidsAll(after, id, holder)
  }

  predicate AvoidsAll(ops: seq<Op>, id: string, holder: Option<Handle>)
    decreases ops
  {
    ops == [] || (Avoids(ops[0], id, holder) && AvoidsAll(ops[1..], id, holder))
  }

  lemma SameRowTransitive(s: Store, t: Store, u: Store, id: string)
    requires SameRow(s, t, id) && SameRow(t, u, id)
    ensures SameRow(s, u, id)
  {}

  lemma SameRowSelf(s: Store, id: string)
    ensures SameRow(s, s, id)
  {}

  lemma SameHolder(s: Store, t: Store, id: string)
    requires SameRow(s, t, id)
    ensures Get(t.current, id) == Get(s.current, id)
  {}

  /** A handle that is not the row's current one writes another row, if any. */
  lemma NotItsRow(s: Store, execution: Handle, id: string)
    requires Some(execution) != Get(s.current, id)
    ensures CurrentRow(s, execution) != Some(id)
  {}

  lemma {:induction false} WithoutOthers(s: Store, ids: seq<string>, id: string)
    requires id !in ids
    ensures SameRow(s, WithoutAll(s, ids), id)
    decreases |ids|
  {
    hide SameRow, Without;
    if ids == [] {
      SameRowSelf(s, id);
    } else {
      WithoutOther(s, ids[0], id);
      WithoutOthers(Without(s, ids[0]), ids[1..], id);
      SameRowTransitive(s, Without(s, ids[0]), WithoutAll(s, ids), id);
    }
  }

  lemma WithoutOther(s: Store, other: string, id: string)
    requires other != id
    ensures SameRow(s, Without(s, other), id)
  {}

  lemma BeginsOther(s: Store, other: string, o: Options, isFresh: bool, resets: bool, id: string)
    requires other != id
    ensures SameRow(s, Begun(s, other, o, isFresh, resets), id)
  {
    hide BegunRow;
  }

  lemma RegistersOther(s: Store, other: string, id: string)
    requires other != id
    ensures forall h: Handle :: SameRow(s, Registered(s, other, h), id) && SameRow(s, InputRegistered(s, other, h), id)
    ensures SameRow(s, s.(cancels := s.cancels - {other}), id) && SameRow(s, s.(inputs := s.inputs - {other}), id)
  {}

  lemma PatchesOther(s: Store, other: string, p: Patch, id: string)
    requires other != id && other in s.rows
    ensures SameRow(s, Patched(s, other, p), id)
    ensures SameRow(s, Patched(s.(transcripts := s.transcripts + {other}), other, p), id)
  {
    hide PatchedRow;
  }

  lemma ClearsOther(s: Store, other: string, missing: Missing, id: string)
    requires other != id && other in s.rows
    ensures SameRow(s, Cleared(s, other, missing), id)
  {}

  /**
   A row, its handle, its registrations and its transcript change only through an operation
   that names the row or goes through its current handle: everything else, listeners at any
   depth included, leaves them as they are.
   */
  lemma {:induction false} OthersLeaveRowAlone(s: Store, op: Op, id: string)
    requires Avoids(op, id, Get(s.current, id))
    ensures SameRow(s, Exec(s, op), id)
    decreases op, 1
  {
    hide SameRow, Begun, Patched, Cleared, Registered, InputRegistered, CurrentRow, Without, Get;
    SameRowSelf(s, id);
    match op
    case Remove(ids, after) =>
      WithoutOthers(s, ids, id);
      ThenAlone(s, WithoutAll(s, ids), after, id);
    case Begin(other, o, isFresh, resets, after) =>
      BeginsOther(s, other, o, isFresh, resets, id);
      ThenAlone(s, Begun(s, other, o, isFresh, resets), after, id);
    case PatchRow(other, p, after) =>
      if other in s.rows {
        PatchLeavesAlone(s, other, p, after, id);
      }
    case PatchExecution(execution, p, after) =>
      NotItsRow(s, execution, id);
      if CurrentRow(s, execution).Some? && CurrentRow(s, execution).value in s.rows {
        PatchLeavesAlone(s, CurrentRow(s, execution).value, p, after, id);
      }
    case FeedExecution(execution, p, after) =>
      NotItsRow(s, execution, id);
      if CurrentRow(s, execution).Some? && CurrentRow(s, execution).value in s.rows {
        var other := CurrentRow(s, execution).value;
        PatchesOther(s, other, p, id);
        ThenAlone(s, Patched(s.(transcripts := s.transcripts + {other}), other, p), after, id);
      }
    case PatchWithoutReadback(_, _, _, _, _) => ReadbackLeavesAlone(s, op, id);
    case RegisterCancel(other) => RegistersOther(s, other, id);
    case RegisterCancelFor(execution) =>
      NotItsRow(s, execution, id);
      if CurrentRow(s, execution).Some? {
        RegistersOther(s, CurrentRow(s, execution).value, id);
      }
    case UnregisterCancel(other, _) => RegistersOther(s, other, id);
    case CancelWith(_, after) => ThenAlone(s, s, after, id);
    case RegisterInputFor(execution, after) =>
      NotItsRow(s, execution, id);
      if CurrentRow(s, execution).Some? {
        var other := CurrentRow(s, execution).value;
        RegistersOther(s, other, id);
        ThenAlone(s, InputRegistered(s, other, execution), after, id);
      }
    case UnregisterInput(other, _, after) =>
      RegistersOther(s, other, id);
      ThenAlone(s, s.(inputs := s.inputs - {other}), after, id);
  }

  lemma {:induction false} ThenAlone(s: Store, t: Store, after: seq<Op>, id: string)
    requires SameRow(s, t, id) && AvoidsAll(after, id, Get(s.current, id))
    ensures SameRow(s, ExecAll(t, after), id)
    decreases after, 1
  {
    SameHolder(s, t, id);
    hide SameRow;
    OthersAllLeaveRowAlone(t, after, id);
    SameRowTransitive(s, t, ExecAll(t, after), id);
  }

  lemma {:induction false} OthersAllLeaveRowAlone(s: Store, ops: seq<Op>, id: string)
    requires AvoidsAll(ops, id, Get(s.current, id))
    ensures SameRow(s, ExecAll(s, ops), id)
    decreases ops, 0
  {
    hide SameRow, Exec, Get, Avoids;
    if ops == [] {
      SameRowSelf(s, id);
    } else {
      var t := Exec(s, ops[0]);
      OthersLeaveRowAlone(s, ops[0], id);
      SameHolder(s, t, id);
      OthersAllLeaveRowAlone(t, ops[1..], id);
      SameRowTransitive(s, t, ExecAll(t, ops[1..]), id);
    }
  }

  lemma {:induction false} PatchLeavesAlone(s: Store, other: string, p: Patch, after: seq<Op>, id: string)
    requires other != id && other in s.rows && AvoidsAll(after, id, Get(s.current, id))
    ensures SameRow(s, ExecAll(Patched(s, other, p), after), id)
    decreases after, 2
  {
    hide SameRow, Patched, Get;
    PatchesOther(s, other, p, id);
    ThenAlone(s, Patched(s, other, p), after, id);
  }

  lemma {:induction false} ReadbackLeavesAlone(s: Store, op: Op, id: string)
    requires op.PatchWithoutReadback? && Avoids(op, id, Get(s.current, id))
    ensures SameRow(s, Exec(s, op), id)
    decreases op, 0
  {
    hide SameRow, Patched, Cleared, Get, CurrentRow;
    SameRowSelf(s, id);
    NotItsRow(s, op.execution, id);
    if CurrentRow(s, op.execution).Some? && CurrentRow(s, op.execution).value in s.rows {
      var other := CurrentRow(s, op.execution).value;
      PatchLeavesAlone(s, other, op.patch, op.between, id);
      var t := ExecAll(Patched(s, other, op.patch), op.between);
      if CurrentRow(t, op.execution) == Some(other) && other in t.rows {
        ClearsOther(t, other, op.missing, id);
        SameHolder(s, t, id);
        ThenAlone(t, Cleared(t, other, op.missing), op.after, id);
        SameRowTransitive(s, t, Exec(s, op), id);
      }
    }
  }

  // ---- what an operation leaves in its row ----

  /** The row says what the patch says, and where it says nothing what the row said. */
  predicate Takes(row: Row, p: Patch, was: Row) {
    && row.status == (match p.status case Some(status) => status case None => was.status)
    && row.parent == (match p.parent case Some(_) => p.parent case None => was.parent)
    && row.model == (match p.model case Some(_) => p.model case None => was.model)
    && row.thinking == (match p.thinking case Some(_) => p.thinking case None => was.thinking)
    && row.body == (match p.body case Some(body) => body case None => was.body)
  }

  lemma PatchedSays(s: Store, id: string, p: Patch)
    requires id in s.rows
    ensures id in Patched(s, id, p).rows && Takes(Patched(s, id, p).rows[id], p, s.rows[id])
    ensures Patched(s, id, p) == s.(rows := Patched(s, id, p).rows)
  {}

  /** Listeners that stay away from the row leave it as the operation wrote it. */
  lemma WrittenStays(s: Store, t: Store, after: seq<Op>, id: string)
    requires id in t.rows && AvoidsAll(after, id, Get(t.current, id))
    ensures id in ExecAll(t, after).rows && ExecAll(t, after).rows[id] == t.rows[id]
    ensures SameRow(t, ExecAll(t, after), id)
  {
    OthersAllLeaveRowAlone(t, after, id);
    hide ExecAll, AvoidsAll;
  }

  /** The patch an operation writes into row `id`: by its id, through its current handle, or from an event. */
  function PatchOf(s: Store, op: Op, id: string): Option<Patch> {
    match op
    case PatchRow(other, p, _) => if other == id then Some(p) else None
    case PatchExecution(execution, p, _) => if CurrentRow(s, execution) == Some(id) then Some(p) else None
    case FeedExecution(execution, p, _) => if CurrentRow(s, execution) == Some(id) then Some(p) else None
    case _ => None
  }

  function AfterOf(op: Op): seq<Op> {
    match op
    case PatchRow(_, _, after) => after
    case PatchExecution(_, _, after) => after
    case FeedExecution(_, _, after) => after
    case Begin(_, _, _, _, after) => after
    case Reset(after) => after
    case Remove(_, after) => after
    case PatchWithoutReadback(_, _, _, _, after) => after
    case RegisterInputFor(_, after) => after
    case UnregisterInput(_, _, after) => after
    case CancelWith(_, after) => after
    case _ => []
  }

  /** A patch is written, whole and nothing else, whichever way it comes; an event also opens a transcript. */
  lemma PatchIsWritten(s: Store, op: Op, id: string)
    requires id in s.rows && PatchOf(s, op, id).Some? && AvoidsAll(AfterOf(op), id, Get(s.current, id))
    ensures var t := Exec(s, op);
            && id in t.rows && Takes(t.rows[id], PatchOf(s, op, id).value, s.rows[id])
            && Get(t.current, id) == Get(s.current, id) && Get(t.cancels, id) == Get(s.cancels, id)
            && Get(t.inputs, id) == Get(s.inputs, id)
            && (id in t.transcripts <==> id in s.transcripts || op.FeedExecution?)
  {
    var p := PatchOf(s, op, id).value;
    var fed := if op.FeedExecution? then s.(transcripts := s.transcripts + {id}) else s;
    PatchedSays(fed, id, p);
    hide Takes, Patched, ExecAll, AvoidsAll, CurrentRow;
    WrittenStays(s, Patched(fed, id, p), AfterOf(op), id);
  }

  predicate PatchesNothing(s: Store, op: Op) {
    match op
    case PatchRow(id, _, _) => id !in s.rows
    case PatchExecution(execution, _, _) => CurrentRow(s, execution).None?
    case FeedExecution(execution, _, _) => CurrentRow(s, execution).None?
    case PatchWithoutReadback(execution, _, _, _, _) => CurrentRow(s, execution).None?
    case _ => false
  }

  /** Without the row, or through a handle that is not its current one, nothing is written and nobody is told. */
  lemma PatchOfNothing(s: Store, op: Op)
    requires PatchesNothing(s, op)
    ensures Exec(s, op) == s
  {}

  /**
   A terminal patch without readback writes the patch and then clears the thinking label,
   and the model label if that is what lacks proof.
   */
  lemma ReadbackIsCleared(s: Store, op: Op, id: string)
    requires op.PatchWithoutReadback? && id in s.rows && CurrentRow(s, op.execution) == Some(id)
    requires AvoidsAll(op.between, id, Get(s.current, id)) && AvoidsAll(op.after, id, Get(s.current, id))
    requires Coherent(s)
    ensures var t := Exec(s, op);
            && id in t.rows
            && (exists patched: Row :: Takes(patched, op.patch, s.rows[id])
                  && t.rows[id] == patched.(thinking := None,
                                            model := if op.missing == ModelMissing then None else patched.model))
            && Get(t.current, id) == Get(s.current, id)
  {
    PatchedSays(s, id, op.patch);
    var once := Patched(s, id, op.patch);
    PatchedEvolves(s, id, once.rows[id], s.transcripts);
    hide Takes, Patched, AvoidsAll;
    WrittenStays(s, once, op.between, id);
    StillCurrent(s, once, op.between, op.execution, id);
    hide ExecAll;
    var t := ExecAll(once, op.between);
    var u := Cleared(t, id, op.missing);
    WrittenStays(t, u, op.after, id);
  }

  lemma StillCurrent(s: Store, t: Store, ops: seq<Op>, execution: Handle, id: string)
    requires Evolves(s, t) && CurrentRow(s, execution) == Some(id)
    requires Get(ExecAll(t, ops).current, id) == Get(s.current, id)
    ensures CurrentRow(ExecAll(t, ops), execution) == Some(id)
  {
    ExecAllEvolves(t, ops);
    hide Coherent, NoRevival, ExecAll;
  }

  /**
   What a begin leaves. A new row is queued and says what the call says. A fresh execution
   queues the row again, takes the call's labels where it names them, and starts a new
   transcript; any other begin keeps the status and takes only labels the row lacks. Either
   way the row keeps a parent it has, and belongs to the new handle, with no registrations.
   */
  lemma BeginIsWritten(s: Store, op: Op)
    requires op.Begin? && AvoidsAll(op.after, op.id, Some(s.nextHandle))
    ensures var t, o := Exec(s, op), op.options;
            && op.id in t.rows
            && var row := t.rows[op.id];
            && row.body == o.body
            && (op.id !in s.rows ==> row == Row(Queued, o.parent, o.model, o.thinking, o.body))
            && (op.id in s.rows ==>
                  var was := s.rows[op.id];
                  && row.status == (if op.isFresh then Queued else was.status)
                  && row.parent == (if was.parent.Some? then was.parent else o.parent)
                  && row.model == (if op.isFresh then (if o.model.Some? then o.model else was.model)
                                   else if was.model.Some? then was.model else o.model)
                  && row.thinking == (if op.isFresh then (if o.thinking.Some? then o.thinking else was.thinking)
                                      else if was.thinking.Some? then was.thinking else o.thinking))
            && Get(t.current, op.id) == Some(s.nextHandle)
            && op.id !in t.cancels && op.id !in t.inputs
            && (op.id in t.transcripts <==> op.id in s.transcripts && !op.isFresh && !op.resets)
  {
    var t := Begun(s, op.id, op.options, op.isFresh, op.resets);
    BegunSays(s, op.id, op.options, op.isFresh, op.resets);
    hide Begun, ExecAll, AvoidsAll;
    WrittenStays(s, t, op.after, op.id);
  }

  lemma BegunSays(s: Store, id: string, o: Options, isFresh: bool, resets: bool)
    ensures var t := Begun(s, id, o, isFresh, resets);
            && id in t.rows && Get(t.current, id) == Some(s.nextHandle) && id !in t.cancels && id !in t.inputs
            && (id in t.transcripts <==> id in s.transcripts && !isFresh && !resets)
            && var row := t.rows[id];
            && row.body == o.body
            && (id !in s.rows ==> row == Row(Queued, o.parent, o.model, o.thinking, o.body))
            && (id in s.rows ==>
                  var was := s.rows[id];
                  && row.status == (if isFresh then Queued else was.status)
                  && row.parent == (if was.parent.Some? then was.parent else o.parent)
                  && row.model == (if isFresh then (if o.model.Some? then o.model else was.model)
                                   else if was.model.Some? then was.model else o.model)
                  && row.thinking == (if isFresh then (if o.thinking.Some? then o.thinking else was.thinking)
                                      else if was.thinking.Some? then was.thinking else o.thinking))
  {}

  /** A row that is removed, or reset with all the others, is gone with everything it owned. */
  lemma DroppedIsGone(s: Store, op: Op, id: string)
    requires Coherent(s) && AvoidsAll(AfterOf(op), id, None)
    requires op.Reset? || (op.Remove? && id in op.ids)
    ensures var t := Exec(s, op);
            id !in t.rows && id !in t.current && id !in t.cancels && id !in t.inputs && id !in t.transcripts
  {
    if op.Reset? {
      EmptyEvolves(s);
      hide Coherent, Remembers, NoRevival, ExecAll, AvoidsAll;
      GoneStays(Empty(s), op.after, id);
    } else {
      WithoutAllEvolves(s, op.ids);
      WithoutIsGone(s, op.ids, id);
      hide Coherent, Remembers, NoRevival, WithoutAll, ExecAll, AvoidsAll;
      GoneStays(WithoutAll(s, op.ids), op.after, id);
    }
  }

  lemma GoneStays(s: Store, after: seq<Op>, id: string)
    requires Coherent(s) && id !in s.rows && AvoidsAll(after, id, None)
    ensures forall t :: t == s || t == ExecAll(s, after) ==>
              id !in t.rows && id !in t.current && id !in t.cancels && id !in t.inputs && id !in t.transcripts
  {
    GoneOwnsNothing(s, id);
    hide Coherent, ExecAll, AvoidsAll;
    OthersAllLeaveRowAlone(s, after, id);
  }

  lemma GoneOwnsNothing(s: Store, id: string)
    requires Coherent(s) && id !in s.rows
    ensures id !in s.current && id !in s.cancels && id !in s.inputs && id !in s.transcripts
  {}

  lemma {:induction false} WithoutIsGone(s: Store, ids: seq<string>, id: string)
    requires id in ids || id !in s.rows
    ensures id !in WithoutAll(s, ids).rows
    decreases |ids|
  {
    if ids != [] {
      WithoutIsGone(Without(s, ids[0]), ids[1..], id);
    }
  }

  /** Removing rows that are not there changes nothing and tells nobody. */
  lemma {:induction false} RemoveOfNothing(s: Store, ids: seq<string>, after: seq<Op>)
    requires forall id :: id in ids ==> id !in s.rows
    ensures Exec(s, Remove(ids, after)) == s
    decreases |ids|
  {
    if ids != [] {
      RemoveOfNothing(s, ids[1..], after);
    }
  }

  /** The operation registers something for the row, by its id or through its current handle. */
  predicate Registers(s: Store, op: Op, id: string)
    requires id in s.current
  {
    match op
    case RegisterCancel(other) => other == id
    case RegisterCancelFor(execution) => execution == s.current[id]
    case RegisterInputFor(execution, _) => execution == s.current[id]
    case _ => false
  }

  /** A registration belongs to the row's current handle, under a token of its own; it replaces the one before. */
  lemma RegistrationIsWritten(s: Store, op: Op, id: string)
    requires Coherent(s) && id in s.current && Registers(s, op, id)
    requires AvoidsAll(AfterOf(op), id, Some(s.current[id]))
    ensures var t := Exec(s, op);
            && (if op.RegisterInputFor? then
                  && Get(t.inputs, id) == Some(Registration(s.nextToken, s.current[id]))
                  && Get(t.cancels, id) == Get(s.cancels, id)
                else
                  && Get(t.cancels, id) == Some(Registration(s.nextToken, s.current[id]))
                  && Get(t.inputs, id) == Get(s.inputs, id)
                  && s.nextToken in t.cancelRow && t.cancelRow[s.nextToken] == id)
            && Get(t.rows, id) == Get(s.rows, id)
  {
    assert CurrentRow(s, s.current[id]) == Some(id);
    hide Coherent;
    if op.RegisterInputFor? {
      OthersAllLeaveRowAlone(InputRegistered(s, id, s.current[id]), op.after, id);
    }
  }

  predicate CleansUp(s: Store, op: Op, id: string) {
    match op
    case UnregisterCancel(other, token) => other == id && id in s.cancels && s.cancels[id].token == token
    case UnregisterInput(other, token, _) => other == id && id in s.inputs && s.inputs[id].token == token
    case _ => false
  }

  /** A cleanup takes down the registration it belongs to, while that is still there. */
  lemma CleanupIsWritten(s: Store, op: Op, id: string)
    requires CleansUp(s, op, id) && AvoidsAll(AfterOf(op), id, Get(s.current, id))
    ensures var t := Exec(s, op);
            && (if op.UnregisterInput? then id !in t.inputs && Get(t.cancels, id) == Get(s.cancels, id)
                else id !in t.cancels && Get(t.inputs, id) == Get(s.inputs, id))
            && Get(t.rows, id) == Get(s.rows, id) && Get(t.current, id) == Get(s.current, id)
  {
    if op.UnregisterInput? {
      OthersAllLeaveRowAlone(s.(inputs := s.inputs - {id}), op.after, id);
    }
  }

  /** Cancelling calls the child back exactly when its token still holds a registration. */
  lemma CancelReaches(s: Store, token: Token, callback: seq<Op>)
    requires Coherent(s)
    ensures Exec(s, CancelWith(token, callback)) ==
            if exists id :: id in s.cancels && s.cancels[id].token == token then ExecAll(s, callback) else s
  {
    if id :| id in s.cancels && s.cancels[id].token == token {
      assert Owned(s, id, s.cancels[id]);
    }
    hide ExecAll;
  }

  /** A listener that replaces the row between the two writes has the last word. */
  lemma ReplacementIsNotClobbered(s: Store, op: Op, id: string)
    requires Coherent(s) && op.PatchWithoutReadback? && CurrentRow(s, op.execution) == Some(id)
    ensures id in s.rows
    ensures var t := ExecAll(Patched(s, id, op.patch), op.between);
            CurrentRow(t, op.execution).None? ==> Exec(s, op) == t
  {
    CurrentRowIs(s, op.execution);
    hide Coherent, ExecAll, Patched, Cleared, CurrentRow;
  }

  /** A token that holds no registration now never holds one again: neither of the two kinds. */
  lemma CleanupIsIdentitySafe(s: Store, ops: seq<Op>, id: string, token: Token, after: seq<Op>)
    requires Coherent(s) && token < s.nextToken
    ensures var t := ExecAll(s, ops);
            && (!(id in s.cancels && s.cancels[id].token == token) ==> Exec(t, UnregisterCancel(id, token)) == t)
            && (!(id in s.inputs && s.inputs[id].token == token) ==> Exec(t, UnregisterInput(id, token, after)) == t)
  {
    ExecAllEvolves(s, ops);
    hide Coherent, ExecAll, Remembers, CurrentRow, Owned;
  }

  /** Nor does cancelling through a superseded authority reach whoever has registered since. */
  lemma SupersededCancelIsHarmless(s: Store, ops: seq<Op>, token: Token, after: seq<Op>)
    requires Coherent(s) && token < s.nextToken
    requires forall id :: id in s.cancels ==> s.cancels[id].token != token
    ensures var t := ExecAll(s, ops); Exec(t, CancelWith(token, after)) == t
  {
    ExecAllEvolves(s, ops);
    hide Coherent;
  }

  // ---- the store in place ----

  class AgentLiveStore {
    var rows: map<string, Row>
    var executionAuthorities: map<string, Handle>
    var executionAuthorityRows: map<Handle, string>
    var cancelRegistrations: map<string, Registration>
    var cancellationAuthorityRows: map<Token, string>
    var inputRegistrations: map<string, Registration>
    var transcripts: set<string>
    var nextHandle: Handle
    var nextToken: Token

    function State(): Store
      reads this
    {
      Store(rows, executionAuthorities, executionAuthorityRows, cancelRegistrations, cancellationAuthorityRows,
            inputRegistrations, transcripts, nextHandle, nextToken)
    }

    ghost predicate Valid()
      reads this
    {
      Coherent(State())
    }

    constructor ()
      ensures Valid() && rows == map[]
    {
      rows, executionAuthorities, executionAuthorityRows := map[], map[], map[];
      cancelRegistrations, cancellationAuthorityRows, inputRegistrations := map[], map[], map[];
      transcripts, nextHandle, nextToken := {}, 0, 0;
    }

    /** One call, with everything its listeners do inside it. */
    method Run(op: Op)
      requires Valid()
      modifies this
      ensures Valid() && State() == Exec(old(State()), op)
      decreases op, 1
    {
      ExecEvolves(State(), op);
      EvolvedIsCoherent(State(), Exec(State(), op));
      hide *;
      match op
      case Reset(after) => ResetAll(after);
      case Remove(ids, after) => RemoveRows(ids, after);
      case Begin(id, o, isFresh, resets, after) => BeginQuietly(op);
      case PatchRow(id, p, after) => PatchById(id, p, after);
      case PatchExecution(execution, p, after) => PatchByHandle(execution, p, after);
      case FeedExecution(execution, p, after) => FeedEvent(execution, p, after);
      case PatchWithoutReadback(execution, missing, p, between, after) => PatchAndClear(op);
      case RegisterCancel(id) => AddCancelById(id);
      case RegisterCancelFor(execution) => AddCancelByHandle(execution);
      case UnregisterCancel(id, token) => DropCancel(id, token);
      case CancelWith(token, after) => CancelWithAuthority(token, after);
      case RegisterInputFor(execution, after) => AddInput(execution, after);
      case UnregisterInput(id, token, after) => DropInput(id, token, after);
    }

    method BeginQuietly(op: Op)
      requires Valid() && op.Begin?
      modifies this
      ensures Valid() && State() == Exec(old(State()), op)
      decreases op, 0
    {
      var _ := BeginRow(op.id, op.options, op.isFresh, op.resets, op.after);
    }

    method PatchByHandle(execution: Handle, p: Patch, listeners: seq<Op>)
      requires Valid()
      modifies this
      ensures Valid() && State() == Exec(old(State()), PatchExecution(execution, p, listeners))
      decreases listeners, 3
    {
      hide Coherent, ExecAll, CurrentRow, Patched;
      var rowId := CurrentExecutionRowId(execution);
      if rowId.Some? {
        PatchById(rowId.value, p, listeners);
      }
    }

    method AddCancelById(id: string)
      requires Valid()
      modifies this
      ensures Valid() && State() == Exec(old(State()), RegisterCancel(id))
    {
      hide Coherent, Registered;
      if id in executionAuthorities {
        AddCancel(id, executionAuthorities[id]);
      }
    }

    method AddCancelByHandle(execution: Handle)
      requires Valid()
      modifies this
      ensures Valid() && State() == Exec(old(State()), RegisterCancelFor(execution))
    {
      hide Coherent, Registered, CurrentRow;
      var rowId := CurrentExecutionRowId(execution);
      if rowId.Some? {
        CurrentIsHeld(State(), execution);
        AddCancel(rowId.value, execution);
      }
    }

    method DropCancel(id: string, token: Token)
      requires Valid()
      modifies this
      ensures Valid() && State() == Exec(old(State()), UnregisterCancel(id, token))
    {
      UncancelledIsCoherent(State(), id);
      hide Coherent;
      if id in cancelRegistrations && cancelRegistrations[id].token == token {
        cancelRegistrations := cancelRegistrations - {id};
      }
    }

    method CancelWithAuthority(token: Token, callback: seq<Op>)
      requires Valid()
      modifies this
      ensures Valid() && State() == Exec(old(State()), CancelWith(token, callback))
      decreases callback, 2
    {
      hide Coherent, CurrentRow, ExecAll;
      if token in cancellationAuthorityRows {
        var id := cancellationAuthorityRows[token];
        if id in cancelRegistrations && cancelRegistrations[id].token == token {
          var owner := CurrentExecutionRowId(cancelRegistrations[id].execution);
          if owner.Some? {
            Emit(callback);
          }
        }
      }
    }

    method DropInput(id: string, token: Token, listeners: seq<Op>)
      requires Valid()
      modifies this
      ensures Valid() && State() == Exec(old(State()), UnregisterInput(id, token, listeners))
      decreases listeners, 2
    {
      if id in inputRegistrations && inputRegistrations[id].token == token {
        UncancelledIsCoherent(State(), id);
        hide Coherent, ExecAll;
        inputRegistrations := inputRegistrations - {id};
        Emit(listeners);
      }
    }

    /** Announces a change: the listeners run now, inside the call. */
    method Emit(listeners: seq<Op>)
      requires Valid()
      modifies this
      ensures Valid() && State() == ExecAll(old(State()), listeners)
      decreases listeners, 1
    {
      var i := 0;
      while i < |listeners|
        invariant i <= |listeners| && Valid()
        invariant ExecAll(State(), listeners[i..]) == ExecAll(old(State()), listeners)
      {
        assert listeners[i..][0] == listeners[i] && listeners[i..][1..] == listeners[i + 1..];
        Run(listeners[i]);
        i := i + 1;
      }
    }

    method CurrentExecutionRowId(execution: Handle) returns (rowId: Option<string>)
      ensures rowId == CurrentRow(State(), execution)
    {
      if execution in executionAuthorityRows {
        var id := executionAuthorityRows[execution];
        if id in executionAuthorities && executionAuthorities[id] == execution {
          return Some(id);
        }
      }
      return None;
    }

    method ResetAll(listeners: seq<Op>)
      requires Valid()
      modifies this
      ensures Valid() && State() == ExecAll(Empty(old(State())), listeners)
      decreases listeners, 2
    {
      EmptyEvolves(State());
      hide Coherent, Remembers, NoRevival;
      rows, executionAuthorities, cancelRegistrations, inputRegistrations := map[], map[], map[], map[];
      transcripts := {};
      Emit(listeners);
    }

    method RemoveRows(ids: seq<string>, listeners: seq<Op>)
      requires Valid()
      modifies this
      ensures Valid() && State() == Exec(old(State()), Remove(ids, listeners))
      decreases listeners, 2
    {
      hide Coherent, Evolves, ExecAll, Exec, WithoutAll, Without;
      WithoutAllEvolves(State(), ids);
      EvolvedIsCoherent(State(), WithoutAll(State(), ids));
      RemoveIs(State(), ids, listeners);
      var removed := DropRows(ids);
      if removed > 0 {
        Emit(listeners);
      }
    }

    method DropRows(ids: seq<string>) returns (removed: nat)
      modifies this
      ensures State() == WithoutAll(old(State()), ids) && |State().rows| + removed == |old(State()).rows|
    {
      removed := 0;
      var i := 0;
      while i < |ids|
        invariant i <= |ids| && WithoutAll(State(), ids[i..]) == WithoutAll(old(State()), ids)
        invariant |State().rows| + removed == |old(State()).rows|
      {
        hide WithoutAll, Without;
        assert ids[i..][0] == ids[i] && ids[i..][1..] == ids[i + 1..];
        WithoutFirst(State(), ids[i..]);
        var dropped := DropIfThere(ids[i]);
        removed := removed + dropped;
        i := i + 1;
      }
      WithoutNone(State(), ids[i..]);
    }

    method DropIfThere(id: string) returns (dropped: nat)
      modifies this
      ensures State() == Without(old(State()), id) && |State().rows| + dropped == |old(State()).rows|
    {
      if id !in rows {
        return 0;
      }
      RemovedRow(rows, id);
      DropRow(id);
      return 1;
    }

    method DropRow(id: string)
      requires id in rows
      modifies this
      ensures State() == Without(old(State()), id) && rows == old(rows) - {id}
    {
      rows, executionAuthorities := rows - {id}, executionAuthorities - {id};
      cancelRegistrations, inputRegistrations := cancelRegistrations - {id}, inputRegistrations - {id};
      transcripts := transcripts - {id};
    }

    method BeginRow(id: string, o: Options, isFresh: bool, resets: bool, listeners: seq<Op>) returns (execution: Handle)
      requires Valid()
      modifies this
      ensures Valid() && State() == ExecAll(Begun(old(State()), id, o, isFresh, resets), listeners)
      ensures execution == old(nextHandle)
      decreases listeners, 2
    {
      hide Coherent, Evolves, ExecAll, Begun, BegunRow;
      BegunEvolves(State(), id, o, isFresh, resets);
      EvolvedIsCoherent(State(), Begun(State(), id, o, isFresh, resets));
      execution := Install(id, o, isFresh, resets);
      Emit(listeners);
    }

    method Install(id: string, o: Options, isFresh: bool, resets: bool) returns (execution: Handle)
      modifies this
      ensures State() == Begun(old(State()), id, o, isFresh, resets) && execution == old(nextHandle)
    {
      hide BegunRow;
      if isFresh || resets {
        transcripts := transcripts - {id};
      }
      rows := rows[id := BegunRow(Get(rows, id), o, isFresh)];
      execution := nextHandle;
      nextHandle := nextHandle + 1;
      executionAuthorityRows := executionAuthorityRows[execution := id];
      executionAuthorities := executionAuthorities[id := execution];
      cancelRegistrations, inputRegistrations := cancelRegistrations - {id}, inputRegistrations - {id};
    }

    method PatchById(id: string, p: Patch, listeners: seq<Op>)
      requires Valid()
      modifies this
      ensures Valid() && State() == Exec(old(State()), PatchRow(id, p, listeners))
      decreases listeners, 2
    {
      if id !in rows {
        return;
      }
      PatchedIsCoherent(State(), id, p);
      hide Coherent, PatchedRow, ExecAll;
      PutRow(id, PatchedRow(rows[id], p));
      Emit(listeners);
    }

    method PutRow(id: string, row: Row)
      modifies this
      ensures State() == old(State()).(rows := old(rows)[id := row])
    {
      rows := rows[id := row];
    }

    method FeedEvent(execution: Handle, p: Patch, listeners: seq<Op>)
      requires Valid()
      modifies this
      ensures Valid() && State() == Exec(old(State()), FeedExecution(execution, p, listeners))
      decreases listeners, 3
    {
      hide CurrentRow, ExecAll, Coherent, Patched;
      var rowId := CurrentExecutionRowId(execution);
      if rowId.Some? && rowId.value in rows {
        FedIsCoherent(State(), rowId.value);
        transcripts := transcripts + {rowId.value};
        PatchById(rowId.value, p, listeners);
      }
    }

    /** Two writes with an announcement between them: the second asks again whose row it is. */
    method PatchAndClear(op: Op)
      requires Valid() && op.PatchWithoutReadback?
      modifies this
      ensures Valid() && State() == Exec(old(State()), op)
      decreases op, 0
    {
      hide Coherent, CurrentRow, ExecAll, Patched;
      var rowId := CurrentExecutionRowId(op.execution);
      if rowId.None? || rowId.value !in rows {
        return;
      }
      var id := rowId.value;
      PatchById(id, op.patch, op.between);
      var owner := CurrentExecutionRowId(op.execution);
      if owner != rowId || id !in rows {
        return;
      }
      var row := rows[id];
      ClearedIsCoherent(State(), id, op.missing);
      PutRow(id, row.(model := if op.missing == ModelMissing then None else row.model, thinking := None));
      Emit(op.after);
    }

    method AddCancel(id: string, execution: Handle)
      requires Valid() && id in executionAuthorities && executionAuthorities[id] == execution
      modifies this
      ensures Valid() && State() == Registered(old(State()), id, execution)
    {
      RegisteredIsCoherent(State(), id);
      hide Coherent;
      PutCancel(id, execution);
    }

    method PutCancel(id: string, execution: Handle)
      modifies this
      ensures State() == Registered(old(State()), id, execution)
    {
      cancelRegistrations := cancelRegistrations[id := Registration(nextToken, execution)];
      cancellationAuthorityRows := cancellationAuthorityRows[nextToken := id];
      nextToken := nextToken + 1;
    }

    method AddInput(execution: Handle, listeners: seq<Op>)
      requires Valid()
      modifies this
      ensures Valid() && State() == Exec(old(State()), RegisterInputFor(execution, listeners))
      decreases listeners, 2
    {
      hide Coherent, ExecAll, CurrentRow;
      var rowId := CurrentExecutionRowId(execution);
      if rowId.Some? {
        CurrentRowIs(State(), execution);
        InputIsCoherent(State(), rowId.value);
        PutInput(rowId.value, execution);
        Emit(listeners);
      }
    }

    method PutInput(id: string, execution: Handle)
      modifies this
      ensures State() == InputRegistered(old(State()), id, execution)
    {
      inputRegistrations := inputRegistrations[id := Registration(nextToken, execution)];
      nextToken := nextToken + 1;
    }
  }

  lemma PatchedIsCoherent(s: Store, id: string, p: Patch)
    requires Coherent(s) && id in s.rows
    ensures Coherent(Patched(s, id, p))
  {
    hide PatchedRow;
  }

  lemma FedIsCoherent(s: Store, id: string)
    requires Coherent(s) && id in s.rows
    ensures Coherent(s.(transcripts := s.transcripts + {id}))
  {}

  lemma ClearedIsCoherent(s: Store, id: string, missing: Missing)
    requires Coherent(s) && id in s.rows
    ensures Coherent(Cleared(s, id, missing))
  {}

  lemma RegisteredIsCoherent(s: Store, id: string)
    requires Coherent(s) && id in s.current
    ensures Coherent(Registered(s, id, s.current[id]))
  {
    RegisteredEvolves(s, id);
    hide Coherent;
  }

  lemma InputIsCoherent(s: Store, id: string)
    requires Coherent(s) && id in s.current
    ensures Coherent(InputRegistered(s, id, s.current[id]))
  {
    InputEvolves(s, id);
    hide Coherent;
  }

  lemma CurrentIsHeld(s: Store, execution: Handle)
    requires CurrentRow(s, execution).Some?
    ensures CurrentRow(s, execution).value in s.current && s.current[CurrentRow(s, execution).value] == execution
  {}

  lemma EvolvedIsCoherent(s: Store, t: Store)
    requires Evolves(s, t)
    ensures Coherent(s) && Coherent(t)
  {}

  lemma WithoutFirst(s: Store, ids: seq<string>)
    requires ids != []
    ensures WithoutAll(s, ids) == WithoutAll(Without(s, ids[0]), ids[1..])
    ensures ids[0] !in s.rows ==> Without(s, ids[0]) == s
  {}

  lemma WithoutNone(s: Store, ids: seq<string>)
    requires ids == []
    ensures WithoutAll(s, ids) == s
  {}

  lemma RemoveIs(s: Store, ids: seq<string>, after: seq<Op>)
    ensures var t := WithoutAll(s, ids);
            Exec(s, Remove(ids, after)) == if |t.rows| < |s.rows| then ExecAll(t, after) else t
  {}

  lemma RemovedRow(rows: map<string, Row>, id: string)
    requires id in rows
    ensures |rows - {id}| == |rows| - 1
  {
    assert (rows - {id}).Keys == rows.Keys - {id};
    assert |(rows - {id}).Keys| == |rows.Keys| - 1;
  }
}
