/**
 The bounded transcript of one live agent (agent-live-transcript.ts). Events arrive
 classified; message bodies, tool arguments and results are opaque values, and the byte
 and node counts of a block list are given functions.
 */
module AgentLiveTranscript {
  import opened Wrappers
  import opened Numerals

  type Value = nat

  const NO_ARGS: Value := 0
  const MAX_BLOCKS := 120
  const MAX_BYTES := 512_000
  const MAX_NODES := 5_000

  datatype Block =
    | Assistant(id: string, message: Value, complete: bool)
    | Tool(id: string, callId: string, name: string, args: Value, cwd: string, started: bool, argsComplete: bool,
           result: Option<Value>, partial: bool)

  datatype Call = Call(id: Option<string>, name: Option<string>, args: Option<Value>)

  datatype Message =
    | FromAssistant(body: Value, calls: seq<Call>)
    | FromTool(callId: Option<string>, name: Option<string>, result: Option<Value>)
    | FromOther

  datatype ToolEvent = ToolEvent(callId: Option<string>, name: Option<string>, args: Option<Value>, argsComplete: bool,
                                 result: Option<Value>)

  datatype Event =
    | MessageEvent(message: Message, complete: bool)
    | ToolStart(tool: ToolEvent)
    | ToolUpdate(tool: ToolEvent)
    | ToolEnd(tool: ToolEvent)
    | AgentEnd(messages: seq<Message>)
    | OtherEvent

  function Or<T>(value: Option<T>, otherwise: T): T {
    match value
    case Some(v) => v
    case None => otherwise
  }

  function AssistantId(k: nat): string {
    "assistant:" + Decimal(k)
  }

  function ToolId(callId: string): string {
    "tool:" + callId
  }

  // ---- the transcript without its index ----

  /** `total` counts the blocks appended since the messages were last replaced. */
  datatype Log = Log(blocks: seq<Block>, active: Option<string>, next: nat, omitted: nat, cwd: string, total: nat)

  function BlockIds(blocks: seq<Block>): set<string> {
    set b | b in blocks :: b.id
  }

  /** Replaces the block of that id where it stands, or appends. */
  function Upsert(blocks: seq<Block>, b: Block): seq<Block> {
    if blocks == [] then [b]
    else if blocks[0].id == b.id then [b] + blocks[1..]
    else [blocks[0]] + Upsert(blocks[1..], b)
  }

  function Put(log: Log, b: Block): Log {
    log.(blocks := Upsert(log.blocks, b), total := if b.id in BlockIds(log.blocks) then log.total else log.total + 1)
  }

  function FindTool(blocks: seq<Block>, callId: string): (found: Option<Block>)
    ensures found.Some? ==> found.value in blocks && found.value.Tool? && found.value.callId == callId
    ensures found.None? ==> forall b :: b in blocks && b.Tool? ==> b.callId != callId
  {
    if blocks == [] then None
    else if blocks[0].Tool? && blocks[0].callId == callId then Some(blocks[0])
    else FindTool(blocks[1..], callId)
  }

  function CalledTool(current: Option<Block>, callId: string, call: Call, cwd: string): Block
    requires current.Some? ==> current.value.Tool?
  {
    Tool(ToolId(callId), callId, Or(call.name, "tool"), Or(call.args, NO_ARGS), cwd,
         current.Some? && current.value.started, true,
         if current.Some? then current.value.result else None,
         if current.Some? then current.value.partial else true)
  }

  function StartedTool(current: Option<Block>, callId: string, e: ToolEvent, cwd: string): Block
    requires current.Some? ==> current.value.Tool?
  {
    Tool(ToolId(callId), callId,
         Or(e.name, if current.Some? then current.value.name else "tool"),
         Or(e.args, if current.Some? then current.value.args else NO_ARGS), cwd, true, e.argsComplete,
         if current.Some? then current.value.result else None,
         if current.Some? then current.value.partial else true)
  }

  function UpdatedTool(current: Block, e: ToolEvent): Block
    requires current.Tool?
  {
    current.(args := Or(e.args, current.args), argsComplete := e.argsComplete || current.argsComplete,
             result := if e.result.Some? then e.result else current.result, partial := true)
  }

  function EndedTool(current: Block, e: ToolEvent): Block
    requires current.Tool?
  {
    current.(started := true, argsComplete := true,
             result := if e.result.Some? then e.result else current.result, partial := false)
  }

  function ResultTool(current: Option<Block>, callId: string, name: Option<string>, result: Option<Value>, cwd: string)
    : Block
    requires current.Some? ==> current.value.Tool?
  {
    var tool := if current.Some? then current.value
                else Tool(ToolId(callId), callId, Or(name, "tool"), NO_ARGS, cwd, true, true, None, false);
    tool.(result := if result.Some? then result else tool.result, partial := false)
  }

  function AfterCalls(log: Log, calls: seq<Call>): Log
    decreases |calls|
  {
    if calls == [] then log
    else
      var call := calls[0];
      AfterCalls(
        if call.id.None? then log
        else Put(log, CalledTool(FindTool(log.blocks, call.id.value), call.id.value, call, log.cwd)),
        calls[1..])
  }

  function AfterMessage(log: Log, message: Message, complete: bool): Log {
    match message
    case FromAssistant(body, calls) =>
      var numbered := if log.active.None? then log.(next := log.next + 1) else log;
      var id := Or(log.active, AssistantId(log.next + 1));
      AfterCalls(Put(numbered, Assistant(id, body, complete)), calls).(active := if complete then None else Some(id))
    case FromTool(callId, name, result) =>
      if callId.None? then log
      else Put(log, ResultTool(FindTool(log.blocks, callId.value), callId.value, name, result, log.cwd))
    case FromOther => log
  }

  function AfterStart(log: Log, e: ToolEvent): Log {
    if e.callId.None? then log
    else Put(log, StartedTool(FindTool(log.blocks, e.callId.value), e.callId.value, e, log.cwd))
  }

  /** An update or end for an unknown call starts it first. */
  function Started(log: Log, e: ToolEvent): Log {
    if e.callId.Some? && FindTool(log.blocks, e.callId.value).None? then AfterStart(log, e) else log
  }

  function AfterUpdate(log: Log, e: ToolEvent): Log {
    if e.callId.None? then log
    else
      var started := Started(log, e);
      match FindTool(started.blocks, e.callId.value)
      case Some(current) => Put(started, UpdatedTool(current, e))
      case None => started
  }

  function AfterEnd(log: Log, e: ToolEvent): Log {
    if e.callId.None? then log
    else
      var started := Started(log, e);
      match FindTool(started.blocks, e.callId.value)
      case Some(current) => Put(started, EndedTool(current, e))
      case None => started
  }

  function AfterMessages(log: Log, messages: seq<Message>): Log
    decreases |messages|
  {
    if messages == [] then log else AfterMessages(AfterMessage(log, messages[0], true), messages[1..])
  }

  /** How a block list is measured. */
  datatype Budget = Budget(bytes: seq<Block> -> nat, nodes: seq<Block> -> nat)

  predicate Fits(budget: Budget, blocks: seq<Block>) {
    |blocks| <= MAX_BLOCKS && budget.bytes(blocks) <= MAX_BYTES && budget.nodes(blocks) <= MAX_NODES
  }

  /** How many blocks go from the front until the rest fits. */
  function Excess(budget: Budget, blocks: seq<Block>): (n: nat)
    ensures n <= |blocks|
  {
    if blocks == [] || Fits(budget, blocks) then 0 else 1 + Excess(budget, blocks[1..])
  }

  function AfterTrim(budget: Budget, log: Log): Log {
    var n := Excess(budget, log.blocks);
    log.(blocks := log.blocks[n..], omitted := log.omitted + n)
  }

  function Emptied(log: Log): Log {
    Log([], None, 0, 0, log.cwd, 0)
  }

  function Ingested(log: Log, event: Event): Log {
    match event
    case MessageEvent(message, complete) => AfterMessage(log, message, complete)
    case ToolStart(tool) => AfterStart(log, tool)
    case ToolUpdate(tool) => AfterUpdate(log, tool)
    case ToolEnd(tool) => AfterEnd(log, tool)
    case AgentEnd(messages) => AfterMessages(Emptied(log), messages)
    case OtherEvent => log
  }

  /** An event, and the working directory it came from. */
  datatype Delivery = Delivery(event: Event, cwd: string)

  function AfterEvent(budget: Budget, log: Log, d: Delivery): Log {
    AfterTrim(budget, Ingested(log.(cwd := d.cwd), d.event))
  }

  // ---- what every event keeps ----

  ghost predicate DistinctBlocks(blocks: seq<Block>) {
    forall i, j :: 0 <= i < j < |blocks| ==> blocks[i].id != blocks[j].id
  }

  ghost predicate Named(b: Block, next: nat) {
    match b
    case Assistant(id, _, _) => exists k :: 0 < k <= next && id == AssistantId(k)
    case Tool(id, callId, _, _, _, _, _, _, _) => id == ToolId(callId)
  }

  /** Block ids are distinct and say what the block is; nothing appended is unaccounted for. */
  ghost predicate Coherent(log: Log) {
    && DistinctBlocks(log.blocks)
    && (forall b :: b in log.blocks ==> Named(b, log.next))
    && (log.active.Some? ==> exists k :: 0 < k <= log.next && log.active.value == AssistantId(k))
    && log.omitted + |log.blocks| == log.total
  }

  lemma {:induction false} UpsertIs(blocks: seq<Block>, b: Block)
    ensures forall c :: c in Upsert(blocks, b) ==> c == b || c in blocks
    ensures b.id !in BlockIds(blocks) ==> Upsert(blocks, b) == blocks + [b]
    ensures b.id in BlockIds(blocks) ==> |Upsert(blocks, b)| == |blocks|
  {
    if blocks != [] {
      var rest := blocks[1..];
      UpsertIs(rest, b);
      assert blocks == [blocks[0]] + rest;
      BlockIdsConcat([blocks[0]], rest);
      assert BlockIds([blocks[0]]) == {blocks[0].id} by { assert blocks[0] in [blocks[0]]; }
    }
  }

  lemma {:induction false} UpsertDistinct(blocks: seq<Block>, b: Block)
    requires DistinctBlocks(blocks)
    ensures DistinctBlocks(Upsert(blocks, b))
  {
    if blocks != [] && blocks[0].id != b.id {
      var rest := blocks[1..];
      DistinctSplits(blocks[0], rest);
      assert blocks == [blocks[0]] + rest;
      hide DistinctBlocks;
      UpsertDistinct(rest, b);
      UpsertIs(rest, b);
      DistinctSplits(blocks[0], Upsert(rest, b));
    } else if blocks != [] {
      DistinctSplits(blocks[0], blocks[1..]);
      assert blocks == [blocks[0]] + blocks[1..];
      DistinctSplits(b, blocks[1..]);
      hide DistinctBlocks;
    }
  }

  lemma DistinctSplits(first: Block, rest: seq<Block>)
    ensures DistinctBlocks([first] + rest) <==> DistinctBlocks(rest) && forall c :: c in rest ==> c.id != first.id
  {
    var all := [first] + rest;
    assert forall i :: 0 <= i < |rest| ==> all[i + 1] == rest[i];
    assert forall i :: 0 < i < |all| ==> all[i] == rest[i - 1];
    if DistinctBlocks(all) {
      forall c | c in rest
        ensures c.id != first.id
      {
        var i :| 0 <= i < |rest| && rest[i] == c;
        assert all[i + 1] == c && all[0] == first;
      }
    }
  }

  lemma BlockIdsConcat(a: seq<Block>, b: seq<Block>)
    ensures BlockIds(a + b) == BlockIds(a) + BlockIds(b)
  {
    assert forall x :: x in a + b <==> x in a || x in b;
  }

  lemma PutKeeps(log: Log, b: Block)
    requires Coherent(log) && Named(b, log.next)
    ensures Coherent(Put(log, b)) && Put(log, b) == log.(blocks := Put(log, b).blocks, total := Put(log, b).total)
    ensures b in Put(log, b).blocks
  {
    hide DistinctBlocks, Named;
    UpsertIs(log.blocks, b);
    UpsertDistinct(log.blocks, b);
    UpsertHolds(log.blocks, b);
  }

  lemma {:induction false} UpsertHolds(blocks: seq<Block>, b: Block)
    ensures b in Upsert(blocks, b)
  {
    if blocks != [] && blocks[0].id != b.id {
      UpsertHolds(blocks[1..], b);
    }
  }

  lemma FoundIsNamed(log: Log, callId: string)
    requires Coherent(log)
    ensures FindTool(log.blocks, callId).Some? ==> FindTool(log.blocks, callId).value.id == ToolId(callId)
  {}

  lemma {:induction false} CallsKeep(log: Log, calls: seq<Call>)
    requires Coherent(log)
    ensures Coherent(AfterCalls(log, calls)) && AfterCalls(log, calls).next == log.next
    decreases |calls|
  {
    hide Coherent, Put;
    if calls != [] {
      var call := calls[0];
      if call.id.Some? {
        PutKeeps(log, CalledTool(FindTool(log.blocks, call.id.value), call.id.value, call, log.cwd));
        CallsKeep(Put(log, CalledTool(FindTool(log.blocks, call.id.value), call.id.value, call, log.cwd)), calls[1..]);
      } else {
        CallsKeep(log, calls[1..]);
      }
    }
  }

  lemma NamedLonger(b: Block, next: nat, longer: nat)
    requires Named(b, next) && next <= longer
    ensures Named(b, longer)
  {}

  lemma MessageKeeps(log: Log, message: Message, complete: bool)
    requires Coherent(log)
    ensures Coherent(AfterMessage(log, message, complete))
  {
    match message
    case FromAssistant(body, calls) =>
      var numbered := if log.active.None? then log.(next := log.next + 1) else log;
      var id := Or(log.active, AssistantId(log.next + 1));
      forall b | b in log.blocks
        ensures Named(b, numbered.next)
      {
        NamedLonger(b, log.next, numbered.next);
      }
      assert Coherent(numbered);
      assert exists k :: 0 < k <= numbered.next && id == AssistantId(k);
      PutKeeps(numbered, Assistant(id, body, complete));
      CallsKeep(Put(numbered, Assistant(id, body, complete)), calls);
    case FromTool(callId, name, result) =>
      if callId.Some? {
        FoundIsNamed(log, callId.value);
        PutKeeps(log, ResultTool(FindTool(log.blocks, callId.value), callId.value, name, result, log.cwd));
      }
    case FromOther =>
  }

  lemma StartKeeps(log: Log, e: ToolEvent)
    requires Coherent(log)
    ensures Coherent(AfterStart(log, e)) && Coherent(Started(log, e))
  {
    if e.callId.Some? {
      PutKeeps(log, StartedTool(FindTool(log.blocks, e.callId.value), e.callId.value, e, log.cwd));
    }
  }

  lemma UpdateKeeps(log: Log, e: ToolEvent)
    requires Coherent(log)
    ensures Coherent(AfterUpdate(log, e)) && Coherent(AfterEnd(log, e))
  {
    StartKeeps(log, e);
    if e.callId.Some? {
      hide Coherent;
      var started := Started(log, e);
      FoundIsNamed(started, e.callId.value);
      var found := FindTool(started.blocks, e.callId.value);
      if found.Some? {
        PutKeeps(started, UpdatedTool(found.value, e));
        PutKeeps(started, EndedTool(found.value, e));
      }
    }
  }

  lemma {:induction false} MessagesKeep(log: Log, messages: seq<Message>)
    requires Coherent(log)
    ensures Coherent(AfterMessages(log, messages))
    decreases |messages|
  {
    if messages != [] {
      MessageKeeps(log, messages[0], true);
      MessagesKeep(AfterMessage(log, messages[0], true), messages[1..]);
    }
  }

  lemma IngestKeeps(log: Log, event: Event)
    requires Coherent(log)
    ensures Coherent(Ingested(log, event))
  {
    hide AfterMessage, AfterStart, AfterUpdate, AfterEnd, AfterMessages;
    match event
    case MessageEvent(message, complete) => MessageKeeps(log, message, complete);
    case ToolStart(tool) => StartKeeps(log, tool);
    case ToolUpdate(tool) => UpdateKeeps(log, tool);
    case ToolEnd(tool) => UpdateKeeps(log, tool);
    case AgentEnd(messages) => MessagesKeep(Emptied(log), messages);
    case OtherEvent =>
  }

  lemma TrimKeeps(budget: Budget, log: Log)
    requires Coherent(log)
    ensures Coherent(AfterTrim(budget, log))
  {
    var n := Excess(budget, log.blocks);
    assert forall b :: b in log.blocks[n..] ==> b in log.blocks;
  }

  /** Every event keeps the transcript coherent. */
  lemma EventKeeps(budget: Budget, log: Log, d: Delivery)
    requires Coherent(log)
    ensures Coherent(AfterEvent(budget, log, d))
  {
    assert Coherent(log.(cwd := d.cwd));
    hide Coherent, Ingested, AfterTrim;
    IngestKeeps(log.(cwd := d.cwd), d.event);
    TrimKeeps(budget, Ingested(log.(cwd := d.cwd), d.event));
  }

  // ---- the life of a tool call ----

  lemma {:induction false} UpsertFinds(blocks: seq<Block>, b: Block)
    requires b.Tool? && forall c :: c in blocks && c.Tool? ==> (c.callId == b.callId <==> c.id == b.id)
    requires forall c :: c in blocks && c.id == b.id ==> c.Tool?
    ensures FindTool(Upsert(blocks, b), b.callId) == Some(b)
    ensures forall call :: call != b.callId ==> FindTool(Upsert(blocks, b), call) == FindTool(blocks, call)
  {
    if blocks != [] {
      assert blocks[0] in blocks;
      UpsertFinds(blocks[1..], b);
    }
  }

  lemma PutFinds(log: Log, b: Block)
    requires Coherent(log) && b.Tool? && b.id == ToolId(b.callId)
    ensures FindTool(Put(log, b).blocks, b.callId) == Some(b)
    ensures forall call :: call != b.callId ==> FindTool(Put(log, b).blocks, call) == FindTool(log.blocks, call)
  {
    forall c | c in log.blocks
      ensures c.Tool? ==> (c.callId == b.callId <==> c.id == b.id)
      ensures c.id == b.id ==> c.Tool?
    {
      assert Named(c, log.next);
      if c.Tool? {
        ToolIdIsCall(c.callId, b.callId);
      } else {
        ToolIdIsCall(b.callId, b.callId);
      }
    }
    UpsertFinds(log.blocks, b);
  }

  /**
   The end of a call leaves its one block started, complete and final, with the event's result
   or the last one before it, and touches no other call.
   */
  lemma EndSettlesTheCall(log: Log, e: ToolEvent)
    requires Coherent(log) && e.callId.Some?
    ensures var before, found := FindTool(log.blocks, e.callId.value),
                        FindTool(AfterEnd(log, e).blocks, e.callId.value);
            && found.Some? && found.value.started && found.value.argsComplete && !found.value.partial
            && found.value.result ==
                 (if e.result.Some? then e.result else if before.Some? then before.value.result else None)
    ensures forall call :: call != e.callId.value ==>
              FindTool(AfterEnd(log, e).blocks, call) == FindTool(log.blocks, call)
  {
    var call := e.callId.value;
    var started := Started(log, e);
    StartKeeps(log, e);
    if FindTool(log.blocks, call).None? {
      PutFinds(log, StartedTool(None, call, e, log.cwd));
    }
    var current := FindTool(started.blocks, call).value;
    FoundIsNamed(started, call);
    PutFinds(started, EndedTool(current, e));
  }

  /** A message that repeats a call refreshes its arguments and never its progress. */
  lemma CallKeepsProgress(log: Log, call: Call)
    requires Coherent(log) && call.id.Some? && FindTool(log.blocks, call.id.value).Some?
    ensures var before := FindTool(log.blocks, call.id.value).value;
            var found := FindTool(AfterCalls(log, [call]).blocks, call.id.value);
            && found.Some? && found.value.started == before.started && found.value.partial == before.partial
            && found.value.result == before.result && (call.args.Some? ==> found.value.args == call.args.value)
  {
    CallStep(log, [call]);
    var before := FindTool(log.blocks, call.id.value);
    PutFinds(log, CalledTool(before, call.id.value, call, log.cwd));
  }

  // ---- what each event writes ----

  /** The block takes the place of the one with its id, or comes last; all others stay where they are. */
  ghost predicate InPlace(before: seq<Block>, after: seq<Block>, b: Block) {
    if b.id in BlockIds(before) then
      |after| == |before| && forall i :: 0 <= i < |before| ==> after[i] == if before[i].id == b.id then b else before[i]
    else after == before + [b]
  }

  lemma {:induction false} UpsertInPlace(blocks: seq<Block>, b: Block)
    requires DistinctBlocks(blocks)
    ensures InPlace(blocks, Upsert(blocks, b), b)
  {
    if blocks != [] {
      var rest := blocks[1..];
      assert blocks == [blocks[0]] + rest;
      DistinctSplits(blocks[0], rest);
      assert BlockIds(blocks) == {blocks[0].id} + BlockIds(rest);
      if blocks[0].id == b.id {
        assert forall i :: 0 < i < |blocks| ==> blocks[i] in rest;
      } else {
        UpsertInPlace(rest, b);
      }
    }
  }

  /** Nothing but blocks has changed, and of those one has been written. */
  ghost predicate Writes(log: Log, t: Log, b: Block) {
    InPlace(log.blocks, t.blocks, b) && t == log.(blocks := t.blocks, total := t.total)
  }

  lemma PutWrites(log: Log, b: Block)
    requires Coherent(log)
    ensures Writes(log, Put(log, b), b)
  {
    UpsertInPlace(log.blocks, b);
    hide InPlace;
  }

  lemma WritesTwice(log: Log, t: Log, u: Log, a: Block, b: Block)
    requires Writes(log, t, a) && Writes(t, u, b) && a.id == b.id
    ensures Writes(log, u, b)
  {
    if a.id in BlockIds(log.blocks) {
      var c :| c in log.blocks && c.id == a.id;
      var i :| 0 <= i < |log.blocks| && log.blocks[i] == c;
      assert t.blocks[i] == a && a in t.blocks;
    } else {
      assert t.blocks[|log.blocks|] == a && a in t.blocks;
      assert forall i :: 0 <= i < |log.blocks| ==>
               t.blocks[i] == log.blocks[i] && log.blocks[i].id in BlockIds(log.blocks);
    }
  }

  function NameOf(tool: Option<Block>, otherwise: string): string
    requires tool.Some? ==> tool.value.Tool?
  {
    if tool.Some? then tool.value.name else otherwise
  }

  /** The start of a call: its name and arguments as the event gives them, or as they were; its progress as it was. */
  lemma StartSays(log: Log, e: ToolEvent)
    requires Coherent(log) && e.callId.Some?
    ensures var was, id := FindTool(log.blocks, e.callId.value), e.callId.value;
            Writes(log, Ingested(log, ToolStart(e)),
              Tool("tool:" + id, id,
                   if e.name.Some? then e.name.value else NameOf(was, "tool"),
                   if e.args.Some? then e.args.value else if was.Some? then was.value.args else NO_ARGS,
                   log.cwd, true, e.argsComplete,
                   if was.Some? then was.value.result else None,
                   if was.Some? then was.value.partial else true))
  {
    PutWrites(log, StartedTool(FindTool(log.blocks, e.callId.value), e.callId.value, e, log.cwd));
    hide Writes, Coherent, Put;
  }

  /** The call's block as the start of an unknown call would make it, or as it is. */
  function Known(log: Log, e: ToolEvent): (tool: Block)
    requires e.callId.Some?
    ensures tool.Tool?
  {
    var was := FindTool(log.blocks, e.callId.value);
    if was.Some? then was.value
    else Tool("tool:" + e.callId.value, e.callId.value, if e.name.Some? then e.name.value else "tool",
              if e.args.Some? then e.args.value else NO_ARGS, log.cwd, true, e.argsComplete, None, true)
  }

  lemma StartedIsKnown(log: Log, e: ToolEvent)
    requires Coherent(log) && e.callId.Some?
    ensures Coherent(Started(log, e))
    ensures FindTool(Started(log, e).blocks, e.callId.value) == Some(Known(log, e))
    ensures Known(log, e).id == ToolId(e.callId.value)
    ensures Started(log, e) == log || Writes(log, Started(log, e), Known(log, e))
  {
    var call := e.callId.value;
    StartKeeps(log, e);
    FoundIsNamed(log, call);
    if FindTool(log.blocks, call).None? {
      PutFinds(log, StartedTool(None, call, e, log.cwd));
      PutWrites(log, StartedTool(None, call, e, log.cwd));
    }
    hide Coherent, Writes, Put;
  }

  /** Writing to the call, started first if it was unknown, is one write. */
  lemma WritesToKnown(log: Log, e: ToolEvent, b: Block)
    requires Coherent(log) && e.callId.Some? && b.id == ToolId(e.callId.value)
    ensures Writes(log, Put(Started(log, e), b), b)
  {
    StartedIsKnown(log, e);
    PutWrites(Started(log, e), b);
    if Started(log, e) != log {
      WritesTwice(log, Started(log, e), Put(Started(log, e), b), Known(log, e), b);
    }
    hide Writes, Coherent, Put, Started, Known;
  }

  /** An update: newer arguments and results replace older ones, and the call is running again. */
  lemma UpdateSays(log: Log, e: ToolEvent)
    requires Coherent(log) && e.callId.Some?
    ensures var tool := Known(log, e);
            Writes(log, Ingested(log, ToolUpdate(e)),
              tool.(args := if e.args.Some? then e.args.value else tool.args,
                    argsComplete := e.argsComplete || tool.argsComplete,
                    result := if e.result.Some? then e.result else tool.result,
                    partial := true))
  {
    StartedIsKnown(log, e);
    WritesToKnown(log, e, UpdatedTool(Known(log, e), e));
    hide Writes, Coherent, Put, Started, Known;
  }

  /** The end of a call: started, complete and final, with the event's result or the last one. */
  lemma EndSays(log: Log, e: ToolEvent)
    requires Coherent(log) && e.callId.Some?
    ensures var tool := Known(log, e);
            Writes(log, Ingested(log, ToolEnd(e)),
              tool.(started := true, argsComplete := true, partial := false,
                    result := if e.result.Some? then e.result else tool.result))
  {
    StartedIsKnown(log, e);
    WritesToKnown(log, e, EndedTool(Known(log, e), e));
    hide Writes, Coherent, Put, Started, Known;
  }

  /** A tool's result message: final, whether the call was known or not. */
  lemma ResultSays(log: Log, callId: string, name: Option<string>, result: Option<Value>, complete: bool)
    requires Coherent(log)
    ensures var was := FindTool(log.blocks, callId);
            var tool := if was.Some? then was.value
                        else Tool("tool:" + callId, callId, if name.Some? then name.value else "tool", NO_ARGS, log.cwd,
                                  true, true, None, false);
            Writes(log, Ingested(log, MessageEvent(FromTool(Some(callId), name, result), complete)),
              tool.(result := if result.Some? then result else tool.result, partial := false))
  {
    PutWrites(log, ResultTool(FindTool(log.blocks, callId), callId, name, result, log.cwd));
    hide Writes, Coherent, Put;
  }

  /**
   An assistant message: it continues the one that is being streamed or takes the next
   number, and it is being streamed from now on unless it is complete.
   */
  lemma MessageSays(log: Log, body: Value, complete: bool)
    requires Coherent(log)
    ensures var t := Ingested(log, MessageEvent(FromAssistant(body, []), complete));
            var id := if log.active.Some? then log.active.value else "assistant:" + Decimal(log.next + 1);
            && InPlace(log.blocks, t.blocks, Assistant(id, body, complete))
            && t.next == (if log.active.Some? then log.next else log.next + 1)
            && t.active == (if complete then None else Some(id))
            && t.omitted == log.omitted && t.cwd == log.cwd
  {
    var numbered := if log.active.None? then log.(next := log.next + 1) else log;
    var id := Or(log.active, AssistantId(log.next + 1));
    UpsertInPlace(log.blocks, Assistant(id, body, complete));
    hide InPlace, Coherent;
  }

  /** The calls a message makes are written one after the other, each as a call of its own, with what is known of it. */
  lemma CallsSay(log: Log, body: Value, calls: seq<Call>, call: Call, complete: bool)
    requires Coherent(log)
    ensures var t := Ingested(log, MessageEvent(FromAssistant(body, calls), complete));
            var u := Ingested(log, MessageEvent(FromAssistant(body, calls + [call]), complete));
            if call.id.None? then u == t
            else
              var was, id := FindTool(t.blocks, call.id.value), call.id.value;
              Writes(t, u,
                Tool("tool:" + id, id, if call.name.Some? then call.name.value else "tool",
                     if call.args.Some? then call.args.value else NO_ARGS, log.cwd,
                     was.Some? && was.value.started, true,
                     if was.Some? then was.value.result else None,
                     if was.Some? then was.value.partial else true))
  {
    hide *;
    MessageKeeps(log, FromAssistant(body, calls), complete);
    var t := Ingested(log, MessageEvent(FromAssistant(body, calls), complete));
    MessageIngested(log, FromAssistant(body, calls), complete);
    OneCallMore(log, body, calls, call, complete);
    if call.id.Some? {
      CalledSays(FindTool(t.blocks, call.id.value), call.id.value, call, t.cwd);
      PutWrites(t, CalledTool(FindTool(t.blocks, call.id.value), call.id.value, call, t.cwd));
    }
  }

  lemma MessageIngested(log: Log, message: Message, complete: bool)
    ensures Ingested(log, MessageEvent(message, complete)) == AfterMessage(log, message, complete)
  {
    hide AfterMessage;
  }

  lemma CalledSays(was: Option<Block>, id: string, call: Call, cwd: string)
    requires was.Some? ==> was.value.Tool?
    ensures CalledTool(was, id, call, cwd) ==
            Tool("tool:" + id, id, if call.name.Some? then call.name.value else "tool",
                 if call.args.Some? then call.args.value else NO_ARGS, cwd,
                 was.Some? && was.value.started, true,
                 if was.Some? then was.value.result else None,
                 if was.Some? then was.value.partial else true)
  {}

  lemma OneCallMore(log: Log, body: Value, calls: seq<Call>, call: Call, complete: bool)
    ensures var t := Ingested(log, MessageEvent(FromAssistant(body, calls), complete));
            var u := Ingested(log, MessageEvent(FromAssistant(body, calls + [call]), complete));
            && t.cwd == log.cwd
            && u == if call.id.None? then t
                    else Put(t, CalledTool(FindTool(t.blocks, call.id.value), call.id.value, call, t.cwd))
  {
    var numbered := if log.active.None? then log.(next := log.next + 1) else log;
    var stored := Put(numbered, Assistant(Or(log.active, AssistantId(log.next + 1)), body, complete));
    CallsAppend(stored, calls, call);
    CallsKeepRest(stored, calls);
    hide AfterCalls, CalledTool, FindTool, Upsert, BlockIds;
  }

  lemma {:induction false} CallsAppend(log: Log, calls: seq<Call>, call: Call)
    ensures var t := AfterCalls(log, calls);
            AfterCalls(log, calls + [call]) ==
              if call.id.None? then t
              else Put(t, CalledTool(FindTool(t.blocks, call.id.value), call.id.value, call, t.cwd))
    decreases |calls|
  {
    hide Put, CalledTool, FindTool;
    if calls == [] {
      assert [call][1..] == [] && [] + [call] == [call];
    } else {
      assert (calls + [call])[1..] == calls[1..] + [call];
      CallsAppend(AfterCalls(log, [calls[0]]), calls[1..], call);
      CallStep(log, calls);
      CallStep(log, calls + [call]);
    }
  }

  lemma {:induction false} CallsKeepRest(log: Log, calls: seq<Call>)
    ensures var t := AfterCalls(log, calls); t == log.(blocks := t.blocks, total := t.total)
    decreases |calls|
  {
    hide CalledTool, FindTool;
    if calls != [] {
      CallStep(log, calls);
      CallsKeepRest(AfterCalls(log, [calls[0]]), calls[1..]);
    }
  }

  /** Messages without a call id, from others, and events that are none of these, write nothing. */
  lemma OthersWriteNothing(log: Log, e: ToolEvent, name: Option<string>, result: Option<Value>, complete: bool)
    ensures e.callId.None? ==>
              Ingested(log, ToolStart(e)) == Ingested(log, ToolUpdate(e)) == Ingested(log, ToolEnd(e)) == log
    ensures Ingested(log, MessageEvent(FromTool(None, name, result), complete)) == log
    ensures Ingested(log, MessageEvent(FromOther, complete)) == Ingested(log, OtherEvent) == log
  {}

  /** At the end of the agent its messages replace everything, each a complete one, in turn. */
  lemma ReplacementSays(log: Log, messages: seq<Message>, message: Message)
    ensures Ingested(log, AgentEnd([])) == Log([], None, 0, 0, log.cwd, 0)
    ensures Ingested(log, AgentEnd(messages + [message]))
         == Ingested(Ingested(log, AgentEnd(messages)), MessageEvent(message, true))
  {
    MessagesAppend(Emptied(log), messages, message);
  }

  lemma {:induction false} MessagesAppend(log: Log, messages: seq<Message>, message: Message)
    ensures AfterMessages(log, messages + [message]) == AfterMessage(AfterMessages(log, messages), message, true)
    decreases |messages|
  {
    hide AfterMessage;
    if messages == [] {
      assert [message][1..] == [] && [] + [message] == [message];
    } else {
      assert (messages + [message])[1..] == messages[1..] + [message];
      MessagesAppend(AfterMessage(log, messages[0], true), messages[1..], message);
    }
  }

  /**
   What an event leaves after trimming: the newest blocks, as many as fit, and none if not even
   one does; whatever goes is counted. Nothing else is touched.
   */
  lemma EventTrims(budget: Budget, log: Log, d: Delivery) returns (gone: nat)
    ensures var written, t := Ingested(log.(cwd := d.cwd), d.event), AfterEvent(budget, log, d);
            && gone <= |written.blocks| && t.blocks == written.blocks[gone..] && t.omitted == written.omitted + gone
            && t == written.(blocks := t.blocks, omitted := t.omitted)
            && (t.blocks == []
                || (|t.blocks| <= 120 && budget.bytes(t.blocks) <= 512_000 && budget.nodes(t.blocks) <= 5_000))
            && forall m :: 0 <= m < gone ==>
                 var more := written.blocks[m..];
                 |more| > 120 || budget.bytes(more) > 512_000 || budget.nodes(more) > 5_000
  {
    var written := Ingested(log.(cwd := d.cwd), d.event);
    gone := Excess(budget, written.blocks);
    KeepsLongestSuffix(budget, written.blocks);
    hide Ingested, Excess;
  }

  /** What trimming keeps fits, or is empty, and every longer suffix does not fit. */
  lemma {:induction false} KeepsLongestSuffix(budget: Budget, blocks: seq<Block>)
    ensures var n := Excess(budget, blocks);
            && (blocks[n..] == [] || Fits(budget, blocks[n..]))
            && forall m :: 0 <= m < n ==> !Fits(budget, blocks[m..])
  {
    assert blocks[0..] == blocks;
    if blocks != [] && !Fits(budget, blocks) {
      var rest := blocks[1..];
      KeepsLongestSuffix(budget, rest);
      var n := Excess(budget, blocks);
      assert forall m :: 1 <= m <= |blocks| ==> blocks[m..] == rest[m - 1..];
    }
  }

  ghost function AfterEvents(budget: Budget, log: Log, events: seq<Delivery>): Log {
    if events == [] then log
    else AfterEvent(budget, AfterEvents(budget, log, events[..|events| - 1]), events[|events| - 1])
  }

  /** Over any history: coherent, and within all three bounds unless even one block is too much. */
  lemma {:induction false} HistoryIsCoherent(budget: Budget, cwd: string, events: seq<Delivery>)
    ensures var log := AfterEvents(budget, Log([], None, 0, 0, cwd, 0), events);
            && Coherent(log)
            && (log.blocks == [] || Fits(budget, log.blocks))
  {
    if events != [] {
      var before := AfterEvents(budget, Log([], None, 0, 0, cwd, 0), events[..|events| - 1]);
      HistoryIsCoherent(budget, cwd, events[..|events| - 1]);
      EventKeeps(budget, before, events[|events| - 1]);
      TrimmedFits(budget, before, events[|events| - 1]);
    }
  }

  lemma TrimmedFits(budget: Budget, log: Log, d: Delivery)
    ensures var after := AfterEvent(budget, log, d); after.blocks == [] || Fits(budget, after.blocks)
  {
    KeepsLongestSuffix(budget, Ingested(log.(cwd := d.cwd), d.event).blocks);
  }

  // ---- the transcript with its index ----

  /** The index maps each call id to the position of its one block, and nothing else. */
  ghost predicate Indexed(indexes: map<string, nat>, blocks: seq<Block>) {
    && (forall c :: c in indexes ==>
          indexes[c] < |blocks| && blocks[indexes[c]].Tool? && blocks[indexes[c]].callId == c)
    && (forall i :: 0 <= i < |blocks| && blocks[i].Tool? ==>
          blocks[i].callId in indexes && indexes[blocks[i].callId] == i)
  }

  lemma ToolIdIsCall(a: string, b: string)
    ensures ToolId(a) == ToolId(b) ==> a == b
    ensures forall k: nat :: ToolId(a) != AssistantId(k)
  {
    assert ToolId(a)[5..] == a && ToolId(b)[5..] == b;
    forall k: nat
      ensures ToolId(a) != AssistantId(k)
    {
      assert ToolId(a)[0] == 't' && AssistantId(k)[0] == 'a';
    }
  }

  lemma IndexFinds(log: Log, indexes: map<string, nat>, callId: string)
    requires Coherent(log) && Indexed(indexes, log.blocks)
    ensures FindTool(log.blocks, callId) == if callId in indexes then Some(log.blocks[indexes[callId]]) else None
    ensures ToolId(callId) in BlockIds(log.blocks) <==> callId in indexes
  {
    var found := FindTool(log.blocks, callId);
    if found.Some? {
      var i :| 0 <= i < |log.blocks| && log.blocks[i] == found.value;
    }
    forall b | b in log.blocks && b.id == ToolId(callId)
      ensures b.Tool? && b.callId == callId
    {
      assert Named(b, log.next);
      if b.Assistant? {
        var k :| 0 < k <= log.next && b.id == AssistantId(k);
        ToolIdIsCall(callId, callId);
      } else {
        ToolIdIsCall(b.callId, callId);
      }
    }
    if callId in indexes {
      var b := log.blocks[indexes[callId]];
      assert b in log.blocks && Named(b, log.next);
    }
  }

  lemma {:induction false} UpsertAt(blocks: seq<Block>, i: nat, b: Block)
    requires DistinctBlocks(blocks) && i < |blocks| && blocks[i].id == b.id
    ensures Upsert(blocks, b) == blocks[i := b] && b.id in BlockIds(blocks)
  {
    assert blocks[i] in blocks;
    if i > 0 {
      UpsertAt(blocks[1..], i - 1, b);
      assert blocks[i := b] == [blocks[0]] + blocks[1..][i - 1 := b];
    }
  }

  /** Storing a tool's block by its index stores it by its id, and the index stays exact. */
  lemma SetKeepsIndex(log: Log, indexes: map<string, nat>, b: Block)
    requires Coherent(log) && Indexed(indexes, log.blocks) && b.Tool? && b.id == ToolId(b.callId)
    ensures b.callId in indexes ==>
              && indexes[b.callId] < |log.blocks| && b.id in BlockIds(log.blocks)
              && Upsert(log.blocks, b) == log.blocks[indexes[b.callId] := b]
              && Indexed(indexes, Upsert(log.blocks, b))
    ensures b.callId !in indexes ==>
              && b.id !in BlockIds(log.blocks) && Upsert(log.blocks, b) == log.blocks + [b]
              && Indexed(indexes[b.callId := |log.blocks|], Upsert(log.blocks, b))
  {
    IndexFinds(log, indexes, b.callId);
    if b.callId in indexes {
      var i := indexes[b.callId];
      assert log.blocks[i] in log.blocks && Named(log.blocks[i], log.next);
      UpsertAt(log.blocks, i, b);
      IndexedSet(indexes, log.blocks, i, b);
    } else {
      UpsertIs(log.blocks, b);
      IndexedAdd(indexes, log.blocks, b);
    }
    hide Indexed, Coherent, Upsert, BlockIds, FindTool;
  }

  lemma IndexedSet(indexes: map<string, nat>, blocks: seq<Block>, i: nat, b: Block)
    requires Indexed(indexes, blocks) && i < |blocks| && b.Tool?
    requires b.callId in indexes && indexes[b.callId] == i
    ensures Indexed(indexes, blocks[i := b])
  {}

  lemma IndexedAdd(indexes: map<string, nat>, blocks: seq<Block>, b: Block)
    requires Indexed(indexes, blocks) && b.Tool? && b.callId !in indexes
    ensures Indexed(indexes[b.callId := |blocks|], blocks + [b])
  {}

  class AgentLiveTranscript {
    const budget: Budget
    var blocks: seq<Block>
    var toolIndexes: map<string, nat>
    var activeAssistantId: Option<string>
    var nextAssistantId: nat
    var omittedBlockCount: nat
    var cwd: string
    ghost var appended: nat

    ghost function State(): Log
      reads this
    {
      Log(blocks, activeAssistantId, nextAssistantId, omittedBlockCount, cwd, appended)
    }

    ghost predicate Valid()
      reads this
    {
      Coherent(State()) && Indexed(toolIndexes, blocks)
    }

    constructor (budget: Budget, cwd: string)
      ensures Valid() && State() == Log([], None, 0, 0, cwd, 0) && this.budget == budget
    {
      this.budget, this.cwd := budget, cwd;
      blocks, toolIndexes, activeAssistantId := [], map[], None;
      nextAssistantId, omittedBlockCount, appended := 0, 0, 0;
    }

    method FindIndexed(callId: string) returns (tool: Option<Block>)
      requires Valid()
      ensures tool == FindTool(blocks, callId)
    {
      IndexFinds(State(), toolIndexes, callId);
      if callId in toolIndexes {
        return Some(blocks[toolIndexes[callId]]);
      }
      return None;
    }

    method SetTool(b: Block)
      requires Valid() && b.Tool? && b.id == ToolId(b.callId)
      modifies this
      ensures Valid() && State() == Put(old(State()), b)
    {
      IndexFinds(State(), toolIndexes, b.callId);
      PutKeeps(State(), b);
      SetKeepsIndex(State(), toolIndexes, b);
      hide Coherent, Indexed;
      if b.callId in toolIndexes {
        blocks := blocks[toolIndexes[b.callId] := b];
      } else {
        toolIndexes := toolIndexes[b.callId := |blocks|];
        blocks := blocks + [b];
        appended := appended + 1;
      }
    }

    method PutAssistant(b: Block)
      requires Valid() && b.Assistant? && Named(b, nextAssistantId)
      modifies this
      ensures Valid() && State() == Put(old(State()), b)
    {
      PutKeeps(State(), b);
      var i := 0;
      while i < |blocks| && blocks[i].id != b.id
        invariant i <= |blocks| && forall j :: 0 <= j < i ==> blocks[j].id != b.id
      {
        i := i + 1;
      }
      if i < |blocks| {
        UpsertAt(blocks, i, b);
        assert blocks[i].Assistant? by { AssistantStays(State(), i, b); }
        blocks := blocks[i := b];
      } else {
        UpsertIs(blocks, b);
        blocks := blocks + [b];
        appended := appended + 1;
      }
    }

    method UpsertToolFromCall(call: Call)
      requires Valid()
      modifies this
      ensures Valid() && State() == AfterCalls(old(State()), [call])
    {
      CallStep(State(), [call]);
      if call.id.Some? {
        var current := FindIndexed(call.id.value);
        SetTool(CalledTool(current, call.id.value, call, cwd));
      }
    }

    method IngestMessage(message: Message, complete: bool)
      requires Valid()
      modifies this
      ensures Valid() && State() == AfterMessage(old(State()), message, complete)
    {
      hide Put;
      match message
      case FromOther =>
      case FromTool(callId, name, result) =>
        if callId.Some? {
          FoundIsNamed(State(), callId.value);
          var current := FindIndexed(callId.value);
          SetTool(ResultTool(current, callId.value, name, result, cwd));
        }
      case FromAssistant(body, calls) =>
        ghost var before := State();
        MessageKeeps(before, message, complete);
        var id := TakeAssistantId();
        PutAssistant(Assistant(id, body, complete));
        ghost var put := State();
        var i := 0;
        while i < |calls|
          invariant i <= |calls| && Valid()
          invariant AfterCalls(State(), calls[i..]) == AfterCalls(put, calls)
        {
          assert calls[i..][0] == calls[i] && calls[i..][1..] == calls[i + 1..];
          CallStep(State(), calls[i..]);
          UpsertToolFromCall(calls[i]);
          i := i + 1;
        }
        activeAssistantId := if complete then None else Some(id);
    }

    /** The open message's id, or a new one. */
    method TakeAssistantId() returns (id: string)
      requires Valid()
      modifies this`nextAssistantId
      ensures id == Or(activeAssistantId, AssistantId(old(nextAssistantId) + 1))
      ensures nextAssistantId == if activeAssistantId.None? then old(nextAssistantId) + 1 else old(nextAssistantId)
      ensures Valid() && exists k :: 0 < k <= nextAssistantId && id == AssistantId(k)
    {
      ghost var next := nextAssistantId;
      forall b | b in blocks
        ensures Named(b, next + 1)
      {
        NamedLonger(b, next, next + 1);
      }
      if activeAssistantId.None? {
        nextAssistantId := nextAssistantId + 1;
        id := AssistantId(nextAssistantId);
      } else {
        id := activeAssistantId.value;
      }
    }

    method StartTool(e: ToolEvent)
      requires Valid()
      modifies this
      ensures Valid() && State() == AfterStart(old(State()), e)
    {
      if e.callId.Some? {
        var current := FindIndexed(e.callId.value);
        SetTool(StartedTool(current, e.callId.value, e, cwd));
      }
    }

    method UpdateTool(e: ToolEvent)
      requires Valid()
      modifies this
      ensures Valid() && State() == AfterUpdate(old(State()), e)
    {
      if e.callId.None? {
        return;
      }
      hide Put, AfterStart;
      var known := FindIndexed(e.callId.value);
      if known.None? {
        StartTool(e);
      }
      var current := FindIndexed(e.callId.value);
      FoundIsNamed(State(), e.callId.value);
      if current.Some? {
        SetTool(UpdatedTool(current.value, e));
      }
    }

    method EndTool(e: ToolEvent)
      requires Valid()
      modifies this
      ensures Valid() && State() == AfterEnd(old(State()), e)
    {
      if e.callId.None? {
        return;
      }
      hide Put, AfterStart;
      var known := FindIndexed(e.callId.value);
      if known.None? {
        StartTool(e);
      }
      var current := FindIndexed(e.callId.value);
      FoundIsNamed(State(), e.callId.value);
      if current.Some? {
        SetTool(EndedTool(current.value, e));
      }
    }

    /** Shifts blocks off the front until the rest fits, then rebuilds the index. */
    method Trim()
      requires Valid()
      modifies this
      ensures Valid() && State() == AfterTrim(budget, old(State()))
    {
      ghost var before := State();
      TrimKeeps(budget, before);
      hide Coherent, Indexed, Fits;
      var removed := 0;
      while |blocks| > 0 && !Fits(budget, blocks)
        invariant removed <= |before.blocks| && blocks == before.blocks[removed..]
        invariant removed + Excess(budget, blocks) == Excess(budget, before.blocks)
        invariant State() == before.(blocks := blocks) && toolIndexes == old(toolIndexes)
      {
        blocks := blocks[1..];
        removed := removed + 1;
      }
      if removed == 0 {
        return;
      }
      omittedBlockCount := omittedBlockCount + removed;
      ReindexTools();
    }

    method ReindexTools()
      requires Coherent(State())
      modifies this`toolIndexes
      ensures Valid()
    {
      toolIndexes := map[];
      var i := 0;
      while i < |blocks|
        invariant i <= |blocks| && Indexed(toolIndexes, blocks[..i])
      {
        hide Coherent, Indexed;
        assert blocks[..i + 1] == blocks[..i] + [blocks[i]];
        if blocks[i].Tool? {
          NewTool(State(), toolIndexes, i);
          IndexedAdd(toolIndexes, blocks[..i], blocks[i]);
          toolIndexes := toolIndexes[blocks[i].callId := i];
        } else {
          IndexedSkip(toolIndexes, blocks[..i], blocks[i]);
        }
        i := i + 1;
      }
      assert blocks[..i] == blocks;
    }

    method ReplaceMessages(messages: seq<Message>)
      requires Valid()
      modifies this
      ensures Valid() && State() == AfterTrim(budget, AfterMessages(Emptied(old(State())), messages))
    {
      blocks, toolIndexes, activeAssistantId := [], map[], None;
      nextAssistantId, omittedBlockCount, appended := 0, 0, 0;
      var i := 0;
      while i < |messages|
        invariant i <= |messages| && Valid()
        invariant AfterMessages(State(), messages[i..]) == AfterMessages(Emptied(old(State())), messages)
      {
        assert messages[i..][0] == messages[i] && messages[i..][1..] == messages[i + 1..];
        IngestMessage(messages[i], true);
        i := i + 1;
      }
      Trim();
    }

    method Ingest(event: Event, from: string)
      requires Valid()
      modifies this
      ensures Valid() && State() == AfterEvent(budget, old(State()), Delivery(event, from))
    {
      cwd := from;
      assert Valid() && State() == old(State()).(cwd := from);
      hide AfterMessage, AfterStart, AfterUpdate, AfterEnd, AfterMessages, AfterTrim;
      match event
      case AgentEnd(messages) => ReplaceMessages(messages);
      case MessageEvent(message, complete) => IngestMessage(message, complete); Trim();
      case ToolStart(tool) => StartTool(tool); Trim();
      case ToolUpdate(tool) => UpdateTool(tool); Trim();
      case ToolEnd(tool) => EndTool(tool); Trim();
      case OtherEvent => Trim();
    }
  }

  lemma AssistantStays(log: Log, i: nat, b: Block)
    requires Coherent(log) && i < |log.blocks| && b.Assistant? && Named(b, log.next) && log.blocks[i].id == b.id
    ensures log.blocks[i].Assistant?
  {
    var k :| 0 < k <= log.next && b.id == AssistantId(k);
    assert log.blocks[i] in log.blocks && Named(log.blocks[i], log.next);
    if log.blocks[i].Tool? {
      ToolIdIsCall(log.blocks[i].callId, log.blocks[i].callId);
    }
  }

  lemma CallStep(log: Log, calls: seq<Call>)
    requires calls != []
    ensures AfterCalls(log, calls) == AfterCalls(AfterCalls(log, [calls[0]]), calls[1..])
    ensures AfterCalls(log, [calls[0]]) ==
              if calls[0].id.None? then log
              else Put(log, CalledTool(FindTool(log.blocks, calls[0].id.value), calls[0].id.value, calls[0], log.cwd))
  {
    assert [calls[0]][1..] == [];
  }

  /** The tool blocks before `i` are for other calls. */
  lemma NewTool(log: Log, indexes: map<string, nat>, i: nat)
    requires Coherent(log) && i < |log.blocks| && log.blocks[i].Tool? && Indexed(indexes, log.blocks[..i])
    ensures log.blocks[i].callId !in indexes
  {
    forall j | 0 <= j <= i && log.blocks[j].Tool?
      ensures log.blocks[j].id == ToolId(log.blocks[j].callId)
    {
      assert log.blocks[j] in log.blocks && Named(log.blocks[j], log.next);
    }
  }

  lemma IndexedSkip(indexes: map<string, nat>, blocks: seq<Block>, b: Block)
    requires Indexed(indexes, blocks) && !b.Tool?
    ensures Indexed(indexes, blocks + [b])
  {}
}
