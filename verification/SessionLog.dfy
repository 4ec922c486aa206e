/**
 The session store and its append-only log (session-core.ts). Writes may fail, callers may
 pass values of the wrong type, and what JSON makes of a value is an arbitrary function:
 nothing is taken for granted of its round trip. A line of the file is what decoding it
 gives. Payloads that the model does not name are opaque, with given rules to accept them.
 */
module SessionLog {
  import opened Wrappers

  /** What a caller passes where the declared type is an optional string. */
  datatype Field = Absent | Text(text: string) | NotText

  datatype Metadata = Record(contents: nat) | NotRecord

  /** The `data` of a custom entry: no such key, a value that JSON leaves out such as `undefined`, or another one. */
  datatype Data = NoKey | Undefined | Value(contents: nat)

  datatype Kind = SessionInit | ChildRun | Custom | OtherKind(name: string)

  datatype Payload =
    | Init(projectRoot: Field, workingDirectory: Field, parent: Field, metadata: Metadata)
    | Child(childId: string)
    | CustomData(name: string, data: Data)
    | Opaque(contents: nat)

  datatype Session = Session(
    id: string, createdAt: nat, projectRoot: Field, workingDirectory: Field, parent: Field, metadata: Metadata)

  datatype Entry = Entry(id: string, sessionId: string, kind: Kind, payload: Payload, createdAt: nat, sequence: nat)

  datatype Line = SessionLine(session: Session) | EntryLine(entry: Entry) | Blank | MalformedJson | Unsupported

  /** `accepts` validates the entries the model does not name; `json` is what a value becomes in the file and back. */
  datatype Rules = Rules(accepts: (Kind, Payload) -> bool, json: nat -> nat)

  datatype Input = Input(id: string, kind: Kind, payload: Payload, createdAt: nat)

  predicate OptionalString(field: Field) {
    field.Absent? || field.Text?
  }

  /** `validateSessionEntryInput`. */
  predicate Accepts(rules: Rules, kind: Kind, payload: Payload) {
    match (kind, payload)
    case (SessionInit, Init(root, directory, parent, _)) =>
      OptionalString(root) && OptionalString(directory) && OptionalString(parent)
    case (ChildRun, Child(id)) => id != ""
    case (Custom, CustomData(name, data)) => name != "" && data != NoKey
    case _ => rules.accepts(kind, payload)
  }

  // ---- through JSON ----

  function JsonMetadata(rules: Rules, metadata: Metadata): Metadata {
    if metadata.Record? then Record(rules.json(metadata.contents)) else metadata
  }

  /** A key whose value is `undefined` is not written. */
  function JsonData(rules: Rules, data: Data): Data {
    match data
    case NoKey => NoKey
    case Undefined => NoKey
    case Value(contents) => Value(rules.json(contents))
  }

  function JsonPayload(rules: Rules, payload: Payload): Payload {
    match payload
    case Init(_, _, _, metadata) => payload.(metadata := JsonMetadata(rules, metadata))
    case Child(_) => payload
    case CustomData(_, data) => payload.(data := JsonData(rules, data))
    case Opaque(contents) => Opaque(rules.json(contents))
  }

  function EntryRecord(rules: Rules, entry: Entry): Line {
    EntryLine(entry.(payload := JsonPayload(rules, entry.payload)))
  }

  function SessionRecord(rules: Rules, session: Session): Line {
    SessionLine(session.(metadata := JsonMetadata(rules, session.metadata)))
  }

  // ---- writing ----

  datatype Store = Store(sessions: map<string, Session>, entries: seq<Entry>, sequence: nat, file: seq<Line>)

  const EMPTY := Store(map[], [], 0, [])

  /**
   Which of an operation's writes succeed, if it comes to them. A process that dies between
   two writes is one whose later writes fail, with a reload next; a value that cannot be
   serialized fails its write too.
   */
  datatype Writes = Writes(entry: bool, session: bool, link: bool)

  datatype Op =
    | CreateSession(session: Session, entryId: string, writes: Writes)
    | CreateChild(parent: string, session: Session, entryId: string, childEntry: Input, writes: Writes)
    | AppendTo(sessionId: string, input: Input, written: bool)
    | Reload

  function NextEntry(s: Store, sessionId: string, input: Input): Entry {
    Entry(input.id, sessionId, input.kind, input.payload, input.createdAt, s.sequence + 1)
  }

  /** Memory first, then the file; a failed write throws and takes nothing back. */
  function Appended(rules: Rules, s: Store, sessionId: string, input: Input, written: bool): Store {
    var entry := NextEntry(s, sessionId, input);
    s.(entries := s.entries + [entry], sequence := s.sequence + 1,
       file := if written then s.file + [EntryRecord(rules, entry)] else s.file)
  }

  /** Refused for an unknown session or an unacceptable payload. */
  predicate Appends(rules: Rules, s: Store, sessionId: string, input: Input) {
    sessionId in s.sessions && Accepts(rules, input.kind, input.payload)
  }

  function AfterAppend(rules: Rules, s: Store, sessionId: string, input: Input, written: bool): Store {
    if Appends(rules, s, sessionId, input) then Appended(rules, s, sessionId, input, written) else s
  }

  function InitOf(session: Session): Payload {
    Init(session.projectRoot, session.workingDirectory, session.parent, session.metadata)
  }

  function FirstEntry(session: Session, entryId: string): Input {
    Input(entryId, SessionInit, InitOf(session), session.createdAt)
  }

  /** The creation returns: the session is new, its first entry accepted, and both are written. */
  predicate Creates(rules: Rules, s: Store, session: Session, w: Writes) {
    session.id !in s.sessions && Accepts(rules, SessionInit, InitOf(session)) && w.entry && w.session
  }

  function Stored(s: Store, session: Session): Store {
    s.(sessions := s.sessions[session.id := session])
  }

  function Logged(rules: Rules, s: Store, session: Session): Store {
    s.(file := s.file + [SessionRecord(rules, session)])
  }

  /** Stored, then its first entry logged, then the session itself; any failure leaves it stored. */
  function AfterCreate(rules: Rules, s: Store, session: Session, entryId: string, w: Writes): Store {
    if session.id in s.sessions then s
    else if !Accepts(rules, SessionInit, InitOf(session)) then Stored(s, session)
    else
      var begun := Appended(rules, Stored(s, session), session.id, FirstEntry(session, entryId), w.entry);
      if w.entry && w.session then Logged(rules, begun, session) else begun
  }

  function ChildOf(parent: string, session: Session): Session {
    session.(parent := Text(parent))
  }

  function LinkTo(session: Session, input: Input): Input {
    input.(kind := ChildRun, payload := Child(session.id))
  }

  function AfterChild(rules: Rules, s: Store, parent: string, session: Session, entryId: string, input: Input,
                      w: Writes): Store
  {
    if parent !in s.sessions then s
    else
      var child := ChildOf(parent, session);
      var created := AfterCreate(rules, s, child, entryId, w);
      if Creates(rules, s, child, w) then AfterAppend(rules, created, parent, LinkTo(session, input), w.link)
      else created
  }

  // ---- reading ----

  datatype Loaded = Loaded(sessions: map<string, Session>, entries: seq<Entry>, sequence: nat, diagnostics: seq<nat>)

  function Max(a: nat, b: nat): nat {
    if a < b then b else a
  }

  /** A line that loading skips. */
  predicate IsNoise(rules: Rules, line: Line) {
    match line
    case SessionLine(session) => session.metadata.NotRecord?
    case EntryLine(entry) => !Accepts(rules, entry.kind, entry.payload)
    case _ => true
  }

  /** Line `number` of the file, counted from 1. */
  function Hydrated(rules: Rules, l: Loaded, line: Line, number: nat): Loaded {
    if line == Blank then l
    else if IsNoise(rules, line) then l.(diagnostics := l.diagnostics + [number])
    else if line.SessionLine? then l.(sessions := l.sessions[line.session.id := line.session])
    else l.(entries := l.entries + [line.entry], sequence := Max(l.sequence, line.entry.sequence))
  }

  function Load(rules: Rules, file: seq<Line>): Loaded {
    if file == [] then Loaded(map[], [], 0, [])
    else Hydrated(rules, Load(rules, file[..|file| - 1]), file[|file| - 1], |file|)
  }

  /** Another process loads the file. */
  function AfterReload(rules: Rules, s: Store): Store {
    var l := Load(rules, s.file);
    Store(l.sessions, l.entries, l.sequence, s.file)
  }

  function After(rules: Rules, s: Store, op: Op): Store {
    match op
    case CreateSession(session, entryId, w) => AfterCreate(rules, s, session, entryId, w)
    case CreateChild(parent, session, entryId, input, w) => AfterChild(rules, s, parent, session, entryId, input, w)
    case AppendTo(sessionId, input, written) => AfterAppend(rules, s, sessionId, input, written)
    case Reload => AfterReload(rules, s)
  }

  function Run(rules: Rules, ops: seq<Op>): Store {
    if ops == [] then EMPTY else After(rules, Run(rules, ops[..|ops| - 1]), ops[|ops| - 1])
  }

  // ---- what replay gives back ----

  ghost predicate Increasing(entries: seq<Entry>, sequence: nat) {
    && (forall i, j :: 0 <= i < j < |entries| ==> entries[i].sequence < entries[j].sequence)
    && (forall i :: 0 <= i < |entries| ==> entries[i].sequence <= sequence)
    && sequence == if entries == [] then 0 else entries[|entries| - 1].sequence
  }

  /** The entry comes from a stored one: all of it but what JSON has made of its payload. */
  ghost predicate FromStore(entries: seq<Entry>, e: Entry) {
    exists i :: 0 <= i < |entries| && e == entries[i].(payload := e.payload)
  }

  /** The session is a stored one, but for what JSON has made of its metadata. */
  predicate FromSession(sessions: map<string, Session>, id: string, session: Session) {
    id in sessions && session == sessions[id].(metadata := session.metadata)
  }

  /** What is loaded comes from the store, in the store's order. */
  ghost predicate Covers(s: Store, l: Loaded) {
    && (forall id :: id in l.sessions ==> FromSession(s.sessions, id, l.sessions[id]))
    && (forall k :: 0 <= k < |l.entries| ==> FromStore(s.entries, l.entries[k]))
    && l.sequence <= s.sequence
    && Increasing(s.entries, s.sequence) && Increasing(l.entries, l.sequence)
    && (forall id :: id in s.sessions ==> s.sessions[id].id == id)
  }

  ghost predicate Replays(rules: Rules, s: Store) {
    Covers(s, Load(rules, s.file))
  }

  /** Loading gives everything back. */
  predicate Whole(rules: Rules, s: Store) {
    Load(rules, s.file).sessions == s.sessions && EntriesBack(rules, s)
  }

  predicate EntriesBack(rules: Rules, s: Store) {
    Load(rules, s.file).entries == s.entries
  }

  lemma LoadNext(rules: Rules, file: seq<Line>, line: Line)
    ensures Load(rules, file + [line]) == Hydrated(rules, Load(rules, file), line, |file| + 1)
  {
    assert (file + [line])[..|file|] == file;
  }

  lemma IncreasingNext(entries: seq<Entry>, sequence: nat, e: Entry)
    requires Increasing(entries, sequence) && sequence < e.sequence
    ensures Increasing(entries + [e], e.sequence)
  {}

  /** More stored entries cover what they covered before. */
  lemma StillFromStore(entries: seq<Entry>, e: Entry, found: Entry)
    ensures FromStore(entries, found) ==> FromStore(entries + [e], found)
    ensures found == e.(payload := found.payload) ==> FromStore(entries + [e], found)
  {
    if i :| 0 <= i < |entries| && found == entries[i].(payload := found.payload) {
      assert (entries + [e])[i] == entries[i];
    }
    assert (entries + [e])[|entries|] == e;
  }

  /** One entry more in memory, and at most the line of that entry more in the file. */
  lemma AppendCovers(s: Store, l: Loaded, e: Entry, d: Option<Entry>)
    requires Covers(s, l) && e.sequence == s.sequence + 1
    requires d.Some? ==> d.value == e.(payload := d.value.payload)
    ensures Covers(s.(entries := s.entries + [e], sequence := e.sequence),
                   if d.None? then l else l.(entries := l.entries + [d.value], sequence := e.sequence))
  {
    hide FromStore, FromSession;
    IncreasingNext(s.entries, s.sequence, e);
    if d.Some? {
      IncreasingNext(l.entries, l.sequence, d.value);
      StillFromStore(s.entries, e, d.value);
    }
    forall k | 0 <= k < |l.entries|
      ensures FromStore(s.entries + [e], l.entries[k])
    {
      StillFromStore(s.entries, e, l.entries[k]);
    }
    hide Increasing;
  }

  /** What loading makes of the line of an entry. */
  function Read(rules: Rules, e: Entry): Option<Entry> {
    var d := e.(payload := JsonPayload(rules, e.payload));
    if Accepts(rules, d.kind, d.payload) then Some(d) else None
  }

  lemma AppendLoads(rules: Rules, s: Store, sessionId: string, input: Input, written: bool)
    requires Replays(rules, s)
    ensures var e := NextEntry(s, sessionId, input);
            var d := if written then Read(rules, e) else None;
            var l, l' := Load(rules, s.file), Load(rules, Appended(rules, s, sessionId, input, written).file);
            && l'.sessions == l.sessions
            && l'.entries == l.entries + (if d.None? then [] else [d.value])
            && l'.sequence == if d.None? then l.sequence else e.sequence
  {
    hide Accepts, JsonPayload;
    if written {
      LoadNext(rules, s.file, EntryRecord(rules, NextEntry(s, sessionId, input)));
    }
    hide Load;
  }

  /** What covers also covers with other diagnostics. */
  lemma SameCovers(s: Store, t: Store, l: Loaded, m: Loaded)
    requires Covers(s, l) && t == s.(file := t.file) && m == l.(diagnostics := m.diagnostics)
    ensures Covers(t, m)
  {
    hide FromStore, FromSession, Increasing;
  }

  lemma AppendReplays(rules: Rules, s: Store, sessionId: string, input: Input, written: bool)
    requires Replays(rules, s)
    ensures Replays(rules, Appended(rules, s, sessionId, input, written))
  {
    var t := Appended(rules, s, sessionId, input, written);
    var e := NextEntry(s, sessionId, input);
    var d := if written then Read(rules, e) else None;
    var l := Load(rules, s.file);
    AppendLoads(rules, s, sessionId, input, written);
    AppendCovers(s, l, e, d);
    hide Load, Covers;
    SameCovers(s.(entries := s.entries + [e], sequence := e.sequence), t,
               if d.None? then l else l.(entries := l.entries + [d.value], sequence := e.sequence),
               Load(rules, t.file));
  }

  /** What a caller can see of a payload: JSON gives it back. */
  predicate Stable(rules: Rules, payload: Payload) {
    JsonPayload(rules, payload) == payload
  }

  lemma AppendBringsBack(rules: Rules, s: Store, sessionId: string, input: Input, written: bool)
    requires Replays(rules, s) && Accepts(rules, input.kind, input.payload)
    ensures EntriesBack(rules, Appended(rules, s, sessionId, input, written))
            <==> EntriesBack(rules, s) && written && Stable(rules, input.payload)
  {
    var e := NextEntry(s, sessionId, input);
    var d := if written then Read(rules, e) else None;
    var l := Load(rules, s.file);
    AppendLoads(rules, s, sessionId, input, written);
    assert d == Some(e) <==> written && Stable(rules, input.payload);
    assert l.entries != s.entries + [e] by {
      NotYetLoaded(rules, s, e);
    }
    hide Load, Replays, Accepts, JsonPayload, Read, Stable;
    if d.Some? {
      SameLast(l.entries, s.entries, d.value, e);
    }
  }

  lemma NotYetLoaded(rules: Rules, s: Store, e: Entry)
    requires Replays(rules, s) && e.sequence > s.sequence
    ensures Load(rules, s.file).entries != s.entries + [e]
  {
    hide Load;
    assert (s.entries + [e])[|s.entries|] == e;
  }

  lemma SameLast<T>(a: seq<T>, b: seq<T>, x: T, y: T)
    ensures a + [x] == b + [y] <==> a == b && x == y
  {
    if a + [x] == b + [y] {
      assert |a| == |b| && (a + [x])[..|a|] == a && (b + [y])[..|b|] == b;
      assert (a + [x])[|a|] == x && (b + [y])[|b|] == y;
    }
  }

  lemma StoreReplays(rules: Rules, s: Store, session: Session)
    requires Replays(rules, s) && session.id !in s.sessions
    ensures Replays(rules, Stored(s, session)) && !Whole(rules, Stored(s, session))
  {
    hide Load, Increasing, FromStore;
    assert session.id !in Load(rules, s.file).sessions;
  }

  /** The session's own line, once it is stored and its first entry logged. */
  lemma LogReplays(rules: Rules, s: Store, session: Session)
    requires Replays(rules, s) && session.id in s.sessions && s.sessions[session.id] == session
    ensures Replays(rules, Logged(rules, s, session))
  {
    LoadNext(rules, s.file, SessionRecord(rules, session));
    hide Load, Increasing, FromStore;
  }

  lemma CreateReplays(rules: Rules, s: Store, session: Session, entryId: string, w: Writes)
    requires Replays(rules, s)
    ensures Replays(rules, AfterCreate(rules, s, session, entryId, w))
  {
    hide Replays, Accepts, Whole;
    if session.id !in s.sessions {
      StoreReplays(rules, s, session);
      var input := FirstEntry(session, entryId);
      AppendReplays(rules, Stored(s, session), session.id, input, w.entry);
      LogReplays(rules, Appended(rules, Stored(s, session), session.id, input, w.entry), session);
    }
  }

  lemma ReloadReplays(rules: Rules, s: Store)
    requires Replays(rules, s)
    ensures Replays(rules, AfterReload(rules, s)) && Whole(rules, AfterReload(rules, s))
  {
    var l := Load(rules, s.file);
    hide Load, FromStore, Increasing;
    forall k | 0 <= k < |l.entries|
      ensures FromStore(l.entries, l.entries[k])
    {
      OwnEntry(l.entries, k);
    }
  }

  lemma OwnEntry(entries: seq<Entry>, k: nat)
    requires k < |entries|
    ensures FromStore(entries, entries[k])
  {
    assert entries[k] == entries[k].(payload := entries[k].payload);
  }

  lemma StepReplays(rules: Rules, s: Store, op: Op)
    requires Replays(rules, s)
    ensures Replays(rules, After(rules, s, op))
  {
    hide Replays, Accepts, AfterCreate, Appended, AfterReload, Whole;
    match op
    case CreateSession(session, entryId, w) => CreateReplays(rules, s, session, entryId, w);
    case CreateChild(parent, session, entryId, input, w) =>
      var child := ChildOf(parent, session);
      var created := AfterCreate(rules, s, child, entryId, w);
      CreateReplays(rules, s, child, entryId, w);
      AppendReplays(rules, created, parent, LinkTo(session, input), w.link);
    case AppendTo(sessionId, input, written) => AppendReplays(rules, s, sessionId, input, written);
    case Reload => ReloadReplays(rules, s);
  }

  // ---- when it gives back everything ----

  /** Whatever the call stores, it also logs, and JSON gives it back. */
  predicate Logs(rules: Rules, session: Session, w: Writes) {
    && OptionalString(session.projectRoot) && OptionalString(session.workingDirectory) && OptionalString(session.parent)
    && session.metadata.Record? && rules.json(session.metadata.contents) == session.metadata.contents
    && w.entry && w.session
  }

  /** What a caller can see of an operation: nothing it stores in `s` is lost or changed on its way to the file. */
  predicate Clean(rules: Rules, s: Store, op: Op) {
    match op
    case CreateSession(session, _, w) => session.id in s.sessions || Logs(rules, session, w)
    case CreateChild(parent, session, _, _, w) =>
      || parent !in s.sessions || session.id in s.sessions
      || (Logs(rules, ChildOf(parent, session), w) && (w.link || session.id == ""))
    case AppendTo(sessionId, input, written) =>
      Appends(rules, s, sessionId, input) ==> written && Stable(rules, input.payload)
    case Reload => true
  }

  /** Every operation since the last reload was clean. */
  predicate CleanSince(rules: Rules, ops: seq<Op>) {
    ops == []
    || ops[|ops| - 1] == Reload
    || (CleanSince(rules, ops[..|ops| - 1]) && Clean(rules, Run(rules, ops[..|ops| - 1]), ops[|ops| - 1]))
  }

  /** The line of a session brings it back, if anything does. */
  lemma LogLoads(rules: Rules, s: Store, session: Session)
    ensures var l, l' := Load(rules, s.file), Load(rules, Logged(rules, s, session).file);
            && l'.entries == l.entries
            && l'.sessions == if session.metadata.NotRecord? then l.sessions
                              else l.sessions[session.id := session.(metadata := JsonMetadata(rules, session.metadata))]
  {
    LoadNext(rules, s.file, SessionRecord(rules, session));
    hide Load;
  }

  lemma SessionStable(rules: Rules, session: Session, w: Writes)
    requires Accepts(rules, SessionInit, InitOf(session)) && w.entry && w.session
    ensures Logs(rules, session, w) <==>
            session.metadata.Record? && session.(metadata := JsonMetadata(rules, session.metadata)) == session
    ensures Logs(rules, session, w) ==> Stable(rules, InitOf(session))
  {}

  lemma SameLastSession(a: map<string, Session>, b: map<string, Session>, x: Session, y: Session)
    requires x.id == y.id && x.id !in a && x.id !in b
    ensures a[x.id := x] == b[y.id := y] <==> a == b && x == y
    ensures a != b[y.id := y]
  {
    if a[x.id := x] == b[y.id := y] {
      assert a == a[x.id := x] - {x.id} && b == b[y.id := y] - {x.id};
      assert a[x.id := x][x.id] == b[y.id := y][x.id];
    }
    assert y.id in b[y.id := y];
  }

  lemma NotLoaded(rules: Rules, s: Store, id: string)
    requires Replays(rules, s) && id !in s.sessions
    ensures id !in Load(rules, s.file).sessions
  {
    hide Load, Increasing, FromStore;
  }

  lemma CreateIsWhole(rules: Rules, s: Store, session: Session, entryId: string, w: Writes)
    requires Replays(rules, s) && session.id !in s.sessions
    ensures Whole(rules, AfterCreate(rules, s, session, entryId, w)) <==> Whole(rules, s) && Logs(rules, session, w)
  {
    var stored, input := Stored(s, session), FirstEntry(session, entryId);
    StoreReplays(rules, s, session);
    NotLoaded(rules, s, session.id);
    if Accepts(rules, SessionInit, InitOf(session)) {
      var begun := Appended(rules, stored, session.id, input, w.entry);
      AppendLoads(rules, stored, session.id, input, w.entry);
      AppendBringsBack(rules, stored, session.id, input, w.entry);
      LogLoads(rules, begun, session);
      if w.entry && w.session {
        SessionStable(rules, session, w);
      }
      SameLastSession(Load(rules, s.file).sessions, s.sessions,
                      session.(metadata := JsonMetadata(rules, session.metadata)), session);
      hide Load, Accepts, Replays, JsonMetadata, JsonPayload, Stable, Read;
    }
  }

  lemma AppendIsWhole(rules: Rules, s: Store, sessionId: string, input: Input, written: bool)
    requires Replays(rules, s) && Accepts(rules, input.kind, input.payload)
    ensures Whole(rules, Appended(rules, s, sessionId, input, written))
            <==> Whole(rules, s) && written && Stable(rules, input.payload)
  {
    AppendLoads(rules, s, sessionId, input, written);
    AppendBringsBack(rules, s, sessionId, input, written);
    hide Load, Accepts, Replays, Read, Stable, EntriesBack;
  }

  lemma ChildIsWhole(rules: Rules, s: Store, parent: string, session: Session, entryId: string, input: Input, w: Writes)
    requires Replays(rules, s) && parent in s.sessions && session.id !in s.sessions
    ensures Whole(rules, AfterChild(rules, s, parent, session, entryId, input, w)) <==>
            Whole(rules, s) && Logs(rules, ChildOf(parent, session), w) && (w.link || session.id == "")
  {
    hide Whole, Replays, AfterCreate, Appended, Logs, Creates, Stable, Load;
    var child := ChildOf(parent, session);
    var created := AfterCreate(rules, s, child, entryId, w);
    CreateReplays(rules, s, child, entryId, w);
    CreateIsWhole(rules, s, child, entryId, w);
    LogsCreates(rules, s, child, w);
    CreateKeepsSessions(rules, s, child, entryId, w, parent);
    if session.id != "" {
      AppendIsWhole(rules, created, parent, LinkTo(session, input), w.link);
      LinkIsStable(rules, session, input);
    }
  }

  lemma LinkIsStable(rules: Rules, session: Session, input: Input)
    ensures Stable(rules, LinkTo(session, input).payload)
  {}

  lemma CreateKeepsSessions(rules: Rules, s: Store, session: Session, entryId: string, w: Writes, id: string)
    requires id in s.sessions
    ensures id in AfterCreate(rules, s, session, entryId, w).sessions
  {}

  lemma LogsCreates(rules: Rules, s: Store, session: Session, w: Writes)
    requires session.id !in s.sessions
    ensures Logs(rules, session, w) ==> Creates(rules, s, session, w)
  {}

  lemma StepIsWhole(rules: Rules, s: Store, op: Op)
    requires Replays(rules, s)
    ensures Whole(rules, After(rules, s, op)) <==> op == Reload || (Whole(rules, s) && Clean(rules, s, op))
  {
    hide Whole, Logs, Replays, Accepts, Appended, Stable;
    match op
    case CreateSession(session, entryId, w) =>
      if session.id !in s.sessions {
        CreateIsWhole(rules, s, session, entryId, w);
      }
    case CreateChild(parent, session, entryId, input, w) =>
      if parent in s.sessions && session.id !in s.sessions {
        ChildIsWhole(rules, s, parent, session, entryId, input, w);
      }
    case AppendTo(sessionId, input, written) =>
      if Appends(rules, s, sessionId, input) {
        AppendIsWhole(rules, s, sessionId, input, written);
      }
    case Reload => ReloadReplays(rules, s);
  }

  lemma {:induction false} RunIsWhole(rules: Rules, ops: seq<Op>)
    ensures Replays(rules, Run(rules, ops))
    ensures Whole(rules, Run(rules, ops)) <==> CleanSince(rules, ops)
  {
    if ops != [] {
      var before := Run(rules, ops[..|ops| - 1]);
      RunIsWhole(rules, ops[..|ops| - 1]);
      StepReplays(rules, before, ops[|ops| - 1]);
      StepIsWhole(rules, before, ops[|ops| - 1]);
      hide Replays, Whole, Clean, After;
    }
  }

  /**
   Loading the file of any history gives sessions and entries of the store only, in strictly
   increasing sequence, and differing from the stored ones at most in what JSON has made of a
   payload or of metadata. It gives everything back as it was, and the counter, exactly when
   every operation since the last reload was clean.
   */
  lemma HistoryReplays(rules: Rules, ops: seq<Op>)
    ensures var s := Run(rules, ops);
            var l := Load(rules, s.file);
            && (forall id :: id in l.sessions ==> FromSession(s.sessions, id, l.sessions[id]))
            && (forall k :: 0 <= k < |l.entries| ==> FromStore(s.entries, l.entries[k]))
            && (forall i, j :: 0 <= i < j < |s.entries| ==> s.entries[i].sequence < s.entries[j].sequence <= s.sequence)
            && (forall i, j :: 0 <= i < j < |l.entries| ==> l.entries[i].sequence < l.entries[j].sequence <= l.sequence)
            && l.sequence <= s.sequence
            && (l.entries == s.entries && l.sessions == s.sessions <==> CleanSince(rules, ops))
            && (CleanSince(rules, ops) ==> l.sequence == s.sequence)
  {
    RunIsWhole(rules, ops);
    hide Run, CleanSince, Load, FromStore, FromSession;
  }

  // ---- what an operation stores ----

  /** The entry has everything its caller gave, the session it was given for and the next number. */
  predicate IsEntry(e: Entry, sessionId: string, input: Input, number: nat) {
    && e.id == input.id && e.sessionId == sessionId && e.kind == input.kind
    && e.payload == input.payload && e.createdAt == input.createdAt && e.sequence == number
  }

  /** What JSON makes of metadata. */
  predicate Becomes(rules: Rules, m: Metadata, n: Metadata) {
    if m.Record? then n == Record(rules.json(m.contents)) else n == NotRecord
  }

  /** What it makes of a payload: values pass through JSON, texts stay, and an undefined value loses its key. */
  predicate PayloadBecomes(rules: Rules, p: Payload, q: Payload) {
    && (p.Init? ==> q.Init? && q == p.(metadata := q.metadata) && Becomes(rules, p.metadata, q.metadata))
    && (p.Child? ==> q == p)
    && (p.CustomData? ==>
          && q.CustomData? && q.name == p.name
          && (if p.data.Value? then q.data == Value(rules.json(p.data.contents)) else q.data == NoKey))
    && (p.Opaque? ==> q == Opaque(rules.json(p.contents)))
  }

  /** The line is that of the entry. */
  predicate IsLineOf(rules: Rules, line: Line, e: Entry) {
    && line.EntryLine? && line.entry == e.(payload := line.entry.payload)
    && PayloadBecomes(rules, e.payload, line.entry.payload)
  }

  /** `t` has one entry more than `s`, and its line if the write succeeds; its sessions are `sessions`. */
  predicate OneMore(rules: Rules, s: Store, t: Store, sessions: map<string, Session>, sessionId: string, input: Input,
                    written: bool)
  {
    && t.sessions == sessions && t.sequence == s.sequence + 1
    && |t.entries| == |s.entries| + 1 && t.entries[..|s.entries|] == s.entries
    && IsEntry(t.entries[|s.entries|], sessionId, input, t.sequence)
    && (!written ==> t.file == s.file)
    && (written ==> && |t.file| == |s.file| + 1 && t.file[..|s.file|] == s.file
                    && IsLineOf(rules, t.file[|s.file|], t.entries[|s.entries|]))
  }

  /** What the three payloads the model names must hold; of the others the given rules decide. */
  predicate Acceptable(rules: Rules, kind: Kind, p: Payload) {
    if kind == SessionInit && p.Init? then
      p.projectRoot != NotText && p.workingDirectory != NotText && p.parent != NotText
    else if kind == ChildRun && p.Child? then p.childId != ""
    else if kind == Custom && p.CustomData? then p.name != "" && (p.data == Undefined || p.data.Value?)
    else rules.accepts(kind, p)
  }

  /** An append stores the entry and writes its line, or changes nothing. */
  lemma AppendSays(rules: Rules, ops: seq<Op>, sessionId: string, input: Input, written: bool)
    ensures var s, t := Run(rules, ops), Run(rules, ops + [AppendTo(sessionId, input, written)]);
            if sessionId in s.sessions && Acceptable(rules, input.kind, input.payload)
            then OneMore(rules, s, t, s.sessions, sessionId, input, written)
            else t == s
  {
    RunNext(rules, ops, AppendTo(sessionId, input, written));
    hide Run;
  }

  /** The first entry tells what the session was created with. */
  predicate Begins(input: Input, session: Session, entryId: string) {
    && input.id == entryId && input.kind == SessionInit && input.payload.Init?
    && input.createdAt == session.createdAt
    && input.payload.projectRoot == session.projectRoot
    && input.payload.workingDirectory == session.workingDirectory
    && input.payload.parent == session.parent && input.payload.metadata == session.metadata
  }

  /** `created` is what a creation of a new session leaves of `s`. */
  predicate CreatedFrom(rules: Rules, s: Store, t: Store, session: Session, first: Input, w: Writes) {
    var sessions := s.sessions[session.id := session];
    if !Acceptable(rules, first.kind, first.payload) then t == s.(sessions := sessions)
    else if !(w.entry && w.session) then OneMore(rules, s, t, sessions, session.id, first, w.entry)
    else
      && |t.file| == |s.file| + 2
      && OneMore(rules, s, t.(file := t.file[..|s.file| + 1]), sessions, session.id, first, true)
      && t.file[|s.file| + 1].SessionLine?
      && t.file[|s.file| + 1].session == session.(metadata := t.file[|s.file| + 1].session.metadata)
      && Becomes(rules, session.metadata, t.file[|s.file| + 1].session.metadata)
  }

  /** A creation is refused for an id in use; else it stores the session, its first entry and their two lines. */
  lemma CreateSays(rules: Rules, ops: seq<Op>, session: Session, entryId: string, w: Writes) returns (first: Input)
    ensures Begins(first, session, entryId)
    ensures var s, t := Run(rules, ops), Run(rules, ops + [CreateSession(session, entryId, w)]);
            if session.id in s.sessions then t == s else CreatedFrom(rules, s, t, session, first, w)
  {
    RunNext(rules, ops, CreateSession(session, entryId, w));
    first := FirstEntry(session, entryId);
    if session.id !in Run(rules, ops).sessions {
      CreationSays(rules, Run(rules, ops), session, entryId, w);
    }
    hide Run;
  }

  lemma CreationSays(rules: Rules, s: Store, session: Session, entryId: string, w: Writes)
    requires session.id !in s.sessions
    ensures CreatedFrom(rules, s, AfterCreate(rules, s, session, entryId, w), session, FirstEntry(session, entryId), w)
  {
    var t, first := AfterCreate(rules, s, session, entryId, w), FirstEntry(session, entryId);
    if Accepts(rules, SessionInit, InitOf(session)) {
      var begun := Appended(rules, Stored(s, session), session.id, first, w.entry);
      if w.entry && w.session {
        assert t.file[..|s.file| + 1] == begun.file;
      }
    }
  }

  /**
   A child is created like any session, with its parent for parent, and once it is, the parent
   session gets an entry that names it. Without the parent session nothing happens.
   */
  lemma ChildSays(rules: Rules, ops: seq<Op>, parent: string, session: Session, entryId: string, input: Input,
                  w: Writes)
      returns (created: Store, child: Session, first: Input, link: Input)
    ensures child.parent == Text(parent) && child == session.(parent := child.parent)
    ensures Begins(first, child, entryId)
    ensures link.id == input.id && link.createdAt == input.createdAt
    ensures link.kind == ChildRun && link.payload == Child(session.id)
    ensures var s, t := Run(rules, ops), Run(rules, ops + [CreateChild(parent, session, entryId, input, w)]);
            if parent !in s.sessions || session.id in s.sessions then t == s
            else
              && CreatedFrom(rules, s, created, child, first, w)
              && if Acceptable(rules, first.kind, first.payload) && w.entry && w.session && session.id != ""
                 then OneMore(rules, created, t, created.sessions, parent, link, w.link)
                 else t == created
  {
    RunNext(rules, ops, CreateChild(parent, session, entryId, input, w));
    var s := Run(rules, ops);
    hide Run;
    child, link := ChildOf(parent, session), LinkTo(session, input);
    first, created := FirstEntry(child, entryId), AfterCreate(rules, s, child, entryId, w);
    if parent in s.sessions && session.id !in s.sessions {
      CreationSays(rules, s, child, entryId, w);
      CreateKeepsSessions(rules, s, child, entryId, w, parent);
      hide AfterCreate, CreatedFrom;
    }
  }

  // ---- what loading reads ----

  /** Line `i` is a session's, and no later line replaces it. */
  predicate LastOf(file: seq<Line>, i: nat, id: string)
    requires i < |file|
  {
    && Holds(file[i], id)
    && forall j :: i < j < |file| ==> !Holds(file[j], id)
  }

  /** A line that loads the session. */
  predicate Holds(line: Line, id: string) {
    line.SessionLine? && line.session.id == id && line.session.metadata.Record?
  }

  /** A session is loaded if a line holds it, and the last such line tells it. */
  lemma {:induction false} SessionsSay(rules: Rules, file: seq<Line>, id: string)
    ensures id in Load(rules, file).sessions <==> exists i :: 0 <= i < |file| && Holds(file[i], id)
    ensures forall i :: 0 <= i < |file| && LastOf(file, i, id) ==> Told(Load(rules, file).sessions, id, file[i])
  {
    hide *;
    if file == [] {
      LoadNothing(rules);
    } else {
      var n := |file| - 1;
      SessionsSay(rules, file[..n], id);
      SessionNext(rules, file, id);
      SomeHolds(file, id);
      forall i | 0 <= i < |file| && LastOf(file, i, id)
        ensures Told(Load(rules, file).sessions, id, file[i])
      {
        LastOfShorter(file, i, id);
      }
    }
  }

  lemma LoadNothing(rules: Rules)
    ensures Load(rules, []) == Loaded(map[], [], 0, [])
  {}

  lemma SomeHolds(file: seq<Line>, id: string)
    requires file != []
    ensures var n := |file| - 1;
            (exists i :: 0 <= i < |file| && Holds(file[i], id))
            <==> Holds(file[n], id) || exists i :: 0 <= i < n && Holds(file[..n][i], id)
  {
    hide Holds;
    var n := |file| - 1;
    assert forall i :: 0 <= i < n ==> file[..n][i] == file[i];
    if i :| 0 <= i < n && Holds(file[i], id) {
      assert Holds(file[..n][i], id);
    }
  }

  lemma LastOfShorter(file: seq<Line>, i: nat, id: string)
    requires i < |file| && LastOf(file, i, id)
    ensures var n := |file| - 1;
            if i == n then Holds(file[n], id)
            else !Holds(file[n], id) && LastOf(file[..n], i, id) && file[..n][i] == file[i]
  {
    hide Holds;
  }

  /** The session of that id is the one that the line tells. */
  predicate Told(sessions: map<string, Session>, id: string, line: Line) {
    line.SessionLine? && id in sessions && sessions[id] == line.session
  }

  lemma SessionNext(rules: Rules, file: seq<Line>, id: string)
    requires file != []
    ensures var n := |file| - 1;
            var before, now := Load(rules, file[..n]).sessions, Load(rules, file).sessions;
            if Holds(file[n], id) then id in now && Told(now, id, file[n])
            else (id in now <==> id in before) && forall line :: Told(before, id, line) ==> Told(now, id, line)
  {
    hide Accepts;
  }

  /** A line that is neither blank nor an acceptable record. */
  predicate Unreadable(rules: Rules, line: Line) {
    || line.MalformedJson? || line.Unsupported?
    || (line.SessionLine? && line.session.metadata.NotRecord?)
    || (line.EntryLine? && !Acceptable(rules, line.entry.kind, line.entry.payload))
  }

  /** The unreadable lines are reported by number, in order; the entries of the others are loaded, in order. */
  lemma {:induction false} DiagnosticsSay(rules: Rules, file: seq<Line>)
    ensures forall n :: n in Load(rules, file).diagnostics <==> 0 < n <= |file| && Unreadable(rules, file[n - 1])
    ensures var d := Load(rules, file).diagnostics; forall i, j :: 0 <= i < j < |d| ==> d[i] < d[j]
    ensures Load(rules, file).entries == EntriesIn(rules, file)
  {
    hide *;
    if file == [] {
      LoadNothing(rules);
      NoEntries(rules);
    } else {
      var n := |file| - 1;
      DiagnosticsSay(rules, file[..n]);
      DiagnosticNext(rules, file);
      var d := Load(rules, file[..n]).diagnostics;
      assert forall i :: 0 <= i < n ==> file[..n][i] == file[i];
      assert forall i :: 0 <= i < |d| ==> d[i] in d;
    }
  }

  /** What a line adds to the entries. */
  function EntryIn(rules: Rules, line: Line): seq<Entry> {
    if line.EntryLine? && !Unreadable(rules, line) then [line.entry] else []
  }

  function EntriesIn(rules: Rules, file: seq<Line>): seq<Entry> {
    if file == [] then [] else EntriesIn(rules, file[..|file| - 1]) + EntryIn(rules, file[|file| - 1])
  }

  lemma NoEntries(rules: Rules)
    ensures EntriesIn(rules, []) == []
  {}

  lemma DiagnosticNext(rules: Rules, file: seq<Line>)
    requires file != []
    ensures var n := |file| - 1;
            var before, now := Load(rules, file[..n]), Load(rules, file);
            && now.diagnostics == before.diagnostics + (if Unreadable(rules, file[n]) then [n + 1] else [])
            && now.entries == before.entries + EntryIn(rules, file[n])
            && EntriesIn(rules, file) == EntriesIn(rules, file[..n]) + EntryIn(rules, file[n])
  {
    var n := |file| - 1;
    assert Load(rules, file) == Hydrated(rules, Load(rules, file[..n]), file[n], n + 1);
    NoiseIsUnreadable(rules, file[n]);
    hide Load, IsNoise, Unreadable;
  }

  lemma NoiseIsUnreadable(rules: Rules, line: Line)
    ensures IsNoise(rules, line) <==> line == Blank || Unreadable(rules, line)
    ensures !Unreadable(rules, Blank) && (!IsNoise(rules, line) ==> line.SessionLine? || line.EntryLine?)
  {}

  // ---- the ways to lose something ----

  /** A `projectRoot` that is no string is refused, but only after the session is stored. */
  lemma RefusedCreationIsLost(rules: Rules) returns (ops: seq<Op>, session: Session)
    ensures session.projectRoot == NotText && ops == [CreateSession(session, "e", Writes(true, true, true))]
    ensures var s := Run(rules, ops);
            s.sessions == map[session.id := session] && s.file == [] && Load(rules, s.file).sessions == map[]
    ensures !CleanSince(rules, ops)
  {
    session := Session("s", 0, NotText, Absent, Absent, Record(0));
    ops := [CreateSession(session, "e", Writes(true, true, true))];
    assert ops[..0] == [];
  }

  lemma UnreadIsLost(rules: Rules, ops: seq<Op>, sessionId: string, input: Input, written: bool)
    requires CleanSince(rules, ops) && Appends(rules, Run(rules, ops), sessionId, input)
    requires written ==> Read(rules, NextEntry(Run(rules, ops), sessionId, input)).None?
    ensures LostByReload(rules, ops, AppendTo(sessionId, input, written))
  {
    RunIsWhole(rules, ops);
    HistoryReplays(rules, ops);
    hide CleanSince, Replays, Load, Read, Appends, Run, FromStore, FromSession, Accepts;
    LostNext(rules, ops, AppendTo(sessionId, input, written));
    AppendLoads(rules, Run(rules, ops), sessionId, input, written);
  }

  /** A write that fails: the entry is in memory, and the next process has never seen it. */
  lemma FailedWriteIsMissed(rules: Rules, ops: seq<Op>, sessionId: string, input: Input)
    requires CleanSince(rules, ops) && Appends(rules, Run(rules, ops), sessionId, input)
    ensures LostByReload(rules, ops, AppendTo(sessionId, input, false))
  {
    hide *;
    UnreadIsLost(rules, ops, sessionId, input, false);
  }

  /**
   A custom entry whose `data` is `undefined` has that key when it is accepted and written,
   and not in the file: its line is not an entry any more.
   */
  lemma UndefinedDataIsLost(rules: Rules, ops: seq<Op>, sessionId: string, input: Input)
    requires CleanSince(rules, ops) && sessionId in Run(rules, ops).sessions
    requires input.kind == Custom && input.payload.CustomData? && input.payload.name != ""
    requires input.payload.data == Undefined
    ensures Appends(rules, Run(rules, ops), sessionId, input)
    ensures LostByReload(rules, ops, AppendTo(sessionId, input, true))
  {
    hide Run, CleanSince, LostByReload, Load;
    UnreadIsLost(rules, ops, sessionId, input, true);
  }

  const PLAIN := Session("s", 0, Absent, Absent, Absent, Record(0))
  const UNDEFINED := Input("d", Custom, CustomData("t", Undefined), 0)

  /** A concrete history of this kind, whatever the rules. */
  lemma UndefinedDataHistory(rules: Rules)
    ensures var ops := [CreateSession(PLAIN, "e", Writes(true, true, true)), AppendTo("s", UNDEFINED, true)];
            |Run(rules, ops).entries| == 2 && |Load(rules, Run(rules, ops).file).entries| == 1
  {
    var create, append := CreateSession(PLAIN, "e", Writes(true, true, true)), AppendTo("s", UNDEFINED, true);
    RunNext(rules, [], create);
    RunNext(rules, [create], append);
    assert [] + [create] == [create] && [create] + [append] == [create, append];
    assert Run(rules, []) == EMPTY;
    hide *;
    PlainIsCreated(rules);
    UndefinedIsAppended(rules, After(rules, EMPTY, create));
  }

  lemma PlainIsCreated(rules: Rules)
    ensures var begun := After(rules, EMPTY, CreateSession(PLAIN, "e", Writes(true, true, true)));
            "s" in begun.sessions && |begun.entries| == 1 && |Load(rules, begun.file).entries| == 1
  {
    var first := EntryRecord(rules, NextEntry(EMPTY, "s", FirstEntry(PLAIN, "e")));
    var begun := After(rules, EMPTY, CreateSession(PLAIN, "e", Writes(true, true, true)));
    assert begun.file == [first, SessionRecord(rules, PLAIN)];
    hide After, EntryRecord, SessionRecord;
    LoadNothing(rules);
    LoadNext(rules, [], first);
    LoadNext(rules, [first], SessionRecord(rules, PLAIN));
    assert [] + [first] == [first] && [first] + [SessionRecord(rules, PLAIN)] == begun.file;
  }

  lemma UndefinedIsAppended(rules: Rules, s: Store)
    requires "s" in s.sessions
    ensures var t := After(rules, s, AppendTo("s", UNDEFINED, true));
            |t.entries| == |s.entries| + 1 && Load(rules, t.file).entries == Load(rules, s.file).entries
  {
    LoadNext(rules, s.file, EntryRecord(rules, NextEntry(s, "s", UNDEFINED)));
    hide Load;
  }

  lemma RunNext(rules: Rules, ops: seq<Op>, op: Op)
    ensures Run(rules, ops + [op]) == After(rules, Run(rules, ops), op)
  {
    assert (ops + [op])[..|ops|] == ops;
  }

  /** The operation adds an entry to the store, and a reload gives back the sessions and entries before it. */
  predicate LostByReload(rules: Rules, ops: seq<Op>, op: Op) {
    var before, s, t := Run(rules, ops), Run(rules, ops + [op]), Run(rules, ops + [op, Reload]);
    && |s.entries| == |before.entries| + 1 && s.sequence == before.sequence + 1
    && t.sessions == before.sessions && t.entries == before.entries && t.sequence == before.sequence
  }

  lemma LostNext(rules: Rules, ops: seq<Op>, op: Op)
    ensures Run(rules, ops + [op]) == After(rules, Run(rules, ops), op)
    ensures Run(rules, ops + [op, Reload]) == AfterReload(rules, After(rules, Run(rules, ops), op))
  {
    RunNext(rules, ops, op);
    RunNext(rules, ops + [op], Reload);
    assert ops + [op] + [Reload] == ops + [op, Reload];
    hide Run;
  }

  // ---- noise ----

  /** Noise anywhere in the file changes the diagnostics only. */
  lemma {:induction false} NoiseIsHarmless(rules: Rules, before: seq<Line>, noise: Line, later: seq<Line>)
    requires IsNoise(rules, noise)
    ensures var clean := Load(rules, before + later);
            var noisy := Load(rules, before + [noise] + later);
            && noisy.sessions == clean.sessions && noisy.entries == clean.entries && noisy.sequence == clean.sequence
            && |noisy.diagnostics| == |clean.diagnostics| + (if noise == Blank then 0 else 1)
  {
    if later == [] {
      LoadNext(rules, before, noise);
      assert before + [] == before && before + [noise] + [] == before + [noise];
    } else {
      var n := |later| - 1;
      NoiseIsHarmless(rules, before, noise, later[..n]);
      LoadNext(rules, before + later[..n], later[n]);
      LoadNext(rules, before + [noise] + later[..n], later[n]);
      assert before + later == before + later[..n] + [later[n]];
      assert before + [noise] + later == before + [noise] + later[..n] + [later[n]];
    }
  }

  // ---- the store in place ----

  class JsonlSessionStore {
    const rules: Rules
    var sessions: map<string, Session>
    var entries: seq<Entry>
    var sequence: nat
    var file: seq<Line>
    var diagnostics: seq<nat>

    function State(): Store
      reads this
    {
      Store(sessions, entries, sequence, file)
    }

    /** Replays the file line by line. */
    constructor (rules: Rules, file: seq<Line>)
      ensures State() == AfterReload(rules, Store(map[], [], 0, file)) && this.rules == rules
      ensures diagnostics == Load(rules, file).diagnostics
    {
      this.rules, this.file := rules, file;
      sessions, entries, sequence, diagnostics := map[], [], 0, [];
      new;
      var i := 0;
      while i < |file|
        invariant i <= |file| && this.file == file && this.rules == rules
        invariant Loaded(sessions, entries, sequence, diagnostics) == Load(rules, file[..i])
      {
        LoadNext(rules, file[..i], file[i]);
        assert file[..i + 1] == file[..i] + [file[i]];
        match file[i] {
          case Blank =>
          case MalformedJson => diagnostics := diagnostics + [i + 1];
          case Unsupported => diagnostics := diagnostics + [i + 1];
          case SessionLine(session) =>
            if session.metadata.Record? {
              sessions := sessions[session.id := session];
            } else {
              diagnostics := diagnostics + [i + 1];
            }
          case EntryLine(entry) =>
            if Accepts(rules, entry.kind, entry.payload) {
              entries := entries + [entry];
              sequence := Max(sequence, entry.sequence);
            } else {
              diagnostics := diagnostics + [i + 1];
            }
        }
        i := i + 1;
      }
      assert file[..i] == file;
    }

    /** `written` is whether the file system takes the line. */
    method AppendEntry(sessionId: string, input: Input, written: bool) returns (r: Result<Entry, string>)
      modifies this
      ensures State() == AfterAppend(rules, old(State()), sessionId, input, written)
      ensures r.Success? <==> Appends(rules, old(State()), sessionId, input) && written
      ensures r.Success? ==> entries == old(entries) + [r.value]
    {
      if sessionId !in sessions {
        return Failure("Unknown session");
      }
      if !Accepts(rules, input.kind, input.payload) {
        return Failure("Invalid entry");
      }
      sequence := sequence + 1;
      var entry := Entry(input.id, sessionId, input.kind, input.payload, input.createdAt, sequence);
      entries := entries + [entry];
      if !written {
        return Failure("Write failed");
      }
      file := file + [EntryRecord(rules, entry)];
      return Success(entry);
    }

    method Create(session: Session, entryId: string, w: Writes) returns (r: Result<Session, string>)
      modifies this
      ensures State() == AfterCreate(rules, old(State()), session, entryId, w)
      ensures r.Success? <==> Creates(rules, old(State()), session, w)
    {
      if session.id in sessions {
        return Failure("Session already exists");
      }
      sessions := sessions[session.id := session];
      var begun := AppendEntry(session.id, FirstEntry(session, entryId), w.entry);
      if begun.Failure? {
        return Failure(begun.error);
      }
      if !w.session {
        return Failure("Write failed");
      }
      file := file + [SessionRecord(rules, session)];
      return Success(session);
    }

    method CreateChildSession(parent: string, session: Session, entryId: string, input: Input, w: Writes)
        returns (r: Result<Session, string>)
      modifies this
      ensures State() == AfterChild(rules, old(State()), parent, session, entryId, input, w)
    {
      if parent !in sessions {
        return Failure("Unknown session");
      }
      var child := Create(ChildOf(parent, session), entryId, w);
      if child.Failure? {
        return child;
      }
      var linked := AppendEntry(parent, LinkTo(session, input), w.link);
      if linked.Failure? {
        return Failure(linked.error);
      }
      return child;
    }
  }
}
