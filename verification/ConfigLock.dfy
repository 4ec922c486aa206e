/**
 Concurrent changes of the model-role config (model-settings.ts): any number of
 `setModelRoleSetting` calls, in any processes, interleaved at every await. A call takes
 the lock file, reads the config, writes a temporary file, renames it over the config and
 removes the lock; any file operation may fail and any process may die.
 */
module ConfigLock {
  import opened Wrappers

  type Call = nat

  /** `rest` stands for the keys that are not roles. */
  datatype Config = Config(version: nat, roles: map<string, string>, rest: nat)

  datatype File = Missing | Malformed | NotAnObject | Holds(config: Config)

  const EMPTY := Config(0, map[], 0)

  /** What reading the file gives; malformed JSON is an error. */
  function Read(file: File): Option<Config> {
    match file
    case Missing => Some(EMPTY)
    case Malformed => None
    case NotAnObject => Some(EMPTY)
    case Holds(config) => Some(config)
  }

  function WithRole(config: Config, role: string, value: string): Config {
    config.(version := 1, roles := config.roles[role := value])
  }

  datatype Phase =
    | Waiting
    | Created
    | Locked
    | HasRead(config: Config)
    | TempWritten(next: Config)
    | Renamed
    | Failing
    | Done(released: bool)
    | Failed
    | Dead

  datatype Change = Change(call: Call, role: string, value: string)

  /** `log` lists the renames in order, `acquired` the calls that created the lock, in order. */
  datatype State = State(
    file: File,
    lock: Option<Call>,
    phases: map<Call, Phase>,
    wants: map<Call, Change>,
    log: seq<Change>,
    acquired: seq<Call>)

  datatype Step =
    | Begin(call: Call, role: string, value: string)
    | CreateLock(call: Call)
    | GiveUp(call: Call)
    | StampLock(call: Call)
    | StampFails(call: Call, removed: bool)
    | ReadConfig(call: Call)
    | WriteTemp(call: Call)
    | RenameTemp(call: Call)
    | OperationFails(call: Call)
    | RemoveLock(call: Call)
    | RemoveLockFails(call: Call)
    | Die(call: Call)

  function At(s: State, call: Call): Option<Phase> {
    if call in s.phases then Some(s.phases[call]) else None
  }

  function To(s: State, call: Call, phase: Phase): State {
    s.(phases := s.phases[call := phase])
  }

  predicate Enabled(s: State, step: Step) {
    var at := At(s, step.call);
    match step
    case Begin(_, _, _) => at == None
    case CreateLock(_) => at == Some(Waiting) && s.lock == None
    case GiveUp(_) => at == Some(Waiting)
    case StampLock(_) => at == Some(Created)
    case StampFails(_, _) => at == Some(Created)
    case ReadConfig(_) => at == Some(Locked)
    case WriteTemp(_) => at.Some? && at.value.HasRead? && step.call in s.wants
    case RenameTemp(_) => at.Some? && at.value.TempWritten? && step.call in s.wants
    case OperationFails(_) => at.Some? && (at.value == Locked || at.value.HasRead? || at.value.TempWritten?)
    case RemoveLock(_) => at == Some(Renamed) || at == Some(Failing)
    case RemoveLockFails(_) => at == Some(Renamed) || at == Some(Failing)
    case Die(_) => at.Some?
  }

  /** `unlink` removes whatever lock file is there. */
  function After(s: State, step: Step): State
    requires Enabled(s, step)
  {
    var call := step.call;
    match step
    case Begin(_, role, value) => To(s, call, Waiting).(wants := s.wants[call := Change(call, role, value)])
    case CreateLock(_) => To(s, call, Created).(lock := Some(call), acquired := s.acquired + [call])
    case GiveUp(_) => To(s, call, Failed)
    case StampLock(_) => To(s, call, Locked)
    case StampFails(_, removed) => To(s, call, Failed).(lock := if removed then None else s.lock)
    case ReadConfig(_) =>
      (match Read(s.file)
       case Some(config) => To(s, call, HasRead(config))
       case None => To(s, call, Failing))
    case WriteTemp(_) =>
      To(s, call, TempWritten(WithRole(s.phases[call].config, s.wants[call].role, s.wants[call].value)))
    case RenameTemp(_) => To(s, call, Renamed).(file := Holds(s.phases[call].next), log := s.log + [s.wants[call]])
    case OperationFails(_) => To(s, call, Failing)
    case RemoveLock(_) => To(s, call, if s.phases[call] == Renamed then Done(true) else Failed).(lock := None)
    case RemoveLockFails(_) => To(s, call, if s.phases[call] == Renamed then Done(false) else Failed)
    case Die(_) => To(s, call, Dead)
  }

  function Start(file: File): State {
    State(file, None, map[], map[], [], [])
  }

  // ---- what holds in every reachable state ----

  /** Between creating the lock and letting it go. */
  predicate Critical(phase: Phase) {
    phase == Created || phase == Locked || phase.HasRead? || phase.TempWritten? || phase == Renamed || phase == Failing
  }

  /** The completed changes, applied one by one. */
  function Applied(file: File, log: seq<Change>): File {
    if log == [] then file
    else
      var last := log[|log| - 1];
      match Read(Applied(file, log[..|log| - 1]))
      case Some(config) => Holds(WithRole(config, last.role, last.value))
      case None => Malformed
  }

  /** Only the call whose lock it is comes between lock and release. */
  ghost predicate Exclusive(s: State) {
    forall c :: c in s.phases && Critical(s.phases[c]) ==> s.lock == Some(c)
  }

  /** The holder read what is stored, and is about to store just its own change on top. */
  ghost predicate Current(s: State, c: Call)
    requires c in s.phases
  {
    match s.phases[c]
    case HasRead(config) => Read(s.file) == Some(config)
    case TempWritten(next) =>
      c in s.wants && Read(s.file).Some? && next == WithRole(Read(s.file).value, s.wants[c].role, s.wants[c].value)
    case _ => true
  }

  predicate Logged(log: seq<Change>, c: Call) {
    exists i :: 0 <= i < |log| && log[i].call == c
  }

  predicate Finished(phase: Phase) {
    phase.Renamed? || phase.Done?
  }

  /** Finished calls are logged, the rest are not. */
  ghost predicate LoggedRight(s: State, c: Call)
    requires c in s.phases
  {
    s.phases[c] == Dead || (Finished(s.phases[c]) <==> Logged(s.log, c))
  }

  ghost predicate Ordered(s: State) {
    && (forall i, j :: 0 <= i < j < |s.acquired| ==> s.acquired[i] != s.acquired[j])
    && (forall c :: c in s.acquired ==> c in s.phases && s.phases[c] != Waiting)
    && (s.lock.Some? ==> s.acquired != [] && s.acquired[|s.acquired| - 1] == s.lock.value)
    && (forall i :: 0 <= i < |s.log| ==> s.log[i].call in s.acquired)
    && (forall i, j :: 0 <= i < j < |s.log| ==> Earlier(s.acquired, s.log[i].call, s.log[j].call))
  }

  /** `a` took the lock before `b`. */
  ghost predicate Earlier(acquired: seq<Call>, a: Call, b: Call) {
    exists m, n :: 0 <= m < n < |acquired| && acquired[m] == a && acquired[n] == b
  }

  ghost predicate Wanted(s: State) {
    && (forall c :: c in s.phases ==> c in s.wants && s.wants[c].call == c)
    && (forall i :: 0 <= i < |s.log| ==> s.log[i].call in s.phases && s.log[i] == s.wants[s.log[i].call])
  }

  ghost predicate Inv(start: File, s: State) {
    && Exclusive(s) && Wanted(s) && Ordered(s)
    && (forall c :: c in s.phases ==> Current(s, c) && LoggedRight(s, c))
    && s.file == Applied(start, s.log)
  }

  lemma StepKeepsExclusive(start: File, s: State, step: Step)
    requires Inv(start, s) && Enabled(s, step)
    ensures Exclusive(After(s, step))
  {
    var t := After(s, step);
    assert step.call in s.phases && Critical(s.phases[step.call]) ==> s.lock == Some(step.call);
    forall c | c in t.phases && Critical(t.phases[c])
      ensures t.lock == Some(c)
    {
      if c != step.call {
        assert c in s.phases && Critical(s.phases[c]);
      }
    }
  }

  lemma LogGrows(log: seq<Change>, change: Change, c: Call)
    ensures Logged(log + [change], c) <==> Logged(log, c) || change.call == c
  {
    if Logged(log, c) {
      var i :| 0 <= i < |log| && log[i].call == c;
      assert (log + [change])[i] == log[i];
    }
    assert (log + [change])[|log|] == change;
  }

  lemma StepKeepsCurrent(start: File, s: State, step: Step)
    requires Inv(start, s) && Enabled(s, step)
    ensures forall c :: c in After(s, step).phases ==> Current(After(s, step), c) && LoggedRight(After(s, step), c)
  {
    forall c | c in After(s, step).phases
      ensures Current(After(s, step), c) && LoggedRight(After(s, step), c)
    {
      if c == step.call {
        OwnStepKeepsCurrent(start, s, step);
        OwnStepKeepsLogged(start, s, step);
      } else {
        OthersKeepCurrent(start, s, step, c);
        OthersKeepLogged(start, s, step, c);
      }
    }
  }

  /** What a step leaves alone. */
  lemma OthersFrame(s: State, step: Step, c: Call)
    requires Enabled(s, step) && c != step.call
    ensures var t := After(s, step);
            && (c in t.phases <==> c in s.phases) && (c in s.phases ==> t.phases[c] == s.phases[c])
            && (c in t.wants <==> c in s.wants) && (c in s.wants ==> t.wants[c] == s.wants[c])
  {}

  /** Only a rename writes the file and the log, and only once its call holds the lock. */
  lemma FileFrame(s: State, step: Step)
    requires Enabled(s, step)
    ensures step.RenameTemp? ==> step.call in s.phases && Critical(s.phases[step.call]) && step.call in s.wants
    ensures var t := After(s, step);
            if step.RenameTemp? then t.log == s.log + [s.wants[step.call]]
            else t.file == s.file && t.log == s.log
  {}

  lemma OwnStepKeepsCurrent(start: File, s: State, step: Step)
    requires Inv(start, s) && Enabled(s, step)
    ensures step.call in After(s, step).phases && Current(After(s, step), step.call)
  {
    assert step.call in s.phases ==> Current(s, step.call);
    hide Ordered, Applied, LoggedRight, Exclusive, Wanted;
  }

  /** A call finishes with its rename, and stays finished. */
  lemma OwnFinishes(s: State, step: Step)
    requires Enabled(s, step)
    ensures var t := After(s, step);
            && step.call in t.phases
            && (t.phases[step.call] == Dead || !(step.call in s.phases && s.phases[step.call] == Dead))
            && (t.phases[step.call] == Dead
                || (Finished(t.phases[step.call]) <==>
                      step.RenameTemp? || (step.call in s.phases && Finished(s.phases[step.call]))))
    ensures step.call !in s.phases ==> step.Begin?
  {
    hide WithRole, Read;
  }

  lemma OwnStepKeepsLogged(start: File, s: State, step: Step)
    requires Inv(start, s) && Enabled(s, step)
    ensures step.call in After(s, step).phases && LoggedRight(After(s, step), step.call)
  {
    FileFrame(s, step);
    OwnFinishes(s, step);
    assert step.call in s.phases ==> LoggedRight(s, step.call);
    assert step.call !in s.phases ==> !Logged(s.log, step.call);
    assert step.RenameTemp? ==> s.wants[step.call].call == step.call;
    hide Ordered, Applied, Current, Exclusive, Logged, Wanted, Inv, After, Enabled, Finished;
    if step.RenameTemp? {
      LogGrows(s.log, s.wants[step.call], step.call);
    }
  }

  lemma OthersKeepCurrent(start: File, s: State, step: Step, c: Call)
    requires Inv(start, s) && Enabled(s, step) && c in After(s, step).phases && c != step.call
    ensures Current(After(s, step), c)
  {
    OthersFrame(s, step, c);
    FileFrame(s, step);
    assert Current(s, c);
    assert step.RenameTemp? ==> !Critical(s.phases[c]);
    hide Ordered, Applied, LoggedRight, Wanted, Exclusive, After, Enabled, Inv, WithRole, Read;
  }

  lemma OthersKeepLogged(start: File, s: State, step: Step, c: Call)
    requires Inv(start, s) && Enabled(s, step) && c in After(s, step).phases && c != step.call
    ensures LoggedRight(After(s, step), c)
  {
    OthersFrame(s, step, c);
    FileFrame(s, step);
    assert LoggedRight(s, c);
    assert step.RenameTemp? ==> s.wants[step.call].call == step.call;
    hide Ordered, Applied, Current, Exclusive, Logged, Wanted, After, Enabled, Inv;
    if step.RenameTemp? {
      LogGrows(s.log, s.wants[step.call], c);
    }
  }

  lemma AppliedNext(start: File, log: seq<Change>, change: Change)
    ensures Applied(start, log + [change]) ==
              match Read(Applied(start, log))
              case Some(config) => Holds(WithRole(config, change.role, change.value))
              case None => Malformed
  {
    assert (log + [change])[..|log|] == log;
  }

  lemma StepKeepsApplied(start: File, s: State, step: Step)
    requires Inv(start, s) && Enabled(s, step)
    ensures After(s, step).file == Applied(start, After(s, step).log)
  {
    if step.RenameTemp? {
      assert Current(s, step.call);
      AppliedNext(start, s.log, s.wants[step.call]);
    }
  }

  lemma EarlierGrows(acquired: seq<Call>, more: Call, a: Call, b: Call)
    requires Earlier(acquired, a, b)
    ensures Earlier(acquired + [more], a, b)
  {
    var m, n :| 0 <= m < n < |acquired| && acquired[m] == a && acquired[n] == b;
    assert (acquired + [more])[m] == a && (acquired + [more])[n] == b;
  }

  lemma CreateKeepsOrdered(start: File, s: State, call: Call)
    requires Inv(start, s) && Enabled(s, CreateLock(call))
    ensures Ordered(After(s, CreateLock(call)))
  {
    var t := After(s, CreateLock(call));
    hide Applied, Exclusive, Wanted, Current, LoggedRight;
    assert call !in s.acquired;
    forall i, j | 0 <= i < j < |s.log|
      ensures Earlier(t.acquired, s.log[i].call, s.log[j].call)
    {
      EarlierGrows(s.acquired, call, s.log[i].call, s.log[j].call);
    }
  }

  /** Who renames took the lock after everybody who has renamed. */
  lemma RenamesLast(start: File, s: State, call: Call)
    requires Inv(start, s) && Enabled(s, RenameTemp(call))
    ensures forall i :: 0 <= i < |s.log| ==> Earlier(s.acquired, s.log[i].call, call)
    ensures call in s.acquired && s.wants[call].call == call
  {
    assert s.lock == Some(call) && LoggedRight(s, call);
    hide Applied, Exclusive, Current, Earlier;
    forall i | 0 <= i < |s.log|
      ensures Earlier(s.acquired, s.log[i].call, call)
    {
      assert s.log[i].call != call;
      LastIsLatest(s.acquired, s.log[i].call, call);
    }
  }

  lemma RenameKeepsOrdered(start: File, s: State, call: Call)
    requires Inv(start, s) && Enabled(s, RenameTemp(call))
    ensures Ordered(After(s, RenameTemp(call)))
  {
    RenamesLast(start, s, call);
    hide Earlier, LoggedRight, Wanted, Applied, Exclusive, Current;
    OrderedLonger(s, After(s, RenameTemp(call)), s.wants[call]);
  }

  lemma OrderedLonger(s: State, t: State, change: Change)
    requires Ordered(s) && t.acquired == s.acquired && t.lock == s.lock && t.log == s.log + [change]
    requires forall c :: c in s.phases ==> c in t.phases && (s.phases[c] != Waiting ==> t.phases[c] != Waiting)
    requires change.call in s.acquired
    requires forall i :: 0 <= i < |s.log| ==> Earlier(s.acquired, s.log[i].call, change.call)
    ensures Ordered(t)
  {
    hide Earlier;
    forall i, j | 0 <= i < j < |t.log|
      ensures Earlier(t.acquired, t.log[i].call, t.log[j].call)
    {
      if j < |s.log| {
        assert t.log[i] == s.log[i] && t.log[j] == s.log[j];
      }
    }
  }

  lemma LastIsLatest(acquired: seq<Call>, a: Call, last: Call)
    requires acquired != [] && acquired[|acquired| - 1] == last && a in acquired && a != last
    ensures Earlier(acquired, a, last)
  {
    var m :| 0 <= m < |acquired| && acquired[m] == a;
    assert acquired[|acquired| - 1] == last;
  }

  lemma StepKeepsOrdered(start: File, s: State, step: Step)
    requires Inv(start, s) && Enabled(s, step)
    ensures Ordered(After(s, step))
  {
    if step.CreateLock? {
      CreateKeepsOrdered(start, s, step.call);
    } else if step.RenameTemp? {
      RenameKeepsOrdered(start, s, step.call);
    } else {
      StepFrame(s, step);
      hide Applied, Current, LoggedRight, Wanted, Earlier, After, Enabled, Exclusive;
    }
  }

  /** Steps that neither take the lock nor rename. */
  lemma StepFrame(s: State, step: Step)
    requires Enabled(s, step) && !step.CreateLock? && !step.RenameTemp?
    ensures var t := After(s, step);
            && t.acquired == s.acquired && t.log == s.log && t.file == s.file && (t.lock == s.lock || t.lock == None)
            && forall c :: c in s.phases ==> c in t.phases && (s.phases[c] != Waiting ==> t.phases[c] != Waiting)
  {}

  lemma StepKeepsWanted(start: File, s: State, step: Step)
    requires Inv(start, s) && Enabled(s, step)
    ensures Wanted(After(s, step))
  {
    hide Applied, Current, LoggedRight, Ordered, Exclusive;
  }

  lemma StepKeepsInv(start: File, s: State, step: Step)
    requires Inv(start, s) && Enabled(s, step)
    ensures Inv(start, After(s, step))
  {
    StepKeepsExclusive(start, s, step);
    StepKeepsCurrent(start, s, step);
    StepKeepsApplied(start, s, step);
    StepKeepsOrdered(start, s, step);
    StepKeepsWanted(start, s, step);
  }

  // ---- over every run ----

  ghost predicate IsRun(start: File, states: seq<State>, steps: seq<Step>) {
    && |states| == |steps| + 1 && states[0] == Start(start)
    && forall i :: 0 <= i < |steps| ==> Enabled(states[i], steps[i]) && states[i + 1] == After(states[i], steps[i])
  }

  lemma {:induction false} RunKeepsInv(start: File, states: seq<State>, steps: seq<Step>, i: nat)
    requires IsRun(start, states, steps) && i < |states|
    ensures Inv(start, states[i])
  {
    if i > 0 {
      RunKeepsInv(start, states, steps, i - 1);
      StepKeepsInv(start, states[i - 1], steps[i - 1]);
    }
  }

  /** At most one call is between creating the lock and letting it go. */
  lemma OneInside(start: File, states: seq<State>, steps: seq<Step>, i: nat, a: Call, b: Call)
    requires IsRun(start, states, steps) && i < |states|
    requires a in states[i].phases && Critical(states[i].phases[a])
    requires b in states[i].phases && Critical(states[i].phases[b])
    ensures a == b
  {
    RunKeepsInv(start, states, steps, i);
  }

  lemma DistinctOrder(s: State)
    requires Ordered(s)
    ensures forall m, n :: 0 <= m < n < |s.log| ==> s.log[m].call != s.log[n].call
  {
    forall m, n | 0 <= m < n < |s.log|
      ensures s.log[m].call != s.log[n].call
    {
      assert Earlier(s.acquired, s.log[m].call, s.log[n].call);
    }
  }

  /**
   No update is lost: at every moment the file is the initial one with the logged changes
   applied in the order their calls took the lock, each once; a call that reported success
   is logged, one that reported failure is not.
   */
  lemma NoLostUpdates(start: File, states: seq<State>, steps: seq<Step>, i: nat)
    requires IsRun(start, states, steps) && i < |states|
    ensures var s := states[i];
            && s.file == Applied(start, s.log)
            && (forall m, n :: 0 <= m < n < |s.log| ==>
                  s.log[m].call != s.log[n].call && Earlier(s.acquired, s.log[m].call, s.log[n].call))
            && (forall c :: c in s.phases && s.phases[c].Done? ==>
                  c in s.wants && s.wants[c] in s.log)
            && (forall c :: c in s.phases && s.phases[c].Failed? ==> !Logged(s.log, c))
  {
    RunKeepsInv(start, states, steps, i);
    var s := states[i];
    DistinctOrder(s);
    hide IsRun, Applied, Exclusive, Current;
    forall c | c in s.phases && s.phases[c].Done?
      ensures c in s.wants && s.wants[c] in s.log
    {
      assert LoggedRight(s, c);
      var k :| 0 <= k < |s.log| && s.log[k].call == c;
    }
    forall c | c in s.phases && s.phases[c].Failed?
      ensures !Logged(s.log, c)
    {
      assert LoggedRight(s, c);
    }
  }

  /** `change` is stored, whole, on top of what was stored. */
  predicate Stored(s: State, t: State, change: Change) {
    && t.log == s.log + [change]
    && Read(s.file).Some? && t.file == Holds(WithRole(Read(s.file).value, change.role, change.value))
  }

  /** A reader never meets a half-written config: the file changes only by whole renames. */
  lemma ReadersSeeWholeConfigs(start: File, states: seq<State>, steps: seq<Step>, i: nat)
    requires IsRun(start, states, steps) && i < |steps|
    ensures states[i + 1].file == states[i].file
            || (states[i + 1].log != [] && Stored(states[i], states[i + 1], states[i + 1].log[|states[i + 1].log| - 1]))
  {
    RunKeepsInv(start, states, steps, i);
    var s, step := states[i], steps[i];
    if step.RenameTemp? {
      assert Current(s, step.call);
      var change := s.wants[step.call];
      assert Stored(s, states[i + 1], change);
    }
  }

  /** A lock nobody will remove: its call is finished or dead. */
  ghost predicate Abandoned(s: State) {
    s.lock.Some? && s.lock.value in s.phases && !Critical(s.phases[s.lock.value]) && s.phases[s.lock.value] != Waiting
  }

  /** An abandoned lock fails closed: no later change is stored. */
  lemma {:induction false} AbandonedLockFailsClosed(start: File, states: seq<State>, steps: seq<Step>, i: nat, j: nat)
    requires IsRun(start, states, steps) && i <= j < |states| && Abandoned(states[i])
    ensures Abandoned(states[j]) && states[j].file == states[i].file && states[j].log == states[i].log
    decreases j
  {
    if i < j {
      AbandonedLockFailsClosed(start, states, steps, i, j - 1);
      RunKeepsInv(start, states, steps, j - 1);
      StepKeepsAbandoned(start, states[j - 1], steps[j - 1]);
    }
  }

  lemma StepKeepsAbandoned(start: File, s: State, step: Step)
    requires Inv(start, s) && Enabled(s, step) && Abandoned(s)
    ensures Abandoned(After(s, step)) && After(s, step).file == s.file && After(s, step).log == s.log
  {
    hide Ordered, Applied, Wanted, Current, LoggedRight;
    NobodyInside(s);
  }

  lemma NobodyInside(s: State)
    requires Exclusive(s) && Abandoned(s)
    ensures forall c :: c in s.phases ==> !Critical(s.phases[c])
  {}

  // ---- what the stored config says ----

  /** The last change of `role` among the first `n`, counted from 1; 0 if there is none. */
  function LastChange(log: seq<Change>, role: string, n: nat): nat
    requires n <= |log|
  {
    if n == 0 then 0 else if log[n - 1].role == role then n else LastChange(log, role, n - 1)
  }

  lemma {:induction false} LastChangePrefix(log: seq<Change>, role: string, n: nat, m: nat)
    requires n <= m <= |log|
    ensures LastChange(log[..m], role, n) == LastChange(log, role, n)
    decreases n
  {
    if n > 0 {
      LastChangePrefix(log, role, n - 1, m);
    }
  }

  /**
   Role by role: the stored value is the one of the last logged change of that role, or the
   initial one if nobody changed it; all other keys keep their initial values.
   */
  lemma {:induction false} LastChangeWins(file: File, log: seq<Change>, role: string)
    requires Read(file).Some?
    ensures Read(Applied(file, log)).Some?
    ensures var before, after := Read(file).value, Read(Applied(file, log)).value;
            var last := LastChange(log, role, |log|);
            && last <= |log| && after.rest == before.rest
            && (log != [] ==> after.version == 1)
            && (if last > 0 then log[last - 1].role == role
                   && role in after.roles && after.roles[role] == log[last - 1].value
                else (role in after.roles <==> role in before.roles)
                     && (role in before.roles ==> after.roles[role] == before.roles[role]))
  {
    if log != [] {
      var n := |log| - 1;
      LastChangeWins(file, log[..n], role);
      LastChangePrefix(log, role, n, n);
      assert LastChange(log, role, |log|) == if log[n].role == role then n + 1 else LastChange(log, role, n);
    }
  }

  // ---- what a call does to the file, from its own side ----

  /** The config a file stands for: none if it is malformed, an empty one if there is nothing usable. */
  function Base(file: File): Option<Config> {
    if file.Malformed? then None
    else if file.Holds? then Some(file.config)
    else Some(Config(0, map[], 0))
  }

  /**
   The stored file over every run, told from where it started. A malformed file stays as it
   is, and no call ever stores anything or succeeds. Any other stays until the first rename;
   from then on it is a config of version 1 that has, for each role, the last logged change
   of it or what it started with, and all other keys as they were.
   */
  lemma FileSays(start: File, states: seq<State>, steps: seq<Step>, i: nat, role: string)
    requires IsRun(start, states, steps) && i < |states|
    ensures var s := states[i];
            && (s.log == [] ==> s.file == start)
            && (start.Malformed? ==>
                  s.file == Malformed && s.log == []
                  && forall c :: c in s.phases ==> !s.phases[c].Done? && !s.phases[c].Renamed?)
            && (s.log != [] ==>
                  && Base(start).Some? && s.file.Holds? && s.file.config.version == 1
                  && s.file.config.rest == Base(start).value.rest
                  && var last := LastChange(s.log, role, |s.log|);
                     var roles, before := s.file.config.roles, Base(start).value.roles;
                     last <= |s.log|
                     && (if last > 0 then role in roles && roles[role] == s.log[last - 1].value
                         else (role in roles <==> role in before) && (role in before ==> roles[role] == before[role])))
  {
    hide *;
    FileIsApplied(start, states, steps, i);
    AppliedStarts(start, states[i].log);
    if start.Malformed? {
      MalformedStays(start, states, steps, i);
      StuckSays(states[i]);
    } else if states[i].log != [] {
      StoredSays(start, states[i].log, role);
    }
  }

  lemma FileIsApplied(start: File, states: seq<State>, steps: seq<Step>, i: nat)
    requires IsRun(start, states, steps) && i < |states|
    ensures states[i].file == Applied(start, states[i].log)
  {
    RunKeepsInv(start, states, steps, i);
    hide IsRun, Applied, Exclusive, Ordered, Current, LoggedRight, Wanted;
  }

  lemma StuckSays(s: State)
    requires Stuck(s)
    ensures s.file == Malformed && s.log == []
    ensures forall c :: c in s.phases ==> !s.phases[c].Done? && !s.phases[c].Renamed?
  {}

  lemma StoredSays(start: File, log: seq<Change>, role: string)
    requires log != [] && start != Malformed
    ensures Base(start).Some? && Applied(start, log).Holds? && Applied(start, log).config.version == 1
    ensures var config := Applied(start, log).config;
            var last := LastChange(log, role, |log|);
            var roles, before := config.roles, Base(start).value.roles;
            && config.rest == Base(start).value.rest && last <= |log|
            && (if last > 0 then role in roles && roles[role] == log[last - 1].value
                else (role in roles <==> role in before) && (role in before ==> roles[role] == before[role]))
  {
    LastChangeWins(start, log, role);
    BaseIsRead(start);
    BaseIsRead(Applied(start, log));
    AppliedStarts(start, log);
    hide Applied, LastChange;
  }

  lemma BaseIsRead(file: File)
    ensures Base(file) == Read(file)
  {}

  lemma AppliedStarts(file: File, log: seq<Change>)
    ensures log == [] ==> Applied(file, log) == file
    ensures log != [] ==> Applied(file, log).Holds? || Applied(file, log).Malformed?
  {}

  /** From a malformed file no call gets past reading. */
  ghost predicate Stuck(s: State) {
    s.file == Malformed && s.log == []
    && forall c :: c in s.phases ==>
         !s.phases[c].HasRead? && !s.phases[c].TempWritten? && !s.phases[c].Renamed? && !s.phases[c].Done?
  }

  lemma {:induction false} MalformedStays(start: File, states: seq<State>, steps: seq<Step>, i: nat)
    requires IsRun(start, states, steps) && i < |states| && start == Malformed
    ensures Stuck(states[i])
  {
    if i > 0 {
      MalformedStays(start, states, steps, i - 1);
      StepKeepsStuck(states[i - 1], steps[i - 1]);
    }
  }

  lemma StepKeepsStuck(s: State, step: Step)
    requires Stuck(s) && Enabled(s, step)
    ensures Stuck(After(s, step))
  {}

  /**
   A call on its own, from any state in which nobody has the lock. If the file is usable the
   call stores its change over it, removes the lock and succeeds; if it is malformed the call
   removes the lock and fails, and the file is as it was.
   */
  lemma LoneCallStores(s: State, call: Call, role: string, value: string) returns (steps: seq<Step>, t: State)
    requires s.lock == None && call !in s.phases
    ensures Leads(s, steps, t) && t.lock == None && call in t.phases
    ensures forall c :: c in s.phases ==> c in t.phases && t.phases[c] == s.phases[c]
    ensures match Base(s.file)
            case Some(config) =>
              && t.phases[call] == Done(true)
              && t.file == Holds(Config(1, config.roles[role := value], config.rest))
              && t.log == s.log + [Change(call, role, value)]
            case None => t.phases[call] == Failed && t.file == s.file && t.log == s.log
  {
    var ready, locked := CallLocks(s, call, role, value);
    hide After, Enabled, Leads;
    var rest: seq<Step>;
    if s.file == Malformed {
      rest, t := CallFails(locked, call);
    } else {
      rest, t := CallWrites(locked, call);
    }
    steps := ready + rest;
    LeadsJoin(s, ready, locked, rest, t);
  }

  lemma CallLocks(s: State, call: Call, role: string, value: string) returns (steps: seq<Step>, t: State)
    requires s.lock == None && call !in s.phases
    ensures Leads(s, steps, t)
    ensures t == State(s.file, Some(call), s.phases[call := Locked], s.wants[call := Change(call, role, value)], s.log,
                       s.acquired + [call])
  {
    var s1 := After(s, Begin(call, role, value));
    var s2 := After(s1, CreateLock(call));
    t := After(s2, StampLock(call));
    steps := [Begin(call, role, value)] + ([CreateLock(call)] + ([StampLock(call)] + []));
    hide After, Enabled;
    LeadsOn(s2, [], t, StampLock(call));
    LeadsOn(s1, [StampLock(call)] + [], t, CreateLock(call));
    LeadsOn(s, [CreateLock(call)] + ([StampLock(call)] + []), t, Begin(call, role, value));
  }

  lemma CallFails(s: State, call: Call) returns (steps: seq<Step>, t: State)
    requires At(s, call) == Some(Locked) && s.file == Malformed
    ensures Leads(s, steps, t) && t == s.(phases := s.phases[call := Failed], lock := None)
  {
    var s1 := After(s, ReadConfig(call));
    t := After(s1, RemoveLock(call));
    steps := [ReadConfig(call)] + ([RemoveLock(call)] + []);
    hide After, Enabled;
    LeadsOn(s1, [], t, RemoveLock(call));
    LeadsOn(s, [RemoveLock(call)] + [], t, ReadConfig(call));
  }

  lemma CallWrites(s: State, call: Call) returns (steps: seq<Step>, t: State)
    requires At(s, call) == Some(Locked) && s.file != Malformed && call in s.wants
    ensures Leads(s, steps, t) && Base(s.file).Some?
    ensures var config, want := Base(s.file).value, s.wants[call];
            t == s.(phases := s.phases[call := Done(true)], lock := None, log := s.log + [want],
                    file := Holds(Config(1, config.roles[want.role := want.value], config.rest)))
  {
    var s1, s2, s3;
    s1, s2 := CallPrepares(s, call);
    s3, t := CallCommits(s2, call);
    hide *;
    assert Leads(t, [], t) by { LeadsNowhere(t); }
    LeadsOn(s3, [], t, RemoveLock(call));
    LeadsOn(s2, [RemoveLock(call)] + [], t, RenameTemp(call));
    LeadsOn(s1, [RenameTemp(call)] + ([RemoveLock(call)] + []), t, WriteTemp(call));
    LeadsOn(s, [WriteTemp(call)] + ([RenameTemp(call)] + ([RemoveLock(call)] + [])), t, ReadConfig(call));
    steps := [ReadConfig(call)] + ([WriteTemp(call)] + ([RenameTemp(call)] + ([RemoveLock(call)] + [])));
  }

  lemma LeadsNowhere(s: State)
    ensures Leads(s, [], s)
  {}

  lemma CallPrepares(s: State, call: Call) returns (s1: State, s2: State)
    requires At(s, call) == Some(Locked) && s.file != Malformed && call in s.wants
    ensures Enabled(s, ReadConfig(call)) && s1 == After(s, ReadConfig(call))
    ensures Enabled(s1, WriteTemp(call)) && s2 == After(s1, WriteTemp(call)) && Base(s.file).Some?
    ensures var config, want := Base(s.file).value, s.wants[call];
            s2 == s.(phases := s.phases[call := TempWritten(
                                          Config(1, config.roles[want.role := want.value], config.rest))])
  {
    s1 := After(s, ReadConfig(call));
    s2 := After(s1, WriteTemp(call));
  }

  lemma CallCommits(s: State, call: Call) returns (s1: State, s2: State)
    requires call in s.phases && s.phases[call].TempWritten? && call in s.wants
    ensures Enabled(s, RenameTemp(call)) && s1 == After(s, RenameTemp(call))
    ensures Enabled(s1, RemoveLock(call)) && s2 == After(s1, RemoveLock(call))
    ensures s2 == s.(phases := s.phases[call := Done(true)], lock := None, log := s.log + [s.wants[call]],
                     file := Holds(s.phases[call].next))
  {
    s1 := After(s, RenameTemp(call));
    s2 := After(s1, RemoveLock(call));
  }

  lemma {:induction false} LeadsJoin(s: State, a: seq<Step>, m: State, b: seq<Step>, t: State)
    requires Leads(s, a, m) && Leads(m, b, t)
    ensures Leads(s, a + b, t)
    decreases |a|
  {
    hide Enabled, After;
    if a == [] {
      assert a + b == b;
    } else {
      LeadsJoin(After(s, a[0]), a[1..], m, b, t);
      assert (a + b)[1..] == a[1..] + b;
    }
  }

  /** The steps can be taken one after the other from `s`, and end in `t`. */
  predicate Leads(s: State, steps: seq<Step>, t: State)
    decreases |steps|
  {
    if steps == [] then s == t else Enabled(s, steps[0]) && Leads(After(s, steps[0]), steps[1..], t)
  }

  lemma LeadsOn(s: State, steps: seq<Step>, t: State, step: Step)
    requires Enabled(s, step) && Leads(After(s, step), steps, t)
    ensures Leads(s, [step] + steps, t)
  {
    assert ([step] + steps)[1..] == steps;
  }

  /**
   How a call ends otherwise. Without the lock it gives up and leaves everything as it is; a
   lock it could not stamp or an operation that failed makes it fail, with the lock removed
   if that works; and a stored change whose lock could not be removed is a success that says so.
   */
  lemma OtherEnds(s: State, step: Step)
    requires Enabled(s, step)
    ensures var t, c := After(s, step), step.call;
            && c in t.phases
            && (step.GiveUp? ==>
                  t == s.(phases := t.phases) && t.phases[c] == Failed && c in s.phases && s.phases[c] == Waiting)
            && (step.StampFails? ==>
                  t.phases[c] == Failed && t.lock == (if step.removed then None else s.lock) && t.file == s.file)
            && (step.OperationFails? ==> t == s.(phases := t.phases) && t.phases[c] == Failing)
            && (step.RemoveLock? ==>
                  c in s.phases && t.lock == None && t.file == s.file
                  && t.phases[c] == if s.phases[c] == Renamed then Done(true) else Failed)
            && (step.RemoveLockFails? ==>
                  c in s.phases && t.lock == s.lock && t.file == s.file
                  && t.phases[c] == if s.phases[c] == Renamed then Done(false) else Failed)
            && (step.Die? ==> t == s.(phases := t.phases) && t.phases[c] == Dead)
  {}

  /**
   No call is ever stuck between the steps: one that waits may give up, or take the lock if
   nobody has it; one that has it may go on, and any of its file operations may fail.
   */
  lemma EveryStageMoves(start: File, states: seq<State>, steps: seq<Step>, i: nat, call: Call)
    requires IsRun(start, states, steps) && i < |states|
    ensures var s := states[i];
            if call !in s.phases then forall role, value :: Enabled(s, Begin(call, role, value))
            else
              match s.phases[call]
              case Waiting => Enabled(s, GiveUp(call)) && (s.lock == None <==> Enabled(s, CreateLock(call)))
              case Created =>
                Enabled(s, StampLock(call)) && Enabled(s, StampFails(call, true)) && Enabled(s, StampFails(call, false))
              case Locked => Enabled(s, ReadConfig(call)) && Enabled(s, OperationFails(call))
              case HasRead(_) => Enabled(s, WriteTemp(call)) && Enabled(s, OperationFails(call))
              case TempWritten(_) => Enabled(s, RenameTemp(call)) && Enabled(s, OperationFails(call))
              case Renamed => Enabled(s, RemoveLock(call)) && Enabled(s, RemoveLockFails(call))
              case Failing => Enabled(s, RemoveLock(call)) && Enabled(s, RemoveLockFails(call))
              case _ => true
  {
    if call in states[i].phases {
      InWants(start, states, steps, i, call);
    }
    hide IsRun, Inv;
  }

  lemma InWants(start: File, states: seq<State>, steps: seq<Step>, i: nat, call: Call)
    requires IsRun(start, states, steps) && i < |states| && call in states[i].phases
    ensures call in states[i].wants
  {
    RunKeepsInv(start, states, steps, i);
    hide IsRun, Ordered, Exclusive, Current, LoggedRight, Applied;
  }
}
