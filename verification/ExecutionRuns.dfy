/**
 Whole runs of an execution root: what one step does to the launch it is about, what
 every later state keeps of an earlier one, and how long a run can get.
 */
module ExecutionRuns {
  import opened Wrappers
  import opened ExecutionState
  import opened ExecutionStructure
  import opened ExecutionAdmission
  import opened ExecutionSafety
  import Sched = ExecutionScheduler

  // ---- what a launch may become ----

  function PhaseRank(v: Invocation): nat {
    match v.phase
    case Created => 7
    case Awaiting(_) => 6
    case Running => 4
    case ReturnJoin => 3
    case ThrowJoin(_) => 2
    case Settled(_) => 1
    case Observed(_) => 0
  }

  function DelegationRank(v: Invocation): nat {
    match v.delegation
    case Idle => 0
    case Working(_) => 7
    case Draining(_, _, _) => 6
    case Drained(_, _) => 5
    case Reentering(_, _, _) => 4
    case Settling(_, _) => 1
  }

  /** How much a launch has still to do: first its phases, and within a phase its delegation. */
  function Weight(v: Invocation): nat {
    8 * PhaseRank(v) + DelegationRank(v)
  }

  function TotalWeight(vs: seq<Invocation>): nat {
    if vs == [] then 0 else TotalWeight(vs[..|vs| - 1]) + Weight(vs[|vs| - 1])
  }

  /** A launch keeps its place, its first recorded failure and its outcome, and never goes back. */
  predicate LaunchEvolves(v: Invocation, v': Invocation) {
    && v'.scope == v.scope && v'.kind == v.kind && v'.reservation == v.reservation
    && v.starts <= v'.starts
    && (v.launched ==> v'.launched)
    && (v.delegationFailure.Some? ==> v'.delegationFailure == v.delegationFailure)
    && PhaseRank(v') <= PhaseRank(v)
    && (Done(v) ==> Done(v') && v'.phase.outcome == v.phase.outcome && v'.starts == v.starts)
  }

  predicate ScopeEvolves(c: Scope, c': Scope) {
    && c'.owner == c.owner
    && (c.closed ==> c'.closed)
    && (c.failure.Some? ==> c'.failure == c.failure)
  }

  ghost predicate Evolves(st: State, st': State) {
    && |st.launches| <= |st'.launches|
    && |st.scopes| <= |st'.scopes|
    && (forall i :: 0 <= i < |st.launches| ==> LaunchEvolves(st.launches[i], st'.launches[i]))
    && (forall s :: 0 <= s < |st.scopes| ==> ScopeEvolves(st.scopes[s], st'.scopes[s]))
    && FiredStay(st, st')
    && (st.closed ==> st'.closed)
    && |st.closings| <= |st'.closings|
    && (forall k :: 0 <= k < |st.closings| ==> st'.closings[k] == st.closings[k])
  }

  lemma EvolvesCompose(a: State, b: State, c: State)
    requires Evolves(a, b) && Evolves(b, c)
    ensures Evolves(a, c)
  {
    forall i | 0 <= i < |a.launches|
      ensures LaunchEvolves(a.launches[i], c.launches[i])
    {
      assert LaunchEvolves(a.launches[i], b.launches[i]) && LaunchEvolves(b.launches[i], c.launches[i]);
    }
    forall s | 0 <= s < |a.scopes|
      ensures ScopeEvolves(a.scopes[s], c.scopes[s])
    {
      assert ScopeEvolves(a.scopes[s], b.scopes[s]) && ScopeEvolves(b.scopes[s], c.scopes[s]);
    }
  }

  // ---- what one step does ----

  /** The launch a step is about. */
  function Actor(step: Step): Option<nat> {
    match step
    case Run(i, _) => Some(i)
    case Start(i, _) => Some(i)
    case CallbackReturns(i) => Some(i)
    case CallbackThrows(i, _) => Some(i)
    case WithChildren(i) => Some(i)
    case WorkReturns(i) => Some(i)
    case WorkThrows(i, _) => Some(i)
    case Drain(i) => Some(i)
    case Reenter(i) => Some(i)
    case Resume(i) => Some(i)
    case SettleDelegation(i) => Some(i)
    case Observe(i) => Some(i)
    case _ => None
  }

  /** Whether this step is the one that runs the callback of launch `i`. */
  predicate Starts(st: State, step: Step, i: nat) {
    && step.Start? && step.i == i
    && Enabled(st, step)
    && !st.sched.tickets[st.launches[i].phase.ticket].Rejected?
    && StartError(st, i, step.late).None?
  }

  /** A delegation keeps its scope while it drains, and a new one gets a scope that did not exist before. */
  predicate DelegationEvolves(d: Delegation, d': Delegation, newScope: nat) {
    || d'.Idle?
    || (d.Idle? && d' == Working(newScope))
    || (!d.Idle? && d'.child == d.child && (d'.Working? ==> d.Working?) && (d'.Draining? ==> d.Working? || d == d'))
  }

  /** A step moves its own launch forward and leaves every other one alone. */
  ghost predicate ActorMoves(st: State, step: Step, i: nat, st': State)
    requires i < |st.launches|
  {
    && |st'.launches| == |st.launches|
    && st'.launches == st.launches[i := st'.launches[i]]
    && LaunchEvolves(st.launches[i], st'.launches[i])
    && DelegationEvolves(st.launches[i].delegation, st'.launches[i].delegation, |st.scopes|)
    && st'.launches[i].starts == st.launches[i].starts + (if Starts(st, step, i) then 1 else 0)
    && (Live(st'.launches[i]) ==> Live(st.launches[i]) || step.Run?)
    && (if step.WithChildren? then Weight(st'.launches[i]) == Weight(st.launches[i]) + 7
        else Weight(st'.launches[i]) < Weight(st.launches[i]))
    && (st'.launches[i].phase.ReturnJoin? || st'.launches[i].phase.ThrowJoin? ==> !st'.launches[i].delegation.Idle?)
    && (st'.launches[i].phase.ThrowJoin? ==> st.launches[i].phase.ThrowJoin? || Fired(st'.sched, LaunchSignal(i)))
  }

  ghost predicate JoinsPending(vs: seq<Invocation>) {
    forall i :: 0 <= i < |vs| && (vs[i].phase.ReturnJoin? || vs[i].phase.ThrowJoin?) ==> !vs[i].delegation.Idle?
  }

  /** A first run only queues the launch, or settles it as refused. */
  lemma RunLaunches(st: State, i: nat, late: bool)
    requires Enabled(st, Run(i, late))
    ensures var st' := AfterRun(st, i, late);
            && |st'.launches| == |st.launches| && st'.launches == st.launches[i := st'.launches[i]]
            && (st'.launches[i].phase.Awaiting? || st'.launches[i].phase.Settled?)
            && st'.launches[i] == st.launches[i].(phase := st'.launches[i].phase, launched := st'.launches[i].launched)
  {
    hide Sched.Acquire, OpenError;
  }

  lemma QueuedMoves(v: Invocation, v': Invocation, newScope: nat)
    requires PhaseOk(v) && v.phase.Created? && (v'.phase.Awaiting? || v'.phase.Settled?)
    requires v' == v.(phase := v'.phase, launched := v'.launched)
    ensures LaunchEvolves(v, v') && DelegationEvolves(v.delegation, v'.delegation, newScope)
    ensures Weight(v') < Weight(v)
  {}

  lemma RunMoves(st: State, i: nat, late: bool)
    requires Core(st) && Enabled(st, Run(i, late))
    ensures ActorMoves(st, Run(i, late), i, AfterRun(st, i, late))
  {
    LaunchOk(st, i);
    RunLaunches(st, i, late);
    QueuedMoves(st.launches[i], AfterRun(st, i, late).launches[i], |st.scopes|);
    hide Core, PhaseOk, AfterRun, LaunchEvolves, DelegationEvolves, Weight, Fired;
  }

  lemma CaughtMoves(v: Invocation, e: Error)
    requires PhaseOk(v) && (v.phase.Running? || v.phase.ReturnJoin?)
    ensures LaunchEvolves(v, Caught(v, e)) && Weight(Caught(v, e)) < Weight(v)
    ensures Caught(v, e).phase.ThrowJoin? ==> !v.delegation.Idle?
  {}

  lemma RefusedStartMoves(v: Invocation, e: Error)
    requires PhaseOk(v) && v.phase.Awaiting?
    ensures var v' := Caught(v.(permit := Some(v.phase.ticket)), e);
            && LaunchEvolves(v, v') && Weight(v') < Weight(v) && !Live(v') && v'.starts == v.starts
  {}

  lemma StartMoves(st: State, i: nat, late: bool)
    requires Core(st) && Enabled(st, Start(i, late))
    ensures ActorMoves(st, Start(i, late), i, AfterStart(st, i, late))
  {
    hide Core, Catch, Sched.Activate;
    LaunchOk(st, i);
    var v := st.launches[i];
    var refusal := StartError(st, i, late);
    if st.sched.tickets[v.phase.ticket].Rejected? {
    } else if refusal.Some? {
      RefusedStartKeepsCore(st, i, refusal.value);
      var granted := Set(st, i, v.(permit := Some(v.phase.ticket)));
      CatchKeeps(granted, i, refusal.value);
      RefusedStartMoves(v, refusal.value);
      hide StartError, TicketOk, PhaseOk, ResumeOk, DelegationOk, Sched.Valid, Caught, Record;
      assert AfterStart(st, i, late).launches ==
             st.launches[i := Caught(v.(permit := Some(v.phase.ticket)), refusal.value)];
    } else {
      hide StartError, TicketOk, ResumeOk, DelegationOk, Sched.Valid;
    }
  }

  /** What a returned callback leaves of its launch. */
  lemma ReturnedLaunch(v: Invocation, e: Error)
    requires PhaseOk(v) && v.phase.Running?
    ensures var v' := v.(phase := ReturnJoin);
            && LaunchEvolves(v, v') && Weight(v') < Weight(v)
            && (v.delegation.Idle? ==> SettledShape(v, Caught(v', e)))
            && (v.delegation.Idle? ==> SettledShape(v, v'.(phase := Settled(Ok), permit := None)))
  {}

  lemma ReturnedLaunches(st: State, i: nat)
    requires Core(st) && Enabled(st, CallbackReturns(i))
    ensures var v, st' := st.launches[i], AfterReturn(st, i);
            st'.launches == st.launches[i :=
              if !v.delegation.Idle? then v.(phase := ReturnJoin)
              else if v.delegationFailure.Some? then Caught(v.(phase := ReturnJoin), v.delegationFailure.value)
              else v.(phase := Settled(Ok), permit := None)]
  {
    hide Core, Catch, Abort, Finish, Advances;
    LaunchOk(st, i);
    var v := st.launches[i];
    var v' := v.(phase := ReturnJoin);
    AdvancePhase(st.scopes, v, v');
    MoveSame(st, i, v');
    hide PhaseOk, TicketOk, ResumeOk, DelegationOk;
    var returned := Set(st, i, v');
    AbortKeepsCore(returned, ResumeSignal(i), AgentReturned);
    AbortShape(returned, ResumeSignal(i), AgentReturned);
    var stopped := Abort(returned, ResumeSignal(i), AgentReturned);
    FinishShape(stopped, i, Ok);
    if v.delegation.Idle? && v.delegationFailure.Some? {
      ReadyToCatch(stopped, i, v.delegationFailure.value);
      CatchKeeps(stopped, i, v.delegationFailure.value);
    }
  }

  lemma ReturnMoves(st: State, i: nat)
    requires Core(st) && Enabled(st, CallbackReturns(i))
    ensures ActorMoves(st, CallbackReturns(i), i, AfterReturn(st, i))
  {
    hide Core, AfterReturn, Caught, Fired;
    LaunchOk(st, i);
    var v := st.launches[i];
    ReturnedLaunch(v, if v.delegationFailure.Some? then v.delegationFailure.value else AgentReturned);
    ReturnedLaunches(st, i);
    hide PhaseOk, TicketOk, ResumeOk, DelegationOk, LaunchEvolves, Weight;
  }

  lemma ThrowMoves(st: State, i: nat, e: Error)
    requires Core(st) && Enabled(st, CallbackThrows(i, e))
    ensures ActorMoves(st, CallbackThrows(i, e), i, Catch(st, i, e))
  {
    hide Core, Catch;
    LaunchOk(st, i);
    ReadyToCatch(st, i, e);
    CatchKeeps(st, i, e);
    CaughtMoves(st.launches[i], e);
  }

  predicate Delegates(step: Step) {
    step.WithChildren? || step.WorkReturns? || step.WorkThrows? || step.Drain? || step.Reenter? || step.Resume?
  }

  /** A delegation step changes its launch's delegation and permit only. */
  ghost predicate DelegationShape(st: State, step: Step, i: nat, st': State)
    requires i < |st.launches|
  {
    && |st'.launches| == |st.launches|
    && var v, v' := st.launches[i], st'.launches[i];
    && st'.launches == st.launches[i := v']
    && v' == v.(delegation := v'.delegation, permit := v'.permit)
    && DelegationEvolves(v.delegation, v'.delegation, |st.scopes|)
    && !v'.delegation.Idle?
    && (if step.WithChildren? then v.delegation.Idle? && v'.delegation.Working?
        else DelegationRank(v') < DelegationRank(v))
  }

  lemma WorkShapes(st: State, step: Step, i: nat)
    requires Enabled(st, step) && Actor(step) == Some(i)
    requires step.WithChildren? || step.WorkReturns? || step.WorkThrows? || step.Drain?
    ensures i < |st.launches| && DelegationShape(st, step, i, Next(st, step))
  {
    hide Sched.Release, Abort, DrainResult, Jobs, LiveError;
    if step.WorkThrows? {
      var c := st.launches[i].delegation.child;
      AbortShape(Record(st, c, step.error), ScopeSignal(c), Record(st, c, step.error).scopes[c].failure.value);
    }
  }

  lemma ReentryShapes(st: State, step: Step, i: nat)
    requires Enabled(st, step) && Actor(step) == Some(i) && (step.Reenter? || step.Resume?)
    ensures i < |st.launches| && DelegationShape(st, step, i, Next(st, step))
  {
    hide Sched.Release, Sched.Acquire, Sched.Activate, LiveError, DelegationShape;
    if step.Reenter? {
      ReenterShapes(st, i);
    } else {
      ResumeShapes(st, i);
    }
  }

  lemma ReenterShapes(st: State, i: nat)
    requires Enabled(st, Reenter(i))
    ensures DelegationShape(st, Reenter(i), i, AfterReenter(st, i))
  {
    hide Sched.Acquire, LiveError;
  }

  lemma ResumeShapes(st: State, i: nat)
    requires Enabled(st, Resume(i))
    ensures DelegationShape(st, Resume(i), i, AfterResume(st, i))
  {
    hide Sched.Release, Sched.Activate;
  }

  lemma ShapedMoves(st: State, step: Step, i: nat, st': State)
    requires i < |st.launches| && DelegationShape(st, step, i, st') && !step.Start?
    requires Live(st.launches[i])
    ensures ActorMoves(st, step, i, st')
  {
    hide DelegationEvolves, Fired;
  }

  lemma DelegationMoves(st: State, step: Step, i: nat)
    requires Core(st) && Enabled(st, step) && Actor(step) == Some(i) && Delegates(step)
    ensures ActorMoves(st, step, i, Next(st, step))
  {
    hide Core, Next, DelegationShape, ActorMoves;
    if step.Reenter? || step.Resume? {
      ReentryShapes(st, step, i);
    } else {
      WorkShapes(st, step, i);
    }
    LaunchOk(st, i);
    hide TicketOk, ResumeOk, DelegationOk, Sched.Valid;
    ShapedMoves(st, step, i, Next(st, step));
  }

  /** What settling leaves of the launch. */
  ghost predicate SettledShape(v: Invocation, v': Invocation) {
    && LaunchEvolves(v, v') && v'.delegation.Idle? && v'.starts == v.starts
    && (Live(v') ==> Live(v)) && Weight(v') < Weight(v)
    && !v'.phase.ReturnJoin? && !v'.phase.ThrowJoin?
  }

  lemma SettledLaunch(v: Invocation, e: Error, outcome: Outcome)
    requires PhaseOk(v) && v.delegation.Settling?
    ensures var idle := Remember(v.(delegation := Idle), v.delegation.result);
            && (v.phase.Running? ==> SettledShape(v, idle))
            && (v.phase.ReturnJoin? ==> SettledShape(v, Caught(idle, e)))
            && (v.phase.ReturnJoin? || v.phase.ThrowJoin? ==>
                  SettledShape(v, idle.(phase := Settled(outcome), permit := None)))
  {}

  /** The error a settled delegation ends its returned callback with, if it does. */
  function JoinError(v: Invocation): Error {
    if v.delegation.Settling? && v.delegation.result.Fail? then v.delegation.result.error
    else if v.delegationFailure.Some? then v.delegationFailure.value
    else ScopeClosed
  }

  lemma SettledLaunches(st: State, i: nat)
    requires Core(st) && Enabled(st, SettleDelegation(i))
    ensures var v, st' := st.launches[i], AfterSettle(st, i);
            var idle := Remember(v.(delegation := Idle), v.delegation.result);
            st'.launches == st.launches[i :=
              match v.phase
              case ReturnJoin =>
                if v.delegation.result.Fail? || v.delegationFailure.Some? then Caught(idle, JoinError(v))
                else idle.(phase := Settled(Ok), permit := None)
              case ThrowJoin(e) => idle.(phase := Settled(Fail(e)), permit := None)
              case _ => idle]
  {
    hide Core, Catch, Finish, Advances;
    LaunchOk(st, i);
    var v := st.launches[i];
    var v' := Remember(v.(delegation := Idle), v.delegation.result);
    AdvanceDelegation(st.scopes, v, v');
    MoveSame(st, i, v');
    hide PhaseOk, TicketOk, ResumeOk, DelegationOk, Caught;
    var idle := Set(st, i, v');
    if v.phase.ReturnJoin? && (v.delegation.result.Fail? || v.delegationFailure.Some?) {
      ReadyToCatch(idle, i, JoinError(v));
      CatchKeeps(idle, i, JoinError(v));
    } else if v.phase.ReturnJoin? {
      FinishShape(idle, i, Ok);
    } else if v.phase.ThrowJoin? {
      FinishShape(idle, i, Fail(v.phase.cause));
    }
  }

  lemma SettleMoves(st: State, i: nat)
    requires Core(st) && Enabled(st, SettleDelegation(i))
    ensures ActorMoves(st, SettleDelegation(i), i, AfterSettle(st, i))
  {
    hide Core, AfterSettle, Caught, Fired, Remember;
    LaunchOk(st, i);
    var v := st.launches[i];
    SettledLaunch(v, JoinError(v), if v.phase.ThrowJoin? then Fail(v.phase.cause) else Ok);
    DelegatingIsLive(v);
    SettledLaunches(st, i);
    hide PhaseOk, TicketOk, ResumeOk, DelegationOk, LaunchEvolves, Weight, JoinError;
  }

  lemma DelegatingIsLive(v: Invocation)
    requires PhaseOk(v) && v.delegation.Settling?
    ensures v.phase.Running? || v.phase.ReturnJoin? || v.phase.ThrowJoin?
  {}

  lemma ObservedLaunch(v: Invocation)
    requires PhaseOk(v) && v.phase.Settled?
    ensures SettledShape(v, v.(phase := Observed(v.phase.outcome)))
    ensures v.delegation.Idle?
  {}

  lemma ObservedLaunches(st: State, i: nat)
    requires Enabled(st, Observe(i))
    ensures AfterObserve(st, i).launches
         == st.launches[i := st.launches[i].(phase := Observed(st.launches[i].phase.outcome))]
  {
    hide FailScope;
    if st.launches[i].phase.outcome.Fail? {
      var seen := Set(st, i, st.launches[i].(phase := Observed(st.launches[i].phase.outcome)));
      FailScopeShape(seen, st.launches[i].scope, st.launches[i].phase.outcome.error);
    }
  }

  lemma ObserveMoves(st: State, i: nat)
    requires Core(st) && Enabled(st, Observe(i))
    ensures ActorMoves(st, Observe(i), i, AfterObserve(st, i))
  {
    hide Core, AfterObserve, Fired;
    LaunchOk(st, i);
    ObservedLaunch(st.launches[i]);
    ObservedLaunches(st, i);
    hide PhaseOk, TicketOk, ResumeOk, DelegationOk, LaunchEvolves, Weight;
  }

  lemma FailScopeShape(st: State, s: nat, e: Error)
    requires s < |st.scopes|
    ensures SameButStopped(st, FailScope(st, s, e))
    ensures FailScope(st, s, e).scopes == Record(st, s, e).scopes
  {}

  lemma StepMoves(st: State, step: Step, i: nat)
    requires Core(st) && Enabled(st, step) && Actor(step) == Some(i)
    ensures i < |st.launches|
    ensures ActorMoves(st, step, i, Next(st, step))
  {
    hide Core, ActorMoves, Catch, AfterRun, AfterStart, AfterReturn, AfterResume,
         AfterSettle, AfterReenter, AfterObserve;
    match step {
      case Run(_, late) => RunMoves(st, i, late);
      case Start(_, late) => StartMoves(st, i, late);
      case CallbackReturns(_) => ReturnMoves(st, i);
      case CallbackThrows(_, e) => ThrowMoves(st, i, e);
      case SettleDelegation(_) => SettleMoves(st, i);
      case Observe(_) => ObserveMoves(st, i);
      case _ => DelegationMoves(st, step, i);
    }
  }

  // ---- every step, every run ----

  /** What a step that neither closes the root nor opens a scope does to scopes and signals. */
  ghost predicate Frame(st: State, st': State) {
    && |st.scopes| <= |st'.scopes|
    && (forall s :: 0 <= s < |st.scopes| ==> ScopeEvolves(st.scopes[s], st'.scopes[s]))
    && FiredStay(st, st')
    && st'.closed == st.closed && st'.closings == st.closings
  }

  lemma SameFiredFrame(st: State, st': State)
    requires st'.scopes == st.scopes && st'.sched.aborted == st.sched.aborted
    requires st'.closed == st.closed && st'.closings == st.closings
    ensures Frame(st, st')
  {}

  lemma RecordFrame(st: State, s: nat, e: Error, st': State)
    requires s < |st.scopes| && st'.scopes == Record(st, s, e).scopes && FiredStay(st, st')
    requires st'.closed == st.closed && st'.closings == st.closings
    ensures Frame(st, st')
  {}

  lemma FrameCompose(a: State, b: State, c: State)
    requires Frame(a, b) && Frame(b, c)
    ensures Frame(a, c)
  {
    forall s | 0 <= s < |a.scopes|
      ensures ScopeEvolves(a.scopes[s], c.scopes[s])
    {
      assert ScopeEvolves(a.scopes[s], b.scopes[s]) && ScopeEvolves(b.scopes[s], c.scopes[s]);
    }
    forall sig | Fired(a.sched, sig)
      ensures Fired(c.sched, sig) && c.sched.aborted[sig] == a.sched.aborted[sig]
    {
      assert Fired(b.sched, sig);
    }
  }

  lemma StartFrame(st: State, i: nat, late: bool)
    requires Core(st) && Enabled(st, Start(i, late))
    ensures Frame(st, AfterStart(st, i, late))
  {
    hide Core, Catch, Frame;
    LaunchOk(st, i);
    var v := st.launches[i];
    var refusal := StartError(st, i, late);
    if st.sched.tickets[v.phase.ticket].Rejected? {
      SameFiredFrame(st, AfterStart(st, i, late));
    } else if refusal.Some? {
      RefusedStartKeepsCore(st, i, refusal.value);
      var granted := Set(st, i, v.(permit := Some(v.phase.ticket)));
      CatchKeeps(granted, i, refusal.value);
      RecordFrame(granted, v.scope, refusal.value, Catch(granted, i, refusal.value));
      SameFiredFrame(st, granted);
      FrameCompose(st, granted, Catch(granted, i, refusal.value));
    } else {
      Sched.ActivateKeeps(st.sched, v.phase.ticket);
      SameFiredFrame(st, AfterStart(st, i, late));
    }
  }

  lemma AcquireFrame(st: State, i: nat, late: bool, st': State)
    requires Core(st)
    requires (Enabled(st, Run(i, late)) && st' == AfterRun(st, i, late))
             || (Enabled(st, Reenter(i)) && st' == AfterReenter(st, i))
    ensures Frame(st, st')
  {
    hide Core, Frame;
    LaunchOk(st, i);
    Sched.AcquireKeeps(st.sched, ScopeSignal(st.launches[i].scope));
    Sched.AcquireKeeps(st.sched, ResumeSignal(i));
    SameFiredFrame(st, st');
  }

  lemma ReleaseFrame(st: State, i: nat, st': State)
    requires Core(st)
    requires Enabled(st, Resume(i)) && st' == AfterResume(st, i)
    ensures Frame(st, st')
  {
    hide Core, Frame;
    LaunchOk(st, i);
    var t := st.launches[i].delegation.ticket;
    if st.sched.tickets[t].Granted? {
      Sched.ReleaseKeeps(st.sched, t);
      Sched.ActivateKeeps(st.sched, t);
    }
    SameFiredFrame(st, st');
  }

  lemma CatchFrame(st: State, i: nat, e: Error)
    requires Core(st) && Is(st, i) && (st.launches[i].phase.Running? || st.launches[i].phase.ReturnJoin?)
    ensures Frame(st, Catch(st, i, e))
  {
    hide Core, Frame, Catch;
    ReadyToCatch(st, i, e);
    CatchKeeps(st, i, e);
    RecordFrame(st, st.launches[i].scope, e, Catch(st, i, e));
  }

  lemma FinishFrame(st: State, i: nat, outcome: Outcome)
    requires Core(st) && Is(st, i)
    requires var v := st.launches[i];
             && v.delegation.Idle? && (v.phase.ReturnJoin? || v.phase.ThrowJoin?)
             && (outcome.Ok? ==> v.starts == 1 && v.delegationFailure.None?)
    ensures Frame(st, Finish(st, i, outcome))
  {
    hide Core, Frame;
    FinishKeeps(st, i, outcome);
    SameFiredFrame(st, Finish(st, i, outcome));
  }

  lemma ReturnFrame(st: State, i: nat)
    requires Core(st) && Enabled(st, CallbackReturns(i))
    ensures Frame(st, AfterReturn(st, i))
  {
    hide Core, Catch, Abort, Finish, Frame;
    LaunchOk(st, i);
    var v := st.launches[i];
    var v' := v.(phase := ReturnJoin);
    AdvancePhase(st.scopes, v, v');
    MoveSame(st, i, v');
    var returned := Set(st, i, v');
    AbortKeepsCore(returned, ResumeSignal(i), AgentReturned);
    var stopped := Abort(returned, ResumeSignal(i), AgentReturned);
    AbortShape(returned, ResumeSignal(i), AgentReturned);
    StoppedFrame(st, stopped);
    if v.delegation.Idle? && v.delegationFailure.Some? {
      CatchFrame(stopped, i, v.delegationFailure.value);
      FrameCompose(st, stopped, Catch(stopped, i, v.delegationFailure.value));
    } else if v.delegation.Idle? {
      FinishFrame(stopped, i, Ok);
      FrameCompose(st, stopped, Finish(stopped, i, Ok));
    }
  }

  lemma StoppedFrame(st: State, st': State)
    requires st'.scopes == st.scopes && FiredStay(st, st')
    requires st'.closed == st.closed && st'.closings == st.closings
    ensures Frame(st, st')
  {}

  lemma SettleFrame(st: State, i: nat)
    requires Core(st) && Enabled(st, SettleDelegation(i))
    ensures Frame(st, AfterSettle(st, i))
  {
    hide Core, Catch, Finish, Frame;
    LaunchOk(st, i);
    var v := st.launches[i];
    var result := v.delegation.result;
    var v' := Remember(v.(delegation := Idle), result);
    AdvanceDelegation(st.scopes, v, v');
    MoveSame(st, i, v');
    var idle := Set(st, i, v');
    SameFiredFrame(st, idle);
    match v.phase {
      case ReturnJoin =>
        if result.Fail? || v.delegationFailure.Some? {
          var e := if result.Fail? then result.error else v.delegationFailure.value;
          CatchFrame(idle, i, e);
          FrameCompose(st, idle, Catch(idle, i, e));
        } else {
          FinishFrame(idle, i, Ok);
          FrameCompose(st, idle, Finish(idle, i, Ok));
        }
      case ThrowJoin(e) =>
        FinishFrame(idle, i, Fail(e));
        FrameCompose(st, idle, Finish(idle, i, Fail(e)));
      case _ =>
    }
  }

  lemma ObserveFrame(st: State, i: nat)
    requires Core(st) && Enabled(st, Observe(i))
    ensures Frame(st, AfterObserve(st, i))
  {
    hide Core, Frame;
    LaunchOk(st, i);
    var v := st.launches[i];
    var seen := Set(st, i, v.(phase := Observed(v.phase.outcome)));
    SameFiredFrame(st, seen);
    if v.phase.outcome.Fail? {
      ObserveKeepsFired(st, i);
      FailScopeShape(seen, v.scope, v.phase.outcome.error);
      RecordFrame(seen, v.scope, v.phase.outcome.error, AfterObserve(st, i));
      FrameCompose(st, seen, AfterObserve(st, i));
    }
  }

  lemma ObserveKeepsFired(st: State, i: nat)
    requires Core(st) && Enabled(st, Observe(i)) && st.launches[i].phase.outcome.Fail?
    ensures FiredStay(st, AfterObserve(st, i))
  {
    hide Core;
    var v := st.launches[i];
    FailScopeKeeps(st, v.scope, v.phase.outcome.error);
    ObserveCommutes(st, i, v.(phase := Observed(v.phase.outcome)));
  }

  lemma WorkFrame(st: State, i: nat, e: Error)
    requires Core(st) && Enabled(st, WorkThrows(i, e))
    ensures Frame(st, AfterWorkThrows(st, i, e))
  {
    hide Core, Abort, Jobs;
    var c := st.launches[i].delegation.child;
    var failed := Record(st, c, e);
    RecordAndStopKeeps(st, c, e, failed.scopes[c].failure.value);
  }

  lemma OpenFrame(st: State, i: nat)
    requires Core(st) && Enabled(st, WithChildren(i))
    ensures Frame(st, AfterWithChildren(st, i))
  {
    WithChildrenAdmission(st, i);
    hide Core, Sched.Release;
  }

  lemma StepFrame(st: State, step: Step)
    requires Core(st) && Enabled(st, step) && !step.Close?
    ensures Frame(st, Next(st, step))
  {
    hide Core, Frame, Catch, AfterRun, AfterStart, AfterReturn, AfterResume, AfterSettle, AfterReenter, AfterObserve,
      AfterWorkThrows, AfterWithChildren, Abort, CloseScope;
    match step {
      case Run(i, late) => AcquireFrame(st, i, late, Next(st, step));
      case Start(i, late) => StartFrame(st, i, late);
      case CallbackReturns(i) => ReturnFrame(st, i);
      case CallbackThrows(i, e) => CatchFrame(st, i, e);
      case WithChildren(i) => OpenFrame(st, i);
      case WorkReturns(i) => CloseScopeFrame(st, i, Ok);
      case WorkThrows(i, e) => WorkFrame(st, i, e);
      case Reenter(i) => AcquireFrame(st, i, false, Next(st, step));
      case Resume(i) => ReleaseFrame(st, i, Next(st, step));
      case SettleDelegation(i) => SettleFrame(st, i);
      case Observe(i) => ObserveFrame(st, i);
      case Cancel(reason) =>
        AbortKeepsCore(st, ScopeSignal(0), reason);
        AbortShape(st, ScopeSignal(0), reason);
        StoppedFrame(st, Next(st, step));
      case CreateInvocation(_, _, _) => SameFiredFrame(st, Next(st, step));
      case Drain(_) => SameFiredFrame(st, Next(st, step));
      case Reserve(_) => SameFiredFrame(st, Next(st, step));
      case ReleaseReservation(_) => SameFiredFrame(st, Next(st, step));
      case Close(_) => assert false;
    }
  }

  lemma CloseScopeFrame(st: State, i: nat, work: Outcome)
    requires Is(st, i) && st.launches[i].delegation.Working? && st.launches[i].delegation.child < |st.scopes|
    ensures Frame(st, CloseScope(st, i, work))
  {
    hide Jobs;
  }

  /** Every state is a later stage of the one before it. */
  lemma StepEvolves(st: State, step: Step)
    requires Core(st) && Enabled(st, step)
    ensures Evolves(st, Next(st, step))
  {
    hide Core, Next, LaunchEvolves, ScopeEvolves;
    LaunchesEvolve(st, step);
    if step.Close? {
      CloseEvolves(st, step.reason);
    } else {
      StepFrame(st, step);
    }
  }

  lemma LaunchesEvolve(st: State, step: Step)
    requires Core(st) && Enabled(st, step)
    ensures |st.launches| <= |Next(st, step).launches|
    ensures forall i :: 0 <= i < |st.launches| ==> LaunchEvolves(st.launches[i], Next(st, step).launches[i])
  {
    hide Core, Next, LaunchEvolves, DelegationEvolves, Weight, Starts, Fired, Enabled;
    if Actor(step).Some? {
      StepMoves(st, step, Actor(step).value);
    } else {
      SpectatorStep(st, step);
    }
    forall v: Invocation
      ensures LaunchEvolves(v, v)
    {
      EvolvesItself(v);
    }
  }

  lemma EvolvesItself(v: Invocation)
    ensures LaunchEvolves(v, v)
  {}

  lemma CloseEvolves(st: State, reason: Error)
    requires Core(st) && Enabled(st, Close(reason))
    ensures var st' := Next(st, Close(reason));
            && |st.scopes| == |st'.scopes|
            && (forall s :: 0 <= s < |st.scopes| ==> ScopeEvolves(st.scopes[s], st'.scopes[s]))
            && FiredStay(st, st') && st'.closed
            && |st.closings| <= |st'.closings|
            && forall k :: 0 <= k < |st.closings| ==> st'.closings[k] == st.closings[k]
  {
    hide Core, Abort;
    AbortKeepsCore(st, ScopeSignal(0), reason);
    AbortShape(st, ScopeSignal(0), reason);
  }

  /** A step that is about no launch leaves the launches as they are, or adds one. */
  lemma SpectatorStep(st: State, step: Step)
    requires Enabled(st, step) && Actor(step).None?
    ensures Next(st, step).launches ==
            if step.CreateInvocation?
            then st.launches
                 + [Invocation(step.scope, step.kind, step.reservation, Created, false, 0, None, Idle, None)]
            else st.launches
  {
    if step.Cancel? || step.Close? {
      AbortShape(st, ScopeSignal(0), step.reason);
    }
  }

  // ---- weights ----

  lemma {:induction false} WeightUpdate(vs: seq<Invocation>, i: nat, v: Invocation)
    requires i < |vs|
    ensures TotalWeight(vs[i := v]) == TotalWeight(vs) - Weight(vs[i]) + Weight(v)
  {
    var last := |vs| - 1;
    if i == last {
      assert vs[i := v][..last] == vs[..last];
    } else {
      assert vs[i := v][..last] == vs[..last][i := v];
      WeightUpdate(vs[..last], i, v);
    }
  }

  lemma WeightAppend(vs: seq<Invocation>, v: Invocation)
    ensures TotalWeight(vs + [v]) == TotalWeight(vs) + Weight(v)
  {
    assert (vs + [v])[..|vs|] == vs;
  }

  /** The work a caller adds: an invocation, a delegation, or a single call on the root. */
  function Credit(step: Step): nat {
    match step
    case CreateInvocation(_, _, _) => 57
    case WithChildren(_) => 8
    case Cancel(_) => 1
    case Close(_) => 1
    case Reserve(_) => 1
    case ReleaseReservation(_) => 1
    case _ => 0
  }

  /** Every step uses up work: what is left plus this step is covered by what was left and what the step added. */
  lemma StepUsesWork(st: State, step: Step)
    requires Core(st) && Enabled(st, step)
    ensures TotalWeight(Next(st, step).launches) + 1 <= TotalWeight(st.launches) + Credit(step)
  {
    hide Core, Next;
    if Actor(step).Some? {
      var i := Actor(step).value;
      StepMoves(st, step, i);
      WeightUpdate(st.launches, i, Next(st, step).launches[i]);
    } else {
      SpectatorStep(st, step);
      if step.CreateInvocation? {
        WeightAppend(st.launches,
                   Invocation(step.scope, step.kind, step.reservation, Created, false, 0, None, Idle, None));
      }
    }
  }
}
