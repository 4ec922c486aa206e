/**
 The execution root (execution-state.ts) as a transition system.

 One step is the code between two awaits: a caller's synchronous call, or one promise
 continuation. Callers are arbitrary. Anyone may call `run` on any invocation, open a
 scope through any lease and create through any scope, in any order and at any time,
 including through objects kept after their owner finished; a call the source refuses
 changes nothing and is not a step. Callbacks return or throw whenever they like.
 */
module ExecutionState {
  import opened Wrappers
  import Budget = ExecutionBudget
  import Sched = ExecutionScheduler

  /** An error thrown by a callback or given as an abort reason, or one of the root's own. */
  datatype Error =
    | Cause(id: nat)
    | ScopeClosed
    | AgentReturned
    | Refused(error: Budget.BudgetError)

  datatype Outcome = Ok | Fail(error: Error)

  /** Every abort signal of the root: a scope's, a launch's, and the one a queued re-entry waits on. */
  datatype Signal = ScopeSignal(scope: nat) | LaunchSignal(launch: nat) | ResumeSignal(launch: nat)

  /**
   Where `execute` stands. `Settled` is a job whose promise has settled; `Observed` one
   whose observer has also removed it from its scope's jobs.
   */
  datatype Phase =
    | Created
    | Awaiting(ticket: nat)
    | Running
    | ReturnJoin
    | ThrowJoin(cause: Error)
    | Settled(outcome: Outcome)
    | Observed(outcome: Outcome)

  /** Where one `withChildren` call stands, from its callback to the settling of its promise. */
  datatype Delegation =
    | Idle
    | Working(child: nat)
    | Draining(child: nat, joined: set<nat>, work: Outcome)
    | Drained(child: nat, result: Outcome)
    | Reentering(child: nat, result: Outcome, ticket: nat)
    | Settling(child: nat, result: Outcome)

  /** `launched` says that `run` was called while the scope was open, so the scope owns the job. */
  datatype Invocation = Invocation(
    scope: nat,
    kind: Budget.Kind,
    reservation: Option<Budget.Reservation>,
    phase: Phase,
    launched: bool,
    starts: nat,
    permit: Option<nat>,
    delegation: Delegation,
    delegationFailure: Option<Error>)

  /** Scope 0 is the root; every other one was opened by the launch that owns it. */
  datatype Scope = Scope(owner: Option<nat>, closed: bool, failure: Option<Error>)

  /** `closings` holds the root jobs each `close()` call joins. */
  datatype State = State(
    scopes: seq<Scope>,
    launches: seq<Invocation>,
    sched: Sched.Sched<Signal, Error>,
    ledger: Budget.Ledger,
    closed: bool,
    closings: seq<set<nat>>)

  function Initial(concurrency: nat, totalAgents: Option<nat>): State {
    State([Scope(None, false, None)], [], Sched.Initial(concurrency), Budget.Initial(totalAgents), false, [])
  }

  // ---- signals ----

  predicate Aborted(st: State, sig: Signal) {
    sig in st.sched.aborted
  }

  function Reason(st: State, sig: Signal): Error
    requires Aborted(st, sig)
  {
    st.sched.aborted[sig]
  }

  function ScopeOf(st: State, sig: Signal): nat {
    match sig
    case ScopeSignal(s) => s
    case LaunchSignal(i) => if i < |st.launches| then st.launches[i].scope else 0
    case ResumeSignal(i) => if i < |st.launches| then st.launches[i].scope else 0
  }

  /** A signal follows the one of its scope, launch or opener, and so on up to the root. */
  predicate DependsOn(st: State, sig: Signal, target: Signal)
    decreases ScopeOf(st, sig), match sig case ScopeSignal(_) => 0 case LaunchSignal(_) => 1 case ResumeSignal(_) => 2
  {
    sig == target
    || match sig
       case ScopeSignal(s) =>
         && s < |st.scopes| && st.scopes[s].owner.Some? && st.scopes[s].owner.value < |st.launches|
         && st.launches[st.scopes[s].owner.value].scope < s
         && DependsOn(st, LaunchSignal(st.scopes[s].owner.value), target)
       case LaunchSignal(i) => i < |st.launches| && DependsOn(st, ScopeSignal(st.launches[i].scope), target)
       case ResumeSignal(i) => DependsOn(st, LaunchSignal(i), target)
  }

  predicate Exists(st: State, sig: Signal) {
    match sig
    case ScopeSignal(s) => s < |st.scopes|
    case LaunchSignal(i) => i < |st.launches|
    case ResumeSignal(i) => i < |st.launches|
  }

  function Dependents(st: State, target: Signal): (signals: set<Signal>)
    ensures forall sig :: sig in signals <==> Exists(st, sig) && DependsOn(st, sig, target)
  {
    (set s | 0 <= s < |st.scopes| && DependsOn(st, ScopeSignal(s), target) :: ScopeSignal(s))
    + (set i | 0 <= i < |st.launches| && DependsOn(st, LaunchSignal(i), target) :: LaunchSignal(i))
    + (set i | 0 <= i < |st.launches| && DependsOn(st, ResumeSignal(i), target) :: ResumeSignal(i))
  }

  function Abort(st: State, target: Signal, reason: Error): State {
    st.(sched := Sched.Abort(st.sched, Dependents(st, target), reason))
  }

  // ---- the pieces steps are made of ----

  predicate Is(st: State, i: nat) {
    i < |st.launches| && st.launches[i].scope < |st.scopes|
  }

  function Set(st: State, i: nat, v: Invocation): State
    requires i < |st.launches|
  {
    st.(launches := st.launches[i := v])
  }

  /** The first failure of a scope is the one it keeps. */
  function Record(st: State, s: nat, e: Error): State
    requires s < |st.scopes|
  {
    if st.scopes[s].failure.Some? then st
    else st.(scopes := st.scopes[s := st.scopes[s].(failure := Some(e))])
  }

  /** A nested scope stops everything below it on its first failure; the root has no stop controller. */
  function FailScope(st: State, s: nat, e: Error): State
    requires s < |st.scopes|
  {
    if st.scopes[s].failure.Some? then st
    else if st.scopes[s].owner.None? then Record(st, s, e)
    else Abort(Record(st, s, e), ScopeSignal(s), e)
  }

  /** The `finally` of `execute`: give the permit back if one is held, then settle the job. */
  function Finish(st: State, i: nat, outcome: Outcome): State
    requires i < |st.launches|
  {
    var v := st.launches[i];
    var settled := Set(st, i, v.(phase := Settled(outcome), permit := None));
    if v.permit.None? then settled else settled.(sched := Sched.Release(settled.sched, v.permit.value))
  }

  /** The `catch` of `execute`: stop the scope and the launch first, and only then free the permit. */
  function Catch(st: State, i: nat, e: Error): State
    requires Is(st, i)
  {
    var thrown := Set(st, i, st.launches[i].(phase := ThrowJoin(e)));
    var stopped := Abort(FailScope(thrown, st.launches[i].scope, e), LaunchSignal(i), e);
    if st.launches[i].delegation.Idle? then Finish(stopped, i, Fail(e)) else stopped
  }

  predicate Pending(v: Invocation) {
    !v.phase.Created? && !v.phase.Observed?
  }

  /** The jobs a scope still has to join. */
  function Jobs(st: State, s: nat): set<nat> {
    set i | 0 <= i < |st.launches| && st.launches[i].scope == s && Pending(st.launches[i]) :: i
  }

  /** `assertLive`: the error it throws, if any. */
  function LiveError(st: State, sig: Signal): Option<Error> {
    if Aborted(st, sig) then Some(Reason(st, sig))
    else if st.closed then Some(ScopeClosed)
    else None
  }

  function OpenError(st: State, s: nat): Option<Error>
    requires s < |st.scopes|
  {
    if LiveError(st, ScopeSignal(s)).Some? then LiveError(st, ScopeSignal(s))
    else if st.scopes[s].closed then Some(ScopeClosed)
    else None
  }

  // ---- steps ----

  datatype Step =
    | CreateInvocation(scope: nat, kind: Budget.Kind, reservation: Option<Budget.Reservation>)
    | Run(i: nat, late: bool)
    | Start(i: nat, late: bool)
    | CallbackReturns(i: nat)
    | CallbackThrows(i: nat, error: Error)
    | WithChildren(i: nat)
    | WorkReturns(i: nat)
    | WorkThrows(i: nat, error: Error)
    | Drain(i: nat)
    | Reenter(i: nat)
    | Resume(i: nat)
    | SettleDelegation(i: nat)
    | Observe(i: nat)
    | Cancel(reason: Error)
    | Close(reason: Error)
    | Reserve(count: int)
    | ReleaseReservation(r: Budget.Reservation)

  predicate Answered(st: State, t: nat) {
    t < |st.sched.tickets| && !st.sched.tickets[t].Waiting?
  }

  /** When the source takes the step. `late` is what the deadline check finds, for any clock. */
  predicate Enabled(st: State, step: Step) {
    match step
    case CreateInvocation(s, kind, r) =>
      s < |st.scopes| && OpenError(st, s).None? && Budget.Allocate(st.ledger, kind, r).Success?
    case Run(i, _) => Is(st, i) && st.launches[i].kind.Fresh? && st.launches[i].phase.Created?
    case Start(i, _) => Is(st, i) && st.launches[i].phase.Awaiting? && Answered(st, st.launches[i].phase.ticket)
    case CallbackReturns(i) => Is(st, i) && st.launches[i].phase.Running?
    case CallbackThrows(i, _) => Is(st, i) && st.launches[i].phase.Running?
    case WithChildren(i) =>
      && Is(st, i) && st.launches[i].phase.Running? && st.launches[i].delegation.Idle?
      && LiveError(st, LaunchSignal(i)).None? && st.launches[i].permit.Some?
    case WorkReturns(i) => Is(st, i) && st.launches[i].delegation.Working?
      && st.launches[i].delegation.child < |st.scopes|
    case WorkThrows(i, _) => Is(st, i) && st.launches[i].delegation.Working?
      && st.launches[i].delegation.child < |st.scopes|
    case Drain(i) =>
      && Is(st, i) && st.launches[i].delegation.Draining? && st.launches[i].delegation.child < |st.scopes|
      && forall j :: j in st.launches[i].delegation.joined ==> j < |st.launches| && st.launches[j].phase.Observed?
    case Reenter(i) => Is(st, i) && st.launches[i].delegation.Drained?
    case Resume(i) => Is(st, i) && st.launches[i].delegation.Reentering?
      && Answered(st, st.launches[i].delegation.ticket)
    case SettleDelegation(i) => Is(st, i) && st.launches[i].delegation.Settling?
    case Observe(i) => Is(st, i) && st.launches[i].phase.Settled?
    case Cancel(_) => |st.scopes| > 0
    case Close(_) => |st.scopes| > 0
    case Reserve(count) => Budget.Reserve(st.ledger, count).Success?
    case ReleaseReservation(r) => Budget.Release(st.ledger, r).Success?
  }

  function AfterCreate(st: State, s: nat, kind: Budget.Kind, r: Option<Budget.Reservation>): State
    requires Enabled(st, CreateInvocation(s, kind, r))
  {
    st.(ledger := Budget.Allocate(st.ledger, kind, r).value,
        launches := st.launches + [Invocation(s, kind, r, Created, false, 0, None, Idle, None)])
  }

  /** `run`: refuse at once, or ask for a permit. */
  function AfterRun(st: State, i: nat, late: bool): State
    requires Enabled(st, Run(i, late))
  {
    var v := st.launches[i].(launched := !st.scopes[st.launches[i].scope].closed);
    var refusal := OpenError(st, v.scope);
    if refusal.Some? then Set(st, i, v.(phase := Settled(Fail(refusal.value))))
    else if late then Set(st, i, v.(phase := Settled(Fail(Refused(Budget.DeadlinePassed)))))
    else
      Set(st, i, v.(phase := Awaiting(|st.sched.tickets|)))
      .(sched := Sched.Acquire(st.sched, ScopeSignal(v.scope)))
  }

  /** What keeps a granted launch from starting. */
  function StartError(st: State, i: nat, late: bool): Option<Error>
    requires Is(st, i)
  {
    var v := st.launches[i];
    if LiveError(st, ScopeSignal(v.scope)).Some? then LiveError(st, ScopeSignal(v.scope))
    else if late then Some(Refused(Budget.DeadlinePassed))
    else
      match Budget.Charge(st.ledger, v.reservation)
      case Failure(e) => Some(Refused(e))
      case Success(_) => None
  }

  /** The permit promise answered: check again, charge once, start the callback. */
  function AfterStart(st: State, i: nat, late: bool): State
    requires Enabled(st, Start(i, late))
  {
    var v := st.launches[i];
    var t := v.phase.ticket;
    if st.sched.tickets[t].Rejected? then Set(st, i, v.(phase := Settled(Fail(st.sched.tickets[t].reason))))
    else
      var refusal := StartError(st, i, late);
      if refusal.Some? then Catch(Set(st, i, v.(permit := Some(t))), i, refusal.value)
      else
        Set(st, i, v.(phase := Running, permit := Some(t), starts := v.starts + 1))
        .(ledger := Budget.Charge(st.ledger, v.reservation).value, sched := Sched.Activate(st.sched, t))
  }

  /** A returned callback needs no permit: its queued re-entry is cancelled, a running delegation joined. */
  function AfterReturn(st: State, i: nat): State
    requires Enabled(st, CallbackReturns(i))
  {
    var v := st.launches[i];
    var stopped := Abort(Set(st, i, v.(phase := ReturnJoin)), ResumeSignal(i), AgentReturned);
    if !v.delegation.Idle? then stopped
    else if v.delegationFailure.Some? then Catch(stopped, i, v.delegationFailure.value)
    else Finish(stopped, i, Ok)
  }

  /** `withChildren`: yield the permit and open a child scope. */
  function AfterWithChildren(st: State, i: nat): State
    requires Enabled(st, WithChildren(i))
  {
    var v := st.launches[i];
    Set(st, i, v.(permit := None, delegation := Working(|st.scopes|)))
    .(sched := Sched.Release(st.sched, v.permit.value),
      scopes := st.scopes + [Scope(Some(i), false, None)])
  }

  /** The child callback finished: close the scope and take stock of the jobs to join. */
  function CloseScope(st: State, i: nat, work: Outcome): State
    requires Is(st, i) && st.launches[i].delegation.Working? && st.launches[i].delegation.child < |st.scopes|
  {
    var c := st.launches[i].delegation.child;
    Set(st, i, st.launches[i].(delegation := Draining(c, Jobs(st, c), work)))
    .(scopes := st.scopes[c := st.scopes[c].(closed := true)])
  }

  function AfterWorkThrows(st: State, i: nat, e: Error): State
    requires Enabled(st, WorkThrows(i, e))
  {
    var c := st.launches[i].delegation.child;
    var failed := Record(st, c, e);
    CloseScope(Abort(failed, ScopeSignal(c), failed.scopes[c].failure.value), i, Fail(e))
  }

  /** What `delegate` settles with once every joined job is done. */
  function DrainResult(st: State, c: nat, work: Outcome): Outcome
    requires c < |st.scopes|
  {
    if st.scopes[c].failure.Some? then Fail(st.scopes[c].failure.value)
    else if work.Fail? then work
    else if Aborted(st, ScopeSignal(c)) then Fail(Reason(st, ScopeSignal(c)))
    else Ok
  }

  function AfterDrain(st: State, i: nat): State
    requires Enabled(st, Drain(i))
  {
    var v := st.launches[i];
    var d := v.delegation;
    Set(st, i, v.(delegation := Drained(d.child, DrainResult(st, d.child, d.work))))
  }

  /** The scope has drained: a callback still running asks for its permit back. */
  function AfterReenter(st: State, i: nat): State
    requires Enabled(st, Reenter(i))
  {
    var v := st.launches[i];
    var d := v.delegation;
    if !v.phase.Running? then Set(st, i, v.(delegation := Settling(d.child, d.result)))
    else
      var refusal := LiveError(st, LaunchSignal(i));
      if refusal.Some? then Set(st, i, v.(delegation := Settling(d.child, Fail(refusal.value))))
      else
        Set(st, i, v.(delegation := Reentering(d.child, d.result, |st.sched.tickets|)))
        .(sched := Sched.Acquire(st.sched, ResumeSignal(i)))
  }

  /** Re-entry answered. It never charges again, and gives back a permit nobody needs any more. */
  function AfterResume(st: State, i: nat): State
    requires Enabled(st, Resume(i))
  {
    var v := st.launches[i];
    var d := v.delegation;
    var stopped := Aborted(st, LaunchSignal(i));
    if st.sched.tickets[d.ticket].Rejected? then
      Set(st, i, v.(delegation :=
        Settling(d.child,
                 if !v.phase.ReturnJoin? || stopped then Fail(st.sched.tickets[d.ticket].reason) else d.result)))
    else if v.phase.Running? && !Aborted(st, ResumeSignal(i)) then
      Set(st, i, v.(permit := Some(d.ticket), delegation := Settling(d.child, d.result)))
      .(sched := Sched.Activate(st.sched, d.ticket))
    else
      Set(st, i, v.(delegation := Settling(d.child, if stopped then Fail(Reason(st, LaunchSignal(i))) else d.result)))
      .(sched := Sched.Release(st.sched, d.ticket))
  }

  function Remember(v: Invocation, result: Outcome): Invocation {
    if result.Fail? && v.delegationFailure.None? then v.(delegationFailure := Some(result.error)) else v
  }

  /** The promise `withChildren` returned settles; a callback that already finished stops waiting for it. */
  function AfterSettle(st: State, i: nat): State
    requires Enabled(st, SettleDelegation(i))
  {
    var v := st.launches[i];
    var result := v.delegation.result;
    var idle := Set(st, i, Remember(v.(delegation := Idle), result));
    match v.phase
    case ReturnJoin =>
      if result.Fail? then Catch(idle, i, result.error)
      else if v.delegationFailure.Some? then Catch(idle, i, v.delegationFailure.value)
      else Finish(idle, i, Ok)
    case ThrowJoin(e) => Finish(idle, i, Fail(e))
    case _ => idle
  }

  function AfterObserve(st: State, i: nat): State
    requires Enabled(st, Observe(i))
  {
    var v := st.launches[i];
    var o := v.phase.outcome;
    var seen := Set(st, i, v.(phase := Observed(o)));
    if o.Fail? then FailScope(seen, v.scope, o.error) else seen
  }

  function AfterClose(st: State, reason: Error): State {
    Abort(st, ScopeSignal(0), reason).(closed := true, closings := st.closings + [Jobs(st, 0)])
  }

  function Next(st: State, step: Step): State
    requires Enabled(st, step)
  {
    match step
    case CreateInvocation(s, kind, r) => AfterCreate(st, s, kind, r)
    case Run(i, late) => AfterRun(st, i, late)
    case Start(i, late) => AfterStart(st, i, late)
    case CallbackReturns(i) => AfterReturn(st, i)
    case CallbackThrows(i, e) => Catch(st, i, e)
    case WithChildren(i) => AfterWithChildren(st, i)
    case WorkReturns(i) => CloseScope(st, i, Ok)
    case WorkThrows(i, e) => AfterWorkThrows(st, i, e)
    case Drain(i) => AfterDrain(st, i)
    case Reenter(i) => AfterReenter(st, i)
    case Resume(i) => AfterResume(st, i)
    case SettleDelegation(i) => AfterSettle(st, i)
    case Observe(i) => AfterObserve(st, i)
    case Cancel(reason) => Abort(st, ScopeSignal(0), reason)
    case Close(reason) => AfterClose(st, reason)
    case Reserve(count) => st.(ledger := Budget.Reserve(st.ledger, count).value)
    case ReleaseReservation(r) => st.(ledger := Budget.Release(st.ledger, r).value)
  }
}
