/**
 What an execution root promises, for every reachable state and every run.
 */
module ExecutionTheorems {
  import opened Wrappers
  import opened ExecutionState
  import opened ExecutionStructure
  import opened ExecutionAdmission
  import opened ExecutionSafety
  import opened ExecutionRuns
  import Budget = ExecutionBudget
  import Sched = ExecutionScheduler

  // ---- the books ----

  function SumStarts(vs: seq<Invocation>): nat {
    if vs == [] then 0 else SumStarts(vs[..|vs| - 1]) + vs[|vs| - 1].starts
  }

  function CountReplayed(vs: seq<Invocation>): nat {
    if vs == [] then 0 else CountReplayed(vs[..|vs| - 1]) + if vs[|vs| - 1].kind.Replayed? then 1 else 0
  }

  /** The ledger counts every callback ever started, and every invocation by its sequence number. */
  ghost predicate Accounts(st: State) {
    && Budget.Valid(st.ledger)
    && st.ledger.sequence == |st.launches|
    && st.ledger.charged == SumStarts(st.launches)
    && st.ledger.replayed == CountReplayed(st.launches)
  }

  /** `close` joins every live root job there will ever be again. */
  ghost predicate ClosingsOk(st: State) {
    && (st.closings != [] ==> st.closed)
    && forall k, i :: 0 <= k < |st.closings| && 0 <= i < |st.launches| ==>
         st.launches[i].scope == 0 && Live(st.launches[i]) ==>
         i in st.closings[k]
  }

  /** A launch that waits because its callback threw has been stopped. */
  ghost predicate ThrownStopped(st: State) {
    forall i :: 0 <= i < |st.launches| && st.launches[i].phase.ThrowJoin? ==> Fired(st.sched, LaunchSignal(i))
  }

  ghost predicate Sound(st: State) {
    && Core(st)
    && JoinsPending(st.launches)
    && ThrownStopped(st)
    && Accounts(st)
    && ClosingsOk(st)
  }

  lemma {:induction false} StartsUpdate(vs: seq<Invocation>, i: nat, v: Invocation)
    requires i < |vs| && v.kind == vs[i].kind
    ensures SumStarts(vs[i := v]) == SumStarts(vs) - vs[i].starts + v.starts
    ensures CountReplayed(vs[i := v]) == CountReplayed(vs)
  {
    var last := |vs| - 1;
    if i == last {
      assert vs[i := v][..last] == vs[..last];
    } else {
      assert vs[i := v][..last] == vs[..last][i := v];
      StartsUpdate(vs[..last], i, v);
    }
  }

  lemma StartsAppend(vs: seq<Invocation>, v: Invocation)
    ensures SumStarts(vs + [v]) == SumStarts(vs) + v.starts
    ensures CountReplayed(vs + [v]) == CountReplayed(vs) + if v.kind.Replayed? then 1 else 0
  {
    assert (vs + [v])[..|vs|] == vs;
  }

  /** Only these steps touch the ledger, and only the start of a callback charges it. */
  lemma StepLedger(st: State, step: Step)
    requires Core(st) && Enabled(st, step)
    ensures Next(st, step).ledger ==
            match step
            case CreateInvocation(_, kind, r) => Budget.Allocate(st.ledger, kind, r).value
            case Start(i, _) =>
              if Starts(st, step, i) then Budget.Charge(st.ledger, st.launches[i].reservation).value else st.ledger
            case Reserve(count) => Budget.Reserve(st.ledger, count).value
            case ReleaseReservation(r) => Budget.Release(st.ledger, r).value
            case _ => st.ledger
  {
    hide Core, Catch, Finish, Abort, StartError, FailScope, Record, Starts, Sched.Acquire, Sched.Release,
         Sched.Activate, AfterStart, AfterReturn, AfterSettle, AfterObserve, AfterWorkThrows;
    match step {
      case Start(i, late) => StartLedger(st, i, late);
      case CallbackReturns(i) => ReturnLedger(st, i);
      case CallbackThrows(i, e) => CatchLedger(st, i, e);
      case WorkThrows(i, e) => WorkThrowsLedger(st, i, e);
      case SettleDelegation(i) => SettleLedger(st, i);
      case Observe(i) => ObserveLedger(st, i);
      case Cancel(reason) => AbortShape(st, ScopeSignal(0), reason);
      case Close(reason) => AbortShape(st, ScopeSignal(0), reason);
      case _ =>
    }
  }

  lemma CatchLedger(st: State, i: nat, e: Error)
    requires Is(st, i)
    ensures Catch(st, i, e).ledger == st.ledger
  {
    hide Sched.Abort, Sched.Release, Dependents;
  }

  lemma StartLedger(st: State, i: nat, late: bool)
    requires Enabled(st, Start(i, late))
    ensures AfterStart(st, i, late).ledger ==
            if Starts(st, Start(i, late), i) then Budget.Charge(st.ledger, st.launches[i].reservation).value
            else st.ledger
  {
    hide Catch, StartError, Sched.Activate;
    var t := st.launches[i].phase.ticket;
    if !st.sched.tickets[t].Rejected? && StartError(st, i, late).Some? {
      CatchLedger(Set(st, i, st.launches[i].(permit := Some(t))), i, StartError(st, i, late).value);
    }
  }

  lemma WorkThrowsLedger(st: State, i: nat, e: Error)
    requires Enabled(st, WorkThrows(i, e))
    ensures AfterWorkThrows(st, i, e).ledger == st.ledger
  {
    hide Abort;
    var c := st.launches[i].delegation.child;
    AbortShape(Record(st, c, e), ScopeSignal(c), Record(st, c, e).scopes[c].failure.value);
  }

  lemma ObserveLedger(st: State, i: nat)
    requires Enabled(st, Observe(i))
    ensures AfterObserve(st, i).ledger == st.ledger
  {
    hide FailScope;
    var seen := Set(st, i, st.launches[i].(phase := Observed(st.launches[i].phase.outcome)));
    if st.launches[i].phase.outcome.Fail? {
      FailScopeShape(seen, st.launches[i].scope, st.launches[i].phase.outcome.error);
    }
  }

  lemma ReturnLedger(st: State, i: nat)
    requires Enabled(st, CallbackReturns(i))
    ensures AfterReturn(st, i).ledger == st.ledger
  {
    hide Catch, Abort, Finish;
    var v := st.launches[i];
    var returned := Set(st, i, v.(phase := ReturnJoin));
    AbortShape(returned, ResumeSignal(i), AgentReturned);
    var stopped := Abort(returned, ResumeSignal(i), AgentReturned);
    FinishShape(stopped, i, Ok);
    if v.delegationFailure.Some? {
      CatchLedger(stopped, i, v.delegationFailure.value);
    }
  }

  lemma SettleLedger(st: State, i: nat)
    requires Enabled(st, SettleDelegation(i))
    ensures AfterSettle(st, i).ledger == st.ledger
  {
    hide Catch, Finish;
    var v := st.launches[i];
    var idle := Set(st, i, Remember(v.(delegation := Idle), v.delegation.result));
    CatchLedger(idle, i, JoinError(v));
    FinishShape(idle, i, Ok);
    if v.phase.ThrowJoin? {
      FinishShape(idle, i, Fail(v.phase.cause));
    }
  }

  lemma ActorKeepsAccounts(st: State, step: Step, i: nat)
    requires Core(st) && Accounts(st) && Enabled(st, step) && Actor(step) == Some(i)
    ensures Accounts(Next(st, step))
  {
    StepLedger(st, step);
    hide Core, Next, StartError, Budget.Valid, Enabled, LaunchEvolves, Weight, DelegationEvolves, Fired, Live;
    var st' := Next(st, step);
    StepMoves(st, step, i);
    LaunchKeepsKind(st, step, i);
    StartsUpdate(st.launches, i, st'.launches[i]);
    if Starts(st, step, i) {
      StartCharges(st, i, step.late);
    }
  }

  lemma LaunchKeepsKind(st: State, step: Step, i: nat)
    requires Core(st) && Enabled(st, step) && Actor(step) == Some(i)
    ensures i < |st.launches| && |Next(st, step).launches| == |st.launches|
    ensures Next(st, step).launches[i].kind == st.launches[i].kind
  {
    hide Core, Next;
    StepMoves(st, step, i);
  }

  lemma StepKeepsAccounts(st: State, step: Step)
    requires Core(st) && Accounts(st) && Enabled(st, step)
    ensures Accounts(Next(st, step))
  {
    hide Core, Next, Accounts;
    if Actor(step).Some? {
      ActorKeepsAccounts(st, step, Actor(step).value);
    } else {
      SpectatorKeepsAccounts(st, step);
    }
  }

  lemma SpectatorKeepsAccounts(st: State, step: Step)
    requires Core(st) && Accounts(st) && Enabled(st, step) && Actor(step).None?
    ensures Accounts(Next(st, step))
  {
    hide Core, Next, Budget.Valid;
    StepLedger(st, step);
    SpectatorStep(st, step);
    match step {
      case CreateInvocation(s, kind, r) =>
        StartsAppend(st.launches, Invocation(s, kind, r, Created, false, 0, None, Idle, None));
        Budget.AllocateValid(st.ledger, kind, r);
      case Reserve(count) => Budget.ReserveValid(st.ledger, count);
      case ReleaseReservation(r) => Budget.ReleaseValid(st.ledger, r);
      case _ =>
    }
  }

  lemma StartCharges(st: State, i: nat, late: bool)
    requires Is(st, i) && StartError(st, i, late).None? && Budget.Valid(st.ledger)
    ensures var charge := Budget.Charge(st.ledger, st.launches[i].reservation);
            && charge.Success? && Budget.Valid(charge.value)
            && charge.value.charged == st.ledger.charged + 1
            && charge.value.sequence == st.ledger.sequence
            && charge.value.replayed == st.ledger.replayed
  {
    Budget.ChargeValid(st.ledger, st.launches[i].reservation);
  }

  /** A closed root lets nothing come to life. */
  lemma ClosedRootStaysQuiet(st: State, step: Step)
    requires Core(st) && Enabled(st, step) && step.Run? && st.closed
    ensures |Next(st, step).launches| == |st.launches|
    ensures !Live(Next(st, step).launches[step.i])
  {
    ClosedIsFired(st, step.i);
    hide Core;
  }

  lemma LivesOnlyOnce(st: State, step: Step, j: nat)
    requires Core(st) && Enabled(st, step) && st.closed
    requires j < |Next(st, step).launches| && Live(Next(st, step).launches[j])
    ensures j < |st.launches| && Live(st.launches[j])
    ensures Next(st, step).launches[j].scope == st.launches[j].scope
  {
    hide Core, Next, Enabled, Live, LaunchEvolves;
    if Actor(step).Some? {
      ActorLives(st, step, Actor(step).value, j);
    } else {
      SpectatorLives(st, step, j);
    }
  }

  lemma SpectatorLives(st: State, step: Step, j: nat)
    requires Enabled(st, step) && Actor(step).None?
    requires j < |Next(st, step).launches| && Live(Next(st, step).launches[j])
    ensures j < |st.launches| && Next(st, step).launches[j] == st.launches[j]
  {
    hide Next, Enabled;
    SpectatorStep(st, step);
  }

  lemma ActorLives(st: State, step: Step, i: nat, j: nat)
    requires Core(st) && Enabled(st, step) && st.closed && Actor(step) == Some(i)
    requires j < |Next(st, step).launches| && Live(Next(st, step).launches[j])
    ensures j < |st.launches| && Live(st.launches[j])
    ensures Next(st, step).launches[j].scope == st.launches[j].scope
  {
    if step.Run? {
      ClosedRootStaysQuiet(st, step);
    }
    StepMoves(st, step, i);
    MovedLaunch(st, step, i, Next(st, step), j);
    hide Core, Next, Enabled, Live;
  }

  lemma MovedLaunch(st: State, step: Step, i: nat, st': State, j: nat)
    requires i < |st.launches| && ActorMoves(st, step, i, st') && j < |st'.launches|
    ensures j < |st.launches| && st'.launches[j].scope == st.launches[j].scope
    ensures j != i ==> st'.launches[j] == st.launches[j]
    ensures j == i && Live(st'.launches[j]) ==> Live(st.launches[j]) || step.Run?
  {
    hide Weight, Starts, DelegationEvolves, Fired, Live;
  }

  lemma StepKeepsClosings(st: State, step: Step)
    requires Core(st) && ClosingsOk(st) && Enabled(st, step)
    ensures ClosingsOk(Next(st, step))
  {
    hide Core, Next, Enabled, ScopeEvolves;
    var st' := Next(st, step);
    if step.Close? {
      CloseKeepsClosings(st, step.reason);
    } else {
      StepFrame(st, step);
      forall k, j | 0 <= k < |st'.closings| && 0 <= j < |st'.launches|
          && st'.launches[j].scope == 0 && Live(st'.launches[j])
        ensures j in st'.closings[k]
      {
        LivesOnlyOnce(st, step, j);
      }
    }
  }

  lemma CloseShape(st: State, reason: Error)
    requires Enabled(st, Close(reason))
    ensures var st' := Next(st, Close(reason));
            st'.closed && st'.launches == st.launches && st'.closings == st.closings + [Jobs(st, 0)]
  {
    AbortShape(st, ScopeSignal(0), reason);
    hide Abort, Jobs;
  }

  lemma CloseKeepsClosings(st: State, reason: Error)
    requires ClosingsOk(st) && Enabled(st, Close(reason))
    ensures ClosingsOk(Next(st, Close(reason)))
  {
    hide Next, Enabled;
    CloseShape(st, reason);
    var st' := Next(st, Close(reason));
    forall k, i | 0 <= k < |st'.closings| && 0 <= i < |st.launches| && st.launches[i].scope == 0 && Live(st.launches[i])
      ensures i in st'.closings[k]
    {
      if k < |st.closings| {
        assert st'.closings[k] == st.closings[k];
      }
    }
  }

  lemma StepKeepsJoins(st: State, step: Step)
    requires Core(st) && JoinsPending(st.launches) && Enabled(st, step)
    ensures JoinsPending(Next(st, step).launches)
  {
    hide Core, Next, LaunchEvolves, Weight, Starts, Enabled;
    if Actor(step).Some? {
      StepMoves(st, step, Actor(step).value);
    } else {
      SpectatorStep(st, step);
    }
  }

  lemma StepKeepsThrown(st: State, step: Step)
    requires Core(st) && ThrownStopped(st) && Enabled(st, step)
    ensures ThrownStopped(Next(st, step))
  {
    var st' := Next(st, step);
    StepEvolves(st, step);
    EvolvesFired(st, st');
    hide Core, Next, Evolves, Enabled;
    forall i | 0 <= i < |st'.launches| && st'.launches[i].phase.ThrowJoin?
      ensures Fired(st'.sched, LaunchSignal(i))
    {
      ThrowsStopped(st, step, i);
    }
  }

  lemma EvolvesFired(st: State, st': State)
    requires Evolves(st, st')
    ensures FiredStay(st, st')
  {}

  lemma ThrowsStopped(st: State, step: Step, i: nat)
    requires Core(st) && Enabled(st, step) && i < |Next(st, step).launches|
    requires Next(st, step).launches[i].phase.ThrowJoin?
    ensures Fired(Next(st, step).sched, LaunchSignal(i)) || (i < |st.launches| && st.launches[i].phase.ThrowJoin?)
  {
    hide Core, Next, LaunchEvolves, DelegationEvolves, Weight, Starts, Enabled, Fired;
    if Actor(step).Some? {
      StepMoves(st, step, Actor(step).value);
    } else {
      SpectatorStep(st, step);
    }
  }

  lemma StepKeepsSound(st: State, step: Step)
    requires Sound(st) && Enabled(st, step)
    ensures Sound(Next(st, step))
  {
    hide Core, Next, Enabled, Accounts, ClosingsOk, JoinsPending, ThrownStopped;
    StepKeepsCore(st, step);
    StepKeepsThrown(st, step);
    StepKeepsAccounts(st, step);
    StepKeepsClosings(st, step);
    StepKeepsJoins(st, step);
  }

  // ---- runs ----

  ghost predicate Follows(st: State, steps: seq<Step>)
    decreases |steps|
  {
    steps == [] || (Enabled(st, steps[0]) && Follows(Next(st, steps[0]), steps[1..]))
  }

  ghost function After(st: State, steps: seq<Step>): State
    requires Follows(st, steps)
    decreases |steps|
  {
    if steps == [] then st else After(Next(st, steps[0]), steps[1..])
  }

  /** A state some run of some root leads to. */
  ghost predicate Reachable(st: State) {
    exists concurrency: nat, total: Option<nat>, steps: seq<Step> ::
      && 1 <= concurrency
      && Follows(Initial(concurrency, total), steps)
      && st == After(Initial(concurrency, total), steps)
  }

  lemma InitialAdmission(concurrency: nat, total: Option<nat>)
    requires 1 <= concurrency
    ensures Admission(Initial(concurrency, total).sched, Initial(concurrency, total).launches)
  {
    Sched.InitialValid<Signal, Error>(concurrency);
    hide Sched.Valid;
  }

  lemma InitialStructure(scopes: seq<Scope>)
    requires scopes == [Scope(None, false, None)]
    ensures Structure(scopes, [])
  {}

  lemma InitialSignals(st: State)
    requires st.scopes == [Scope(None, false, None)] && st.launches == [] && st.sched.aborted == map[] && !st.closed
    ensures Signals(st)
  {}

  lemma InitialSound(concurrency: nat, total: Option<nat>)
    requires 1 <= concurrency
    ensures Sound(Initial(concurrency, total))
  {
    hide Structure, Admission, Signals;
    var st := Initial(concurrency, total);
    InitialAdmission(concurrency, total);
    InitialStructure(st.scopes);
    InitialSignals(st);
  }

  lemma {:induction false} RunKeepsSound(st: State, steps: seq<Step>)
    requires Sound(st) && Follows(st, steps)
    ensures Sound(After(st, steps))
    decreases |steps|
  {
    hide Sound, Next, Enabled;
    if steps != [] {
      StepKeepsSound(st, steps[0]);
      RunKeepsSound(Next(st, steps[0]), steps[1..]);
    }
  }

  /** The invariant holds in every reachable state. */
  lemma ReachableSound(st: State)
    requires Reachable(st)
    ensures Sound(st)
  {
    hide Sound, Next, Enabled;
    var concurrency: nat, total: Option<nat>, steps: seq<Step> :|
      1 <= concurrency && Follows(Initial(concurrency, total), steps)
      && st == After(Initial(concurrency, total), steps);
    InitialSound(concurrency, total);
    RunKeepsSound(Initial(concurrency, total), steps);
  }

  lemma {:induction false} RunEvolves(st: State, steps: seq<Step>)
    requires Sound(st) && Follows(st, steps)
    ensures Evolves(st, After(st, steps))
    decreases |steps|
  {
    hide Sound, Next, Enabled, Evolves;
    if steps == [] {
      EvolvesRefl(st);
    } else {
      SoundCore(st);
      StepEvolves(st, steps[0]);
      StepKeepsSound(st, steps[0]);
      RunEvolves(Next(st, steps[0]), steps[1..]);
      EvolvesCompose(st, Next(st, steps[0]), After(st, steps));
    }
  }

  lemma EvolvesRefl(st: State)
    ensures Evolves(st, st)
  {}

  lemma SoundCore(st: State)
    requires Sound(st)
    ensures Core(st) && JoinsPending(st.launches) && ThrownStopped(st) && Accounts(st) && ClosingsOk(st)
  {
    hide Core, JoinsPending, Accounts, ClosingsOk;
  }

  // ---- the ownership tree ----

  predicate UnderScope(st: State, c: nat, j: nat)
    decreases j
  {
    j < |st.launches|
    && (st.launches[j].scope == c
        || (0 < st.launches[j].scope < |st.scopes|
            && st.scopes[st.launches[j].scope].owner.Some?
            && st.scopes[st.launches[j].scope].owner.value < j
            && UnderScope(st, c, st.scopes[st.launches[j].scope].owner.value)))
  }

  /** Whether launch `j` descends from launch `i`. */
  predicate Below(st: State, i: nat, j: nat)
    decreases j
  {
    j < |st.launches|
    && 0 < st.launches[j].scope < |st.scopes|
    && st.scopes[st.launches[j].scope].owner.Some?
    && st.scopes[st.launches[j].scope].owner.value < j
    && (st.scopes[st.launches[j].scope].owner.value == i
        || Below(st, i, st.scopes[st.launches[j].scope].owner.value))
  }

  lemma {:induction false} UnderScopeStays(st: State, st': State, c: nat, j: nat)
    requires Evolves(st, st') && j < |st.launches|
    requires Core(st)
    ensures UnderScope(st, c, j) == UnderScope(st', c, j)
    decreases j
  {
    hide Core;
    LaunchOk(st, j);
    hide PhaseOk, TicketOk, ResumeOk, DelegationOk, Sched.Valid;
    assert LaunchEvolves(st.launches[j], st'.launches[j]);
    var s := st.launches[j].scope;
    assert ScopeEvolves(st.scopes[s], st'.scopes[s]);
    if s > 0 && st.scopes[s].owner.Some? && st.scopes[s].owner.value < j {
      UnderScopeStays(st, st', c, st.scopes[s].owner.value);
    }
  }

  // ---- structured join ----

  /**
   A scope that has been joined: its `withChildren` has drained, or, for the root, some
   `close` call found all its jobs observed.
   */
  ghost predicate Sealed(st: State, c: nat) {
    if c == 0 then exists k :: 0 <= k < |st.closings| && Joined(st, st.closings[k])
    else c < |st.scopes| && st.scopes[c].owner.Some? && st.scopes[c].owner.value < |st.launches|
         && VerdictOf(st.launches[st.scopes[c].owner.value], c).Known?
  }

  predicate Joined(st: State, jobs: set<nat>) {
    forall j :: j in jobs ==> j < |st.launches| && st.launches[j].phase.Observed?
  }

  lemma ClosingCovers(st: State, k: nat, j: nat)
    requires ClosingsOk(st) && k < |st.closings| && j < |st.launches| && st.launches[j].scope == 0
    ensures Live(st.launches[j]) ==> j in st.closings[k]
  {}

  /** Nothing lives directly in a joined scope. */
  lemma SealedIsEmpty(st: State, c: nat, j: nat)
    requires Sound(st) && Sealed(st, c) && j < |st.launches| && st.launches[j].scope == c
    ensures !Live(st.launches[j])
  {
    if c == 0 {
      hide Core;
      var k :| 0 <= k < |st.closings| && Joined(st, st.closings[k]);
      ClosingCovers(st, k, j);
    } else {
      hide Admission, Signals, JoinsPending, Accounts, ClosingsOk;
      assert MemberOk(st.scopes, st.launches, j) && PhaseOk(st.launches[j]);
    }
  }

  /** A launch that does not live has joined every scope it opened. */
  lemma QuietOwnerSealed(st: State, c: nat)
    requires Core(st) && 0 < c < |st.scopes|
    requires st.scopes[c].owner.Some? && st.scopes[c].owner.value < |st.launches|
    requires !Live(st.launches[st.scopes[c].owner.value])
    ensures Sealed(st, c)
  {
    LaunchOk(st, st.scopes[c].owner.value);
  }

  lemma ScopeHasOpener(st: State, j: nat)
    requires Core(st) && j < |st.launches| && st.launches[j].scope > 0
    ensures st.launches[j].scope < |st.scopes| && st.scopes[st.launches[j].scope].owner.Some?
    ensures st.scopes[st.launches[j].scope].owner.value < j
  {
    ScopeOpener(st, j);
  }

  /** Nothing lives anywhere below a joined scope. */
  lemma {:induction false} NothingLivesUnder(st: State, c: nat, j: nat)
    requires Sound(st) && Sealed(st, c) && UnderScope(st, c, j)
    ensures !Live(st.launches[j])
    decreases j
  {
    hide Sound, Sealed, Core;
    var s := st.launches[j].scope;
    if s == c {
      SealedIsEmpty(st, c, j);
    } else {
      var o := st.scopes[s].owner.value;
      NothingLivesUnder(st, c, o);
      SoundCore(st);
      QuietOwnerSealed(st, s);
      SealedIsEmpty(st, s, j);
    }
  }

  /** A joined scope stays joined. */
  lemma SealedStays(st: State, step: Step, c: nat)
    requires Sound(st) && Enabled(st, step) && Sealed(st, c)
    ensures Sealed(Next(st, step), c)
  {
    SoundCore(st);
    StepEvolves(st, step);
    hide Sound, Core, Enabled, Next, LaunchEvolves;
    var st' := Next(st, step);
    if c == 0 {
      RootSealedStays(st, st');
    } else {
      VerdictStays(st, step, st.scopes[c].owner.value, c);
      assert ScopeEvolves(st.scopes[c], st'.scopes[c]);
    }
  }

  lemma RootSealedStays(st: State, st': State)
    requires Evolves(st, st') && Sealed(st, 0)
    ensures Sealed(st', 0)
  {
    hide LaunchEvolves, ScopeEvolves;
    var k :| 0 <= k < |st.closings| && Joined(st, st.closings[k]);
    JoinedStays(st, st', st.closings[k]);
    assert Joined(st', st'.closings[k]);
  }

  lemma JoinedStays(st: State, st': State, jobs: set<nat>)
    requires Evolves(st, st') && Joined(st, jobs)
    ensures Joined(st', jobs)
  {
    forall j | j in jobs
      ensures j < |st'.launches| && st'.launches[j].phase.Observed?
    {
      assert LaunchEvolves(st.launches[j], st'.launches[j]);
    }
  }

  lemma VerdictStays(st: State, step: Step, o: nat, c: nat)
    requires Core(st) && Enabled(st, step) && o < |st.launches| && c < |st.scopes|
    requires VerdictOf(st.launches[o], c).Known?
    ensures o < |Next(st, step).launches| && VerdictOf(Next(st, step).launches[o], c).Known?
  {
    hide Core, Next, Enabled, LaunchEvolves, Weight, Starts;
    if Actor(step).Some? {
      StepMoves(st, step, Actor(step).value);
    } else {
      SpectatorStep(st, step);
    }
  }

  // ---- nothing starts behind a joined or a stopped scope ----

  /** A scope below which nothing may start any more: it was joined, or its signal has fired. */
  ghost predicate Barred(st: State, c: nat) {
    Sealed(st, c) || Fired(st.sched, ScopeSignal(c))
  }

  /** A fired signal reaches every launch below it. */
  lemma {:induction false} FiredReaches(st: State, c: nat, j: nat)
    requires Core(st) && Fired(st.sched, ScopeSignal(c)) && UnderScope(st, c, j)
    ensures Fired(st.sched, ScopeSignal(st.launches[j].scope)) && Fired(st.sched, LaunchSignal(j))
    decreases j
  {
    hide Core;
    SignalOk(st, j);
    if st.launches[j].scope != c {
      FiredReaches(st, c, st.scopes[st.launches[j].scope].owner.value);
      ScopeOpener(st, j);
    }
  }

  lemma NoStartBehind(st: State, step: Step, c: nat, j: nat)
    requires Sound(st) && Enabled(st, step) && Barred(st, c) && UnderScope(st, c, j)
    ensures !Starts(st, step, j)
  {
    hide Sound, Core, Sealed, Enabled;
    if Sealed(st, c) {
      NothingLivesUnder(st, c, j);
      StartsOnlyWaiting(st, step, j);
    } else {
      SoundCore(st);
      FiredReaches(st, c, j);
    }
  }

  lemma StartsOnlyWaiting(st: State, step: Step, j: nat)
    requires j < |st.launches|
    ensures Starts(st, step, j) ==> Live(st.launches[j])
  {}

  lemma StartsCounted(st: State, step: Step, j: nat)
    requires Core(st) && Enabled(st, step) && j < |Next(st, step).launches|
    ensures Next(st, step).launches[j].starts ==
            (if j < |st.launches| then st.launches[j].starts + (if Starts(st, step, j) then 1 else 0) else 0)
  {
    hide Core, Next, Enabled, LaunchEvolves, Weight, StartError;
    if Actor(step).Some? {
      StepMoves(st, step, Actor(step).value);
    } else {
      SpectatorStep(st, step);
    }
  }

  lemma BarredStays(st: State, step: Step, c: nat)
    requires Sound(st) && Enabled(st, step) && Barred(st, c)
    ensures Barred(Next(st, step), c)
  {
    hide Sound, Core, Sealed, Next, Enabled;
    if Sealed(st, c) {
      SealedStays(st, step, c);
    } else {
      SoundCore(st);
      StepEvolves(st, step);
    }
  }

  /**
   However long the run goes on, whatever handles anybody kept, no callback below a
   barred scope is ever started: every start count there stays what it was.
   */
  lemma {:induction false} NothingStartsBehind(st: State, steps: seq<Step>, c: nat, j: nat)
    requires Sound(st) && Follows(st, steps) && Barred(st, c)
    requires UnderScope(After(st, steps), c, j)
    ensures After(st, steps).launches[j].starts == (if j < |st.launches| then st.launches[j].starts else 0)
    decreases |steps|
  {
    hide Sound, Core, Barred, Next, Enabled, Evolves, Starts;
    if steps != [] {
      var st1 := Next(st, steps[0]);
      StepKeepsSound(st, steps[0]);
      BarredStays(st, steps[0], c);
      NothingStartsBehind(st1, steps[1..], c, j);
      SoundCore(st);
      if j < |st1.launches| {
        StartsCounted(st, steps[0], j);
        if j < |st.launches| {
          RunEvolves(st, steps);
          UnderScopeStays(st, After(st, steps), c, j);
          NoStartBehind(st, steps[0], c, j);
        }
      } else {
        StepEvolves(st, steps[0]);
        EvolvesGrows(st, st1);
      }
    }
  }

  lemma EvolvesGrows(st: State, st': State)
    requires Evolves(st, st')
    ensures |st.launches| <= |st'.launches|
  {}

  lemma {:induction false} RunKeepsSealed(st: State, steps: seq<Step>, c: nat)
    requires Sound(st) && Follows(st, steps) && Sealed(st, c)
    ensures Sealed(After(st, steps), c)
    decreases |steps|
  {
    hide Sound, Sealed, Next, Enabled;
    if steps != [] {
      StepKeepsSound(st, steps[0]);
      SealedStays(st, steps[0], c);
      RunKeepsSealed(Next(st, steps[0]), steps[1..], c);
    }
  }

  /**
   Structured join of a scope. Once `withChildren` has drained a scope, or a `close` has
   joined the root, no launch below it is queued, runs its callback or waits for a
   delegation, in this state or in any later one, and none of them is ever started.
   */
  lemma JoinedScopeIsQuiet(st: State, steps: seq<Step>, c: nat, j: nat)
    requires Reachable(st) && Sealed(st, c) && Follows(st, steps)
    requires UnderScope(After(st, steps), c, j)
    ensures !Live(After(st, steps).launches[j])
    ensures After(st, steps).launches[j].starts == (if j < |st.launches| then st.launches[j].starts else 0)
  {
    hide Reachable, Sound, Sealed, Core;
    ReachableSound(st);
    RunKeepsSealed(st, steps, c);
    RunKeepsSound(st, steps);
    NothingLivesUnder(After(st, steps), c, j);
    NothingStartsBehind(st, steps, c, j);
  }

  lemma {:induction false} BelowOwnedScope(st: State, i: nat, j: nat) returns (c: nat)
    requires Core(st) && Below(st, i, j)
    ensures 0 < c < |st.scopes| && st.scopes[c].owner == Some(i) && UnderScope(st, c, j)
    decreases j
  {
    hide Core;
    var s := st.launches[j].scope;
    if st.scopes[s].owner.value == i {
      c := s;
    } else {
      c := BelowOwnedScope(st, i, st.scopes[s].owner.value);
    }
  }

  /**
   Structured join of a launch. Once `run` has settled, no descendant is queued, runs its
   callback or waits, now or later, and no descendant is ever started afterwards.
   */
  lemma SettledLaunchIsQuiet(st: State, steps: seq<Step>, i: nat, j: nat)
    requires Reachable(st) && i < |st.launches| && Done(st.launches[i]) && Follows(st, steps)
    requires Below(After(st, steps), i, j)
    ensures !Live(After(st, steps).launches[j])
    ensures After(st, steps).launches[j].starts == (if j < |st.launches| then st.launches[j].starts else 0)
  {
    hide Reachable, Sound, Core, Evolves, LaunchEvolves;
    ReachableSound(st);
    RunKeepsSound(st, steps);
    RunEvolves(st, steps);
    var st' := After(st, steps);
    SoundCore(st);
    SoundCore(st');
    DoneStays(st, st', i);
    var c := BelowOwnedScope(st', i, j);
    QuietOwnerSealed(st', c);
    NothingLivesUnder(st', c, j);
    if j < |st.launches| {
      UnderScopeStays(st, st', c, j);
      OwnerWasThere(st, st', c, j);
      QuietOwnerSealed(st, c);
      NothingStartsBehind(st, steps, c, j);
    } else {
      StartsAfterDone(st, steps, i, c, j);
    }
  }

  lemma DoneStays(st: State, st': State, i: nat)
    requires Evolves(st, st') && i < |st.launches| && Done(st.launches[i])
    ensures i < |st'.launches| && Done(st'.launches[i]) && st'.launches[i].phase.outcome == st.launches[i].phase.outcome
  {
    assert LaunchEvolves(st.launches[i], st'.launches[i]);
  }

  lemma {:induction false} OwnerWasThere(st: State, st': State, c: nat, j: nat)
    requires Core(st) && Evolves(st, st') && UnderScope(st, c, j) && c < |st'.scopes|
    ensures c < |st.scopes| && st.scopes[c].owner == st'.scopes[c].owner
    decreases j
  {
    hide Core, Evolves;
    LaunchOk(st, j);
    hide PhaseOk, TicketOk, ResumeOk, DelegationOk, Sched.Valid;
    if st.launches[j].scope == c {
      SameOwner(st, st', c);
    } else {
      OwnerWasThere(st, st', c, st.scopes[st.launches[j].scope].owner.value);
    }
  }

  lemma SameOwner(st: State, st': State, c: nat)
    requires Evolves(st, st') && c < |st.scopes|
    ensures c < |st'.scopes| && st'.scopes[c].owner == st.scopes[c].owner
  {
    assert ScopeEvolves(st.scopes[c], st'.scopes[c]);
  }

  /** A launch created below one that had already settled never starts. */
  lemma {:induction false} StartsAfterDone(st: State, steps: seq<Step>, i: nat, c: nat, j: nat)
    requires Sound(st) && Follows(st, steps) && i < |st.launches| && Done(st.launches[i])
    requires j >= |st.launches| && UnderScope(After(st, steps), c, j)
    requires 0 < c < |After(st, steps).scopes| && After(st, steps).scopes[c].owner == Some(i)
    ensures After(st, steps).launches[j].starts == 0
    decreases |steps|
  {
    hide Sound, Core, Next, Enabled, Evolves, Starts, LaunchEvolves;
    if steps != [] {
      var st1 := Next(st, steps[0]);
      StepKeepsSound(st, steps[0]);
      SoundCore(st);
      SoundCore(st1);
      StepEvolves(st, steps[0]);
      DoneStays(st, st1, i);
      if j < |st1.launches| {
        StartsCounted(st, steps[0], j);
        RunEvolves(st1, steps[1..]);
        UnderScopeStays(st1, After(st, steps), c, j);
        OwnerWasThere(st1, After(st, steps), c, j);
        QuietOwnerSealed(st1, c);
        NothingStartsBehind(st1, steps[1..], c, j);
      } else {
        StartsAfterDone(st1, steps[1..], i, c, j);
      }
    }
  }

  /**
   Failure containment. Once a nested scope has recorded a failure, no callback anywhere
   below it ever starts, through whatever handle and whoever frees a permit.
   */
  lemma FailedScopeStartsNothing(st: State, steps: seq<Step>, c: nat, j: nat)
    requires Reachable(st) && 0 < c < |st.scopes| && st.scopes[c].failure.Some?
    requires Follows(st, steps) && UnderScope(After(st, steps), c, j)
    ensures After(st, steps).launches[j].starts == (if j < |st.launches| then st.launches[j].starts else 0)
  {
    hide Reachable, Sound, Core, Sealed;
    ReachableSound(st);
    SoundCore(st);
    FailureFired(st, c);
    NothingStartsBehind(st, steps, c, j);
  }

  lemma FailureFired(st: State, c: nat)
    requires Core(st) && 0 < c < |st.scopes| && st.scopes[c].failure.Some?
    ensures Fired(st.sched, ScopeSignal(c))
  {
    hide Structure, Admission;
  }

  /** Stopping a scope empties the queue of it: none of its launches, and none below, still waits for a permit. */
  lemma StoppedScopeWaitsForNothing(st: State, c: nat, j: nat)
    requires Reachable(st) && Fired(st.sched, ScopeSignal(c)) && UnderScope(st, c, j)
    ensures st.launches[j].phase.Awaiting? ==> Answered(st, st.launches[j].phase.ticket)
    ensures st.launches[j].delegation.Reentering? ==> Answered(st, st.launches[j].delegation.ticket)
  {
    hide Reachable, Sound, Core;
    ReachableSound(st);
    SoundCore(st);
    FiredReaches(st, c, j);
    SignalOk(st, j);
    LaunchOk(st, j);
    if Waits(st.launches[j]) {
      FiredWaiterAnswered(st, j);
    }
  }

  /** Nobody is queued under a signal that has fired. */
  lemma QueuedIsUnfired(st: State, j: nat)
    requires Core(st) && j < |st.launches| && Waits(st.launches[j])
    requires WaitTicket(st.launches[j]) < |st.sched.tickets| && st.sched.tickets[WaitTicket(st.launches[j])].Waiting?
    ensures !Fired(st.sched, WaitSignal(st.launches[j], j))
  {
    hide Structure, Signals;
    var t := WaitTicket(st.launches[j]);
    assert Sched.Queued(st.sched.waiters, t);
    var a :| 0 <= a < |st.sched.waiters| && st.sched.waiters[a].ticket == t;
    assert st.sched.waiters[a].signal == WaitSignal(st.launches[j], j);
  }

  lemma FiredWaiterAnswered(st: State, j: nat)
    requires Core(st) && j < |st.launches| && Waits(st.launches[j])
    requires Fired(st.sched, WaitSignal(st.launches[j], j))
    ensures Answered(st, WaitTicket(st.launches[j]))
  {
    hide Core;
    LaunchOk(st, j);
    if st.sched.tickets[WaitTicket(st.launches[j])].Waiting? {
      QueuedIsUnfired(st, j);
      assert false;
    }
  }

  // ---- failures reach the top ----

  /** A finished owner with a failed, owned job has failed itself. */
  lemma OwnerFails(st: State, j: nat)
    requires Core(st) && j < |st.launches| && st.launches[j].scope > 0
    requires st.launches[j].launched && Failed(st.launches[j])
    ensures st.launches[j].scope < |st.scopes| && st.scopes[st.launches[j].scope].owner.Some?
    ensures var o := st.scopes[st.launches[j].scope].owner.value;
            && o < j
            && (!Live(st.launches[o]) ==> st.launches[o].launched && Failed(st.launches[o]))
  {
    ScopeHasOpener(st, j);
    var o := st.scopes[st.launches[j].scope].owner.value;
    LaunchOk(st, o);
    hide Admission, Signals;
    assert MemberOk(st.scopes, st.launches, j);
  }

  /**
   A descendant's failure is fatal. If any job that was launched in a descendant scope of
   a settled launch failed, the launch itself was rejected, however many levels lie
   between, whether or not anybody awaited the failed job, and whatever was caught.
   */
  lemma {:induction false} DescendantFailureIsFatal(st: State, i: nat, j: nat)
    requires Reachable(st) && i < |st.launches| && Done(st.launches[i]) && Below(st, i, j)
    requires st.launches[j].launched && Failed(st.launches[j])
    ensures Failed(st.launches[i])
    decreases j
  {
    hide Reachable, Sound, Core;
    ReachableSound(st);
    SoundCore(st);
    OwnerFails(st, j);
    var o := st.scopes[st.launches[j].scope].owner.value;
    if o != i {
      var c := BelowOwnedScope(st, i, o);
      QuietOwnerSealed(st, c);
      NothingLivesUnder(st, c, o);
      DescendantFailureIsFatal(st, i, o);
    }
  }

  /** A rejected delegation is remembered: the launch fails even if its callback swallowed the rejection. */
  lemma RejectedDelegationIsFatal(st: State, steps: seq<Step>, i: nat)
    requires Reachable(st) && Enabled(st, SettleDelegation(i)) && st.launches[i].delegation.result.Fail?
    requires Follows(Next(st, SettleDelegation(i)), steps)
    ensures var st' := After(Next(st, SettleDelegation(i)), steps);
            i < |st'.launches| && (Done(st'.launches[i]) ==> Failed(st'.launches[i]))
  {
    hide Reachable, Sound, Core, Catch, Finish;
    ReachableSound(st);
    SoundCore(st);
    var st1 := Next(st, SettleDelegation(i));
    StepKeepsSound(st, SettleDelegation(i));
    SettleRemembers(st, i);
    RunEvolves(st1, steps);
    RunKeepsSound(st1, steps);
    SoundCore(After(st1, steps));
    LaunchOk(After(st1, steps), i);
    hide Next;
    assert LaunchEvolves(st1.launches[i], After(st1, steps).launches[i]);
  }

  lemma SettleRemembers(st: State, i: nat)
    requires Core(st) && Enabled(st, SettleDelegation(i)) && st.launches[i].delegation.result.Fail?
    ensures i < |AfterSettle(st, i).launches| && AfterSettle(st, i).launches[i].delegationFailure.Some?
  {
    hide Core, Catch;
    LaunchOk(st, i);
    var v := st.launches[i];
    var v' := Remember(v.(delegation := Idle), v.delegation.result);
    AdvanceDelegation(st.scopes, v, v');
    MoveSame(st, i, v');
    var idle := Set(st, i, v');
    if v.phase.ReturnJoin? {
      ReadyToCatch(idle, i, v.delegation.result.error);
      CatchKeeps(idle, i, v.delegation.result.error);
    }
  }

  // ---- permits ----

  /** The launch a granted permit belongs to. */
  lemma PermitHasOneHolder(st: State, t: nat) returns (i: nat)
    requires Reachable(st) && t < |st.sched.tickets| && Sched.Held(st.sched.tickets[t])
    ensures i < |st.launches| && TicketOf(st.launches[i]) == Some(t) && Live(st.launches[i])
    ensures forall k :: 0 <= k < |st.launches| && TicketOf(st.launches[k]) == Some(t) ==> k == i
  {
    ReachableSound(st);
    hide Reachable, Structure, Signals, Accounts, ClosingsOk, Sched.Valid;
    assert HasOwner(st.launches, t);
    i :| 0 <= i < |st.launches| && TicketOf(st.launches[i]) == Some(t);
    LaunchOk(st, i);
  }

  predicate HoldsPermit(st: State, i: nat)
    requires i < |st.launches|
  {
    && st.launches[i].permit.Some?
    && st.launches[i].permit.value < |st.sched.tickets|
    && st.sched.tickets[st.launches[i].permit.value].Executing?
  }

  /**
   Permit conservation. The counters are exactly the granted and the activated permits,
   within the cap, and nobody waits beside a free permit. A running callback holds one
   activated permit, aborted or not, unless it is delegating, or its re-entry was refused:
   then its launch was aborted and its delegation fails, or has failed.
   */
  lemma PermitsConserved(st: State)
    requires Reachable(st)
    ensures st.sched.inUse == Sched.CountHeld(st.sched.tickets)
    ensures st.sched.active == Sched.CountExecuting(st.sched.tickets)
    ensures st.sched.active <= st.sched.inUse <= st.sched.concurrency
    ensures st.sched.inUse < st.sched.concurrency ==> st.sched.waiters == []
    ensures forall i :: 0 <= i < |st.launches| && st.launches[i].phase.Running? ==>
              var v := st.launches[i];
              var refused := v.permit.None? && Fired(st.sched, LaunchSignal(i));
              match v.delegation
              case Idle => HoldsPermit(st, i) || (refused && v.delegationFailure.Some?)
              case Settling(_, result) => HoldsPermit(st, i) || (refused && result.Fail?)
              case Reentering(_, _, t) => v.permit.None?
              case _ => TicketOf(v) == None
  {
    hide Reachable, Sound, Core;
    ReachableSound(st);
    SoundCore(st);
    CoreSched(st);
    Sched.ExecutingAreHeld(st.sched.tickets);
    forall i | 0 <= i < |st.launches| && st.launches[i].phase.Running?
      ensures TicketOk(st.sched, st.launches[i], i) && ResumeOk(st.sched, st.launches[i], i) && PhaseOk(st.launches[i])
    {
      LaunchOk(st, i);
    }
  }

  /** The steps by which a callback gives up its permit: it delegates, or it finishes. */
  predicate YieldsPermit(step: Step, i: nat) {
    (step.WithChildren? || step.CallbackReturns? || step.CallbackThrows?) && step.i == i
  }

  /** Only its own callback takes a running launch's permit: no cancellation, failure or other launch does. */
  lemma StepKeepsPermit(st: State, step: Step, i: nat)
    requires Sound(st) && Enabled(st, step) && !YieldsPermit(step, i)
    requires i < |st.launches| && st.launches[i].phase.Running? && st.launches[i].permit.Some?
    ensures i < |Next(st, step).launches|
    ensures Next(st, step).launches[i].phase.Running?
    ensures Next(st, step).launches[i].permit == st.launches[i].permit
  {
    hide Sound, Core, LaunchEvolves, DelegationEvolves, Weight, Starts;
    SoundCore(st);
    LaunchOk(st, i);
    hide TicketOk, ResumeOk, DelegationOk, Fired;
    if Actor(step) == Some(i) {
      assert step.SettleDelegation?;
    } else {
      hide Next, Enabled, PhaseOk;
      if Actor(step).Some? {
        StepMoves(st, step, Actor(step).value);
      } else {
        SpectatorStep(st, step);
      }
    }
  }

  lemma {:induction false} PermitStays(st: State, steps: seq<Step>, i: nat)
    requires Sound(st) && Follows(st, steps)
    requires i < |st.launches| && st.launches[i].phase.Running? && st.launches[i].permit.Some?
    requires forall k :: 0 <= k < |steps| ==> !YieldsPermit(steps[k], i)
    ensures i < |After(st, steps).launches|
    ensures After(st, steps).launches[i].phase.Running?
    ensures After(st, steps).launches[i].permit == st.launches[i].permit
    ensures HoldsPermit(After(st, steps), i)
    decreases |steps|
  {
    hide Sound, Next, Enabled;
    if steps == [] {
      SoundCore(st);
      LaunchOk(st, i);
      hide Core;
    } else {
      StepKeepsPermit(st, steps[0], i);
      StepKeepsSound(st, steps[0]);
      forall k | 0 <= k < |steps[1..]|
        ensures !YieldsPermit(steps[1..][k], i)
      {
        assert steps[1..][k] == steps[k + 1];
      }
      PermitStays(Next(st, steps[0]), steps[1..], i);
    }
  }

  /**
   Cancellation never frees a running slot early. Whatever is aborted, whatever fails and
   whatever other launches do, a running callback keeps its activated permit until it
   delegates or finishes itself.
   */
  lemma PermitHeldUntilYielded(st: State, steps: seq<Step>, i: nat)
    requires Reachable(st) && Follows(st, steps)
    requires i < |st.launches| && st.launches[i].phase.Running? && st.launches[i].permit.Some?
    requires forall k :: 0 <= k < |steps| ==> !YieldsPermit(steps[k], i)
    ensures var st' := After(st, steps);
            && i < |st'.launches|
            && st'.launches[i].phase.Running?
            && st'.launches[i].permit == st.launches[i].permit
            && HoldsPermit(st', i)
  {
    hide Reachable, Sound, Follows, After;
    ReachableSound(st);
    PermitStays(st, steps, i);
  }

  /** A delegation that is over has its permit back, unless its launch has been aborted by then. */
  lemma ResumeRestoresPermit(st: State, i: nat)
    requires Reachable(st) && Enabled(st, Resume(i)) && st.launches[i].phase.Running?
    ensures |AfterResume(st, i).launches| == |st.launches|
    ensures HoldsPermit(AfterResume(st, i), i) <==> !Fired(st.sched, LaunchSignal(i))
    ensures !HoldsPermit(AfterResume(st, i), i) ==> AfterResume(st, i).launches[i].permit == None
  {
    hide Reachable, Sound, Core;
    ReachableSound(st);
    SoundCore(st);
    LaunchOk(st, i);
    ResumeFollows(st, i);
    if st.sched.tickets[st.launches[i].delegation.ticket].Granted? {
      Sched.ActivateKeeps(st.sched, st.launches[i].delegation.ticket);
    }
    hide PhaseOk, DelegationOk, Sched.Valid, Sched.Release;
  }

  /** A launch's re-entry is stopped with the launch. */
  lemma ResumeFollows(st: State, i: nat)
    requires Core(st) && i < |st.launches|
    ensures Fired(st.sched, LaunchSignal(i)) ==> Fired(st.sched, ResumeSignal(i))
  {}

  lemma CoreSched(st: State)
    requires Core(st)
    ensures Sched.Valid(st.sched)
  {}

  /** After `close` has joined the root, every permit has come back. */
  lemma CloseReturnsEveryPermit(st: State)
    requires Reachable(st) && Sealed(st, 0)
    ensures st.sched.inUse == 0 && st.sched.active == 0
    ensures forall i :: 0 <= i < |st.launches| ==> !Live(st.launches[i])
  {
    hide Sound, Core, Sealed, Reachable;
    ReachableSound(st);
    SoundCore(st);
    forall i | 0 <= i < |st.launches|
      ensures !Live(st.launches[i])
    {
      RootIsAboveAll(st, i);
      NothingLivesUnder(st, 0, i);
    }
    forall t | 0 <= t < |st.sched.tickets|
      ensures !Sched.Held(st.sched.tickets[t])
    {
      if Sched.Held(st.sched.tickets[t]) {
        var i := PermitHasOneHolder(st, t);
        assert false;
      }
    }
    Sched.NoneHeld(st.sched.tickets);
    PermitsConserved(st);
  }

  lemma {:induction false} RootIsAboveAll(st: State, j: nat)
    requires Core(st) && j < |st.launches|
    ensures UnderScope(st, 0, j)
    decreases j
  {
    hide Core;
    LaunchOk(st, j);
    if st.launches[j].scope > 0 {
      ScopeHasOpener(st, j);
      RootIsAboveAll(st, st.scopes[st.launches[j].scope].owner.value);
    }
  }

  // ---- the ledger ----

  /**
   Charging. The fresh count is exactly the number of callbacks ever started, each launch
   is started at most once and a replayed one never, and the cap covers everything
   charged and reserved.
   */
  lemma ChargedOncePerStart(st: State)
    requires Reachable(st)
    ensures Budget.Valid(st.ledger)
    ensures st.ledger.charged == SumStarts(st.launches)
    ensures forall i :: 0 <= i < |st.launches| ==> st.launches[i].starts <= 1
    ensures forall i :: 0 <= i < |st.launches| && st.launches[i].kind.Replayed? ==> st.launches[i].starts == 0
  {
    hide Reachable, Sound, Core;
    ReachableSound(st);
    SoundCore(st);
    forall i | 0 <= i < |st.launches|
      ensures PhaseOk(st.launches[i])
    {
      LaunchOk(st, i);
    }
  }

  /** Identities: sequence numbers count the invocations, and a parent's number is always smaller. */
  lemma ParentsComeFirst(st: State, i: nat)
    requires Reachable(st) && i < |st.launches|
    ensures st.ledger.sequence == |st.launches|
    ensures st.launches[i].scope > 0 ==>
              && st.launches[i].scope < |st.scopes|
              && st.scopes[st.launches[i].scope].owner.Some?
              && st.scopes[st.launches[i].scope].owner.value < i
  {
    hide Reachable, Sound, Core;
    ReachableSound(st);
    SoundCore(st);
    if st.launches[i].scope > 0 {
      ScopeHasOpener(st, i);
    }
  }
}
