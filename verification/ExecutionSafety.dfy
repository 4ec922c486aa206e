/**
 Every step of an execution root keeps its invariant.
 */
module ExecutionSafety {
  import opened Wrappers
  import opened ExecutionState
  import opened ExecutionStructure
  import opened ExecutionAdmission
  import Budget = ExecutionBudget
  import Sched = ExecutionScheduler

  ghost predicate Core(st: State) {
    && Structure(st.scopes, st.launches)
    && Admission(st.sched, st.launches)
    && Signals(st)
  }

  /** What aborting and recording failures leave alone. */
  predicate SameButStopped(st: State, st': State) {
    && st'.launches == st.launches && st'.ledger == st.ledger
    && st'.closed == st.closed && st'.closings == st.closings
  }

  ghost predicate FiredStay(st: State, st': State) {
    forall sig :: Fired(st.sched, sig) ==> Fired(st'.sched, sig) && st'.sched.aborted[sig] == st.sched.aborted[sig]
  }

  // ---- the pieces ----

  lemma AbortKeepsCore(st: State, target: Signal, reason: Error)
    requires Core(st)
    requires target.ResumeSignal? && target.launch < |st.launches| ==> st.launches[target.launch].phase.ReturnJoin?
    ensures Core(Abort(st, target, reason))
    ensures FiredStay(st, Abort(st, target, reason))
    ensures Exists(st, target) ==> Fired(Abort(st, target, reason).sched, target)
  {
    AbortKeepsAdmission(st.sched, st.launches, Dependents(st, target), reason);
    AbortMarks(st, target, reason);
    AbortFlows(st, target, reason);
    AbortKeepsResume(st, target, reason);
  }

  /** Signals flow down the ownership tree, and nothing else about launches or scopes matters to them. */
  lemma FlowKeeps(st: State, st': State)
    requires SignalsFlow(st)
    requires st'.sched.aborted == st.sched.aborted && st'.closed == st.closed
    requires |st.scopes| == |st'.scopes| && |st.launches| == |st'.launches|
    requires forall s :: 0 <= s < |st.scopes| ==> st'.scopes[s].owner == st.scopes[s].owner
    requires forall i :: 0 <= i < |st.launches| ==> st'.launches[i].scope == st.launches[i].scope
    ensures SignalsFlow(st')
  {
    forall sig | Fired(st'.sched, sig)
      ensures Exists(st', sig)
    {
      assert Fired(st.sched, sig);
    }
    forall s | 0 < s < |st'.scopes| && OpenerFired(st', s)
      ensures Fired(st'.sched, ScopeSignal(s))
    {
      assert OpenerFired(st, s);
      assert Fired(st.sched, ScopeSignal(s));
    }
    forall i | 0 <= i < |st'.launches|
      ensures Fired(st'.sched, ScopeSignal(st'.launches[i].scope)) ==> Fired(st'.sched, LaunchSignal(i))
      ensures Fired(st'.sched, LaunchSignal(i)) ==> Fired(st'.sched, ResumeSignal(i))
    {
      assert Fired(st.sched, ScopeSignal(st.launches[i].scope)) ==> Fired(st.sched, LaunchSignal(i));
      assert Fired(st.sched, LaunchSignal(i)) ==> Fired(st.sched, ResumeSignal(i));
    }
    assert st.closed ==> Fired(st.sched, ScopeSignal(0));
  }

  lemma RecordKeeps(st: State, s: nat, e: Error)
    requires Core(st) && s < |st.scopes|
    ensures var st' := Record(st, s, e);
            && Structure(st'.scopes, st'.launches) && Admission(st'.sched, st'.launches)
            && SignalsFlow(st') && SameButStopped(st, st') && st'.sched == st.sched
            && (forall i :: 0 <= i < |st'.launches| ==> ResumeOk(st'.sched, st'.launches[i], i))
            && |st'.scopes| == |st.scopes| && st'.scopes[s].failure.Some?
            && (forall c :: 0 <= c < |st.scopes| && c != s ==> st'.scopes[c] == st.scopes[c])
  {
    hide Structure, Admission, SignalsFlow, ResumeOk;
    if st.scopes[s].failure.None? {
      FailureKeeps(st.scopes, st.launches, s, e);
      FlowKeeps(st, Record(st, s, e));
    }
  }

  /** Record a failure in a scope and stop the scope, whichever of them was already done. */
  lemma RecordAndStopKeeps(st: State, s: nat, e: Error, reason: Error)
    requires Core(st) && s < |st.scopes|
    ensures var st' := Abort(Record(st, s, e), ScopeSignal(s), reason);
            && Core(st') && SameButStopped(st, st') && FiredStay(st, st')
            && st'.scopes == Record(st, s, e).scopes
  {
    RecordKeeps(st, s, e);
    var r := Record(st, s, e);
    AbortKeepsAdmission(r.sched, r.launches, Dependents(r, ScopeSignal(s)), reason);
    AbortMarks(r, ScopeSignal(s), reason);
    AbortFlows(r, ScopeSignal(s), reason);
    AbortKeepsResume(r, ScopeSignal(s), reason);
    FailuresStopped(st, s, e, reason);
    hide Admission, Structure, SignalsFlow, FailuresStop, ResumeOk, Dependents, DependsOn, Sched.Abort, Sched.Valid;
  }

  lemma FailuresStopped(st: State, s: nat, e: Error, reason: Error)
    requires FailuresStop(st) && s < |st.scopes| && Sched.Valid(st.sched)
    ensures FailuresStop(Abort(Record(st, s, e), ScopeSignal(s), reason))
  {
    var r := Record(st, s, e);
    AbortMarks(r, ScopeSignal(s), reason);
    assert ScopeSignal(s) in Dependents(r, ScopeSignal(s));
    hide Dependents, DependsOn, Sched.Abort, Sched.Valid;
    var st' := Abort(r, ScopeSignal(s), reason);
    forall c | 0 < c < |st'.scopes| && st'.scopes[c].failure.Some?
      ensures Fired(st'.sched, ScopeSignal(c))
    {
      if c != s {
        assert st.scopes[c].failure.Some?;
        assert Fired(st.sched, ScopeSignal(c));
      }
    }
  }

  lemma FailScopeKeeps(st: State, s: nat, e: Error)
    requires Core(st) && s < |st.scopes|
    ensures var st' := FailScope(st, s, e);
            && Core(st') && SameButStopped(st, st') && FiredStay(st, st')
            && st'.scopes == Record(st, s, e).scopes
            && st'.scopes[s].failure.Some?
  {
    if st.scopes[s].failure.Some? {
    } else if st.scopes[s].owner.None? {
      RecordKeeps(st, s, e);
      assert s == 0;
      var st' := FailScope(st, s, e);
      forall c | 0 < c < |st'.scopes| && st'.scopes[c].failure.Some?
        ensures Fired(st'.sched, ScopeSignal(c))
      {
        assert st.scopes[c].failure.Some?;
      }
    } else {
      RecordAndStopKeeps(st, s, e, e);
    }
  }

  /** One launch moves on, with its permit business done by `q'`. */
  lemma MoveKeepsCore(st: State, i: nat, v': Invocation, q': Scheduler)
    requires Core(st) && Is(st, i)
    requires Advances(st.scopes, st.launches[i], v') && v'.scope == st.launches[i].scope
    requires Admission(q', st.launches[i := v']) && q'.aborted == st.sched.aborted
    requires ResumeOk(st.sched, v', i)
    ensures Core(Set(st, i, v').(sched := q'))
  {
    hide Admission, Structure, Advances, SignalsFlow;
    var st' := Set(st, i, v').(sched := q');
    AdvanceKeeps(st.scopes, st.launches, i, v');
    FlowKeeps(st, st');
    forall k | 0 <= k < |st'.launches|
      ensures ResumeOk(st'.sched, st'.launches[k], k)
    {
      assert ResumeOk(st.sched, st.launches[k], k);
    }
    forall s | 0 < s < |st'.scopes| && st'.scopes[s].failure.Some?
      ensures Fired(st'.sched, ScopeSignal(s))
    {
      assert Fired(st.sched, ScopeSignal(s));
    }
  }

  /** What the invariant says of one launch. */
  lemma LaunchOk(st: State, i: nat)
    requires Core(st) && i < |st.launches|
    ensures Is(st, i)
    ensures PhaseOk(st.launches[i])
    ensures TicketOk(st.sched, st.launches[i], i)
    ensures ResumeOk(st.sched, st.launches[i], i)
    ensures DelegationOk(st.scopes, st.launches, i)
    ensures Sched.Valid(st.sched)
  {
    hide SignalsFlow, FailuresStop, PhaseOk, TicketOk, ResumeOk, DelegationOk;
  }

  /** Its signals follow its scope's. */
  lemma SignalOk(st: State, i: nat)
    requires Core(st) && i < |st.launches|
    ensures st.launches[i].scope < |st.scopes|
    ensures Fired(st.sched, ScopeSignal(st.launches[i].scope)) ==> Fired(st.sched, LaunchSignal(i))
    ensures Fired(st.sched, LaunchSignal(i)) ==> Fired(st.sched, ResumeSignal(i))
  {
    hide Admission;
  }

  // The five ways a launch moves on: keeping, dropping, asking for, giving back and activating a ticket.

  lemma MoveSame(st: State, i: nat, v': Invocation)
    requires Core(st) && Is(st, i)
    requires Advances(st.scopes, st.launches[i], v') && v'.scope == st.launches[i].scope
    requires TicketOf(v') == TicketOf(st.launches[i]) && TicketOk(st.sched, v', i) && ResumeOk(st.sched, v', i)
    requires TicketOf(v').Some? && st.sched.tickets[TicketOf(v').value].Waiting? ==>
               WaitSignal(v', i) == WaitSignal(st.launches[i], i)
    ensures Core(Set(st, i, v'))
  {
    hide Admission, Structure, Signals, Advances, ResumeOk;
    SameTicketKeeps(st.sched, st.launches, i, v');
    MoveKeepsCore(st, i, v', st.sched);
    assert Set(st, i, v').(sched := st.sched) == Set(st, i, v');
  }

  lemma MoveDrop(st: State, i: nat, v': Invocation)
    requires Core(st) && Is(st, i)
    requires Advances(st.scopes, st.launches[i], v') && v'.scope == st.launches[i].scope
    requires Waits(st.launches[i]) && WaitTicket(st.launches[i]) < |st.sched.tickets|
    requires st.sched.tickets[WaitTicket(st.launches[i])].Rejected?
    requires TicketOf(v') == None && ResumeOk(st.sched, v', i)
    ensures Core(Set(st, i, v'))
  {
    hide Admission, Structure, Signals, Advances, ResumeOk;
    DropKeeps(st.sched, st.launches, i, v');
    MoveKeepsCore(st, i, v', st.sched);
    assert Set(st, i, v').(sched := st.sched) == Set(st, i, v');
  }

  lemma MoveAcquire(st: State, i: nat, v': Invocation)
    requires Core(st) && Is(st, i)
    requires Advances(st.scopes, st.launches[i], v') && v'.scope == st.launches[i].scope
    requires TicketOf(st.launches[i]) == None
    requires Waits(v') && v'.permit.None? && WaitTicket(v') == |st.sched.tickets|
    requires ResumeOk(st.sched, v', i)
    ensures Core(Set(st, i, v').(sched := Sched.Acquire(st.sched, WaitSignal(v', i))))
  {
    hide Structure, Signals, Advances, ResumeOk;
    Sched.AcquireKeeps(st.sched, WaitSignal(v', i));
    hide Admission;
    AcquireKeepsAdmission(st.sched, st.launches, i, v');
    MoveKeepsCore(st, i, v', Sched.Acquire(st.sched, WaitSignal(v', i)));
  }

  lemma MoveRelease(st: State, i: nat, v': Invocation)
    requires Core(st) && Is(st, i)
    requires Advances(st.scopes, st.launches[i], v') && v'.scope == st.launches[i].scope
    requires TicketOf(st.launches[i]).Some? && TicketOf(st.launches[i]).value < |st.sched.tickets|
    requires Sched.Held(st.sched.tickets[TicketOf(st.launches[i]).value])
    requires TicketOf(v') == None && ResumeOk(st.sched, v', i)
    ensures Core(Set(st, i, v').(sched := Sched.Release(st.sched, TicketOf(st.launches[i]).value)))
    ensures Sched.Release(st.sched, TicketOf(st.launches[i]).value).aborted == st.sched.aborted
  {
    hide Structure, Signals, Advances, ResumeOk;
    Sched.ReleaseKeeps(st.sched, TicketOf(st.launches[i]).value);
    hide Admission;
    ReleaseKeepsAdmission(st.sched, st.launches, i, v');
    MoveKeepsCore(st, i, v', Sched.Release(st.sched, TicketOf(st.launches[i]).value));
  }

  lemma MoveActivate(st: State, i: nat, v': Invocation)
    requires Core(st) && Is(st, i)
    requires Advances(st.scopes, st.launches[i], v') && v'.scope == st.launches[i].scope
    requires Waits(st.launches[i]) && WaitTicket(st.launches[i]) < |st.sched.tickets|
    requires st.sched.tickets[WaitTicket(st.launches[i])].Granted?
    requires !Waits(v') && v'.permit == Some(WaitTicket(st.launches[i])) && ResumeOk(st.sched, v', i)
    ensures Core(Set(st, i, v').(sched := Sched.Activate(st.sched, WaitTicket(st.launches[i]))))
  {
    hide Structure, Signals, Advances, ResumeOk;
    Sched.ActivateKeeps(st.sched, WaitTicket(st.launches[i]));
    hide Admission;
    ActivateKeepsAdmission(st.sched, st.launches, i, v');
    MoveKeepsCore(st, i, v', Sched.Activate(st.sched, WaitTicket(st.launches[i])));
  }

  // How each field change advances a launch.

  lemma AdvancePhase(scopes: seq<Scope>, v: Invocation, v': Invocation)
    requires v.scope < |scopes| && PhaseOk(v) && PhaseOk(v')
    requires v'.scope == v.scope && v'.kind == v.kind && v'.delegation == v.delegation
    requires v'.delegationFailure == v.delegationFailure
    requires (v.launched ==> v'.launched) && (v'.launched && !v.launched ==> !scopes[v.scope].closed)
    requires !v.phase.Observed? && (v'.phase.Created? ==> v.phase.Created?)
    requires v'.phase.Observed? && v'.phase.outcome.Fail? ==> scopes[v.scope].failure.Some?
    ensures Advances(scopes, v, v')
  {}

  /** The end of a launch: its permit, if any, goes to the head of the queue. */
  lemma FinishKeeps(st: State, i: nat, outcome: Outcome)
    requires Core(st) && Is(st, i)
    requires var v := st.launches[i];
             && v.delegation.Idle? && (v.phase.ReturnJoin? || v.phase.ThrowJoin?)
             && (outcome.Ok? ==> v.starts == 1 && v.delegationFailure.None?)
    ensures Core(Finish(st, i, outcome))
    ensures Finish(st, i, outcome).sched.aborted == st.sched.aborted
  {
    hide Core;
    LaunchOk(st, i);
    var v := st.launches[i];
    var v' := v.(phase := Settled(outcome), permit := None);
    AdvancePhase(st.scopes, v, v');
    hide Advances, Sched.Valid;
    if v.permit.None? {
      MoveSame(st, i, v');
    } else {
      MoveRelease(st, i, v');
    }
  }

  /** The launch as the `catch` of `execute` leaves it. */
  function Caught(v: Invocation, e: Error): Invocation {
    if v.delegation.Idle? then v.(phase := Settled(Fail(e)), permit := None) else v.(phase := ThrowJoin(e))
  }

  lemma FinishShape(st: State, i: nat, outcome: Outcome)
    requires i < |st.launches|
    ensures var st' := Finish(st, i, outcome);
            && st'.launches == st.launches[i := st.launches[i].(phase := Settled(outcome), permit := None)]
            && st'.scopes == st.scopes && st'.ledger == st.ledger
            && st'.closed == st.closed && st'.closings == st.closings
  {
    hide Sched.Release;
  }

  lemma FiredStayOn(a: State, b: State, c: State)
    requires FiredStay(a, b) && FiredStay(b, c)
    ensures FiredStay(a, c)
  {}

  lemma SameFiredStay(a: State, b: State)
    requires b.sched.aborted == a.sched.aborted
    ensures FiredStay(a, b) && forall sig :: Fired(a.sched, sig) ==> Fired(b.sched, sig)
  {}

  /** Up to the `finally`: the scope and the launch are stopped. */
  lemma StopKeeps(st: State, i: nat, e: Error)
    requires Is(st, i) && Core(Set(st, i, st.launches[i].(phase := ThrowJoin(e))))
    ensures var thrown := Set(st, i, st.launches[i].(phase := ThrowJoin(e)));
            var stopped := Abort(FailScope(thrown, st.launches[i].scope, e), LaunchSignal(i), e);
            && Core(stopped) && SameButStopped(thrown, stopped)
            && stopped.scopes == Record(st, st.launches[i].scope, e).scopes
            && FiredStay(st, stopped) && Fired(stopped.sched, LaunchSignal(i))
  {
    hide Core, FailScope, Abort, FiredStay, Fired;
    var thrown := Set(st, i, st.launches[i].(phase := ThrowJoin(e)));
    FailScopeKeeps(thrown, st.launches[i].scope, e);
    var failed := FailScope(thrown, st.launches[i].scope, e);
    AbortKeepsCore(failed, LaunchSignal(i), e);
    AbortShape(failed, LaunchSignal(i), e);
    SameFiredStay(st, thrown);
    FiredStayOn(st, thrown, failed);
    FiredStayOn(st, failed, Abort(failed, LaunchSignal(i), e));
  }

  lemma CatchKeeps(st: State, i: nat, e: Error)
    requires Is(st, i) && Core(Set(st, i, st.launches[i].(phase := ThrowJoin(e))))
    ensures var st' := Catch(st, i, e);
            && Core(st')
            && st'.launches == st.launches[i := Caught(st.launches[i], e)]
            && st'.ledger == st.ledger && st'.closed == st.closed && st'.closings == st.closings
            && st'.scopes == Record(st, st.launches[i].scope, e).scopes
            && FiredStay(st, st') && Fired(st'.sched, LaunchSignal(i))
  {
    hide Core, FailScope, Abort, FiredStay, Fired, Finish;
    StopKeeps(st, i, e);
    var thrown := Set(st, i, st.launches[i].(phase := ThrowJoin(e)));
    var stopped := Abort(FailScope(thrown, st.launches[i].scope, e), LaunchSignal(i), e);
    if st.launches[i].delegation.Idle? {
      FinishKeeps(stopped, i, Fail(e));
      FinishShape(stopped, i, Fail(e));
      SameFiredStay(stopped, Finish(stopped, i, Fail(e)));
      FiredStayOn(st, stopped, Finish(stopped, i, Fail(e)));
    }
  }

  // ---- the steps ----

  lemma CreateFlows(st: State, st': State, v: Invocation)
    requires Signals(st)
    requires st'.sched.aborted == st.sched.aborted && st'.closed == st.closed && st'.scopes == st.scopes
    requires st'.launches == st.launches + [v] && v.phase.Created?
    requires !Fired(st.sched, ScopeSignal(v.scope))
    ensures Signals(st')
  {
    forall sig | Fired(st'.sched, sig)
      ensures Exists(st', sig)
    {
      assert Fired(st.sched, sig);
    }
    forall c | 0 < c < |st'.scopes| && OpenerFired(st', c)
      ensures Fired(st'.sched, ScopeSignal(c))
    {
      assert OpenerFired(st, c);
    }
    forall i | 0 <= i < |st'.launches|
      ensures Fired(st'.sched, ScopeSignal(st'.launches[i].scope)) ==> Fired(st'.sched, LaunchSignal(i))
      ensures Fired(st'.sched, LaunchSignal(i)) ==> Fired(st'.sched, ResumeSignal(i))
      ensures ResumeOk(st'.sched, st'.launches[i], i)
    {
      if i < |st.launches| {
        assert ResumeOk(st.sched, st.launches[i], i);
      } else {
        assert Fired(st.sched, ResumeSignal(i)) ==> Exists(st, ResumeSignal(i));
        assert Fired(st.sched, LaunchSignal(i)) ==> Exists(st, LaunchSignal(i));
      }
    }
  }

  lemma CreateKeepsCore(st: State, s: nat, kind: Budget.Kind, r: Option<Budget.Reservation>)
    requires Core(st) && Enabled(st, CreateInvocation(s, kind, r))
    ensures Core(AfterCreate(st, s, kind, r))
  {
    var v := Invocation(s, kind, r, Created, false, 0, None, Idle, None);
    hide Structure, Admission, Signals;
    CreateKeeps(st.scopes, st.launches, v);
    NewLaunchAdmission(st.sched, st.launches, v);
    CreateFlows(st, AfterCreate(st, s, kind, r), v);
  }

  lemma NewLaunchAdmission(q: Scheduler, vs: seq<Invocation>, v: Invocation)
    requires Admission(q, vs)
    requires !Waits(v) && v.permit.None?
    ensures Admission(q, vs + [v])
  {
    var vs' := vs + [v];
    forall t | 0 <= t < |q.tickets| && Outstanding(q.tickets[t])
      ensures HasOwner(vs', t)
    {
      var k :| 0 <= k < |vs| && TicketOf(vs[k]) == Some(t);
      assert TicketOf(vs'[k]) == Some(t);
    }
  }

  lemma RunKeepsCore(st: State, i: nat, late: bool)
    requires Core(st) && Enabled(st, Run(i, late))
    ensures Core(AfterRun(st, i, late))
  {
    hide Core;
    LaunchOk(st, i);
    var v := st.launches[i].(launched := !st.scopes[st.launches[i].scope].closed);
    var refusal := OpenError(st, v.scope);
    if refusal.Some? || late {
      var e := if refusal.Some? then refusal.value else Refused(Budget.DeadlinePassed);
      var v' := v.(phase := Settled(Fail(e)));
      AdvancePhase(st.scopes, st.launches[i], v');
      MoveSame(st, i, v');
    } else {
      var v' := v.(phase := Awaiting(|st.sched.tickets|));
      AdvancePhase(st.scopes, st.launches[i], v');
      MoveAcquire(st, i, v');
    }
  }

  /** A granted launch that may not start: its permit goes back after its scope has been stopped. */
  lemma RefusedStartKeepsCore(st: State, i: nat, e: Error)
    requires Core(st) && Is(st, i) && st.launches[i].phase.Awaiting?
    requires Answered(st, st.launches[i].phase.ticket) && st.sched.tickets[st.launches[i].phase.ticket].Granted?
    ensures var granted := Set(st, i, st.launches[i].(permit := Some(st.launches[i].phase.ticket)));
            && Core(Set(granted, i, granted.launches[i].(phase := ThrowJoin(e))))
            && Core(Catch(granted, i, e))
  {
    hide Core, Catch;
    LaunchOk(st, i);
    var v := st.launches[i];
    var v' := v.(permit := Some(v.phase.ticket), phase := ThrowJoin(e));
    AdvancePhase(st.scopes, v, v');
    MoveSame(st, i, v');
    var granted := Set(st, i, v.(permit := Some(v.phase.ticket)));
    assert Set(granted, i, granted.launches[i].(phase := ThrowJoin(e))) == Set(st, i, v');
    CatchKeeps(granted, i, e);
  }

  lemma StartKeepsCore(st: State, i: nat, late: bool)
    requires Core(st) && Enabled(st, Start(i, late))
    ensures Core(AfterStart(st, i, late))
  {
    hide Core, Catch;
    LaunchOk(st, i);
    var v := st.launches[i];
    var t := v.phase.ticket;
    var refusal := StartError(st, i, late);
    if st.sched.tickets[t].Rejected? {
      var v' := v.(phase := Settled(Fail(st.sched.tickets[t].reason)));
      AdvancePhase(st.scopes, v, v');
      MoveDrop(st, i, v');
    } else if refusal.Some? {
      RefusedStartKeepsCore(st, i, refusal.value);
    } else {
      var v' := v.(phase := Running, permit := Some(t), starts := v.starts + 1);
      AdvancePhase(st.scopes, v, v');
      SignalOk(st, i);
      MoveActivate(st, i, v');
      LedgerIsApart(Set(st, i, v').(sched := Sched.Activate(st.sched, t)),
                    Budget.Charge(st.ledger, v.reservation).value);
    }
  }

  lemma LedgerIsApart(st: State, ledger: Budget.Ledger)
    requires Core(st)
    ensures Core(st.(ledger := ledger))
  {
    hide Structure, Admission, ResumeOk;
    FlowKeeps(st, st.(ledger := ledger));
    var st' := st.(ledger := ledger);
    forall s | 0 < s < |st'.scopes| && st'.scopes[s].failure.Some?
      ensures Fired(st'.sched, ScopeSignal(s))
    {
      assert Fired(st.sched, ScopeSignal(s));
    }
  }

  lemma ReturnKeepsCore(st: State, i: nat)
    requires Core(st) && Enabled(st, CallbackReturns(i))
    ensures Core(AfterReturn(st, i))
  {
    hide Core, Catch, Abort, Finish;
    LaunchOk(st, i);
    var v := st.launches[i];
    var v' := v.(phase := ReturnJoin);
    AdvancePhase(st.scopes, v, v');
    MoveSame(st, i, v');
    var returned := Set(st, i, v');
    AbortKeepsCore(returned, ResumeSignal(i), AgentReturned);
    var stopped := Abort(returned, ResumeSignal(i), AgentReturned);
    AbortShape(returned, ResumeSignal(i), AgentReturned);
    if v.delegation.Idle? {
      if v.delegationFailure.Some? {
        ReadyToCatch(stopped, i, v.delegationFailure.value);
        CatchKeeps(stopped, i, v.delegationFailure.value);
      } else {
        FinishKeeps(stopped, i, Ok);
      }
    }
  }

  /** An abort moves no launch and no scope. */
  lemma AbortShape(st: State, target: Signal, reason: Error)
    ensures SameButStopped(st, Abort(st, target, reason))
    ensures Abort(st, target, reason).scopes == st.scopes
  {}

  /** A callback that is running or has returned may turn into one that threw. */
  lemma ReadyToCatch(st: State, i: nat, e: Error)
    requires Core(st) && Is(st, i)
    requires st.launches[i].phase.Running? || st.launches[i].phase.ReturnJoin?
    ensures Core(Set(st, i, st.launches[i].(phase := ThrowJoin(e))))
  {
    hide Core;
    LaunchOk(st, i);
    var v := st.launches[i];
    var v' := v.(phase := ThrowJoin(e));
    AdvancePhase(st.scopes, v, v');
    MoveSame(st, i, v');
  }

  lemma ThrowKeepsCore(st: State, i: nat, e: Error)
    requires Core(st) && Enabled(st, CallbackThrows(i, e))
    ensures Core(Catch(st, i, e))
  {
    hide Core, Catch;
    ReadyToCatch(st, i, e);
    CatchKeeps(st, i, e);
  }

  lemma WithChildrenKeepsCore(st: State, i: nat)
    requires Core(st) && Enabled(st, WithChildren(i))
    ensures Core(AfterWithChildren(st, i))
  {
    WithChildrenAdmission(st, i);
    hide Admission;
    OpenKeeps(st.scopes, st.launches, i);
    hide Structure, Signals;
    WithChildrenSignals(st, i);
  }

  /** Nothing below a new scope has fired, for it has only just come into being. */
  lemma OpenFlows(st: State, st': State, i: nat)
    requires SignalsFlow(st) && FailuresStop(st)
    requires st'.sched.aborted == st.sched.aborted && st'.closed == st.closed
    requires st'.scopes == st.scopes + [Scope(Some(i), false, None)]
    requires |st.launches| == |st'.launches| && !Fired(st.sched, LaunchSignal(i))
    requires forall k :: 0 <= k < |st.launches| ==> st'.launches[k].scope == st.launches[k].scope
    ensures SignalsFlow(st') && FailuresStop(st')
  {
    forall sig | Fired(st'.sched, sig)
      ensures Exists(st', sig)
    {
      assert Fired(st.sched, sig);
    }
    forall c | 0 < c < |st'.scopes| && OpenerFired(st', c)
      ensures Fired(st'.sched, ScopeSignal(c))
    {
      if c < |st.scopes| {
        assert OpenerFired(st, c);
        assert Fired(st.sched, ScopeSignal(c));
      }
    }
    forall k | 0 <= k < |st'.launches|
      ensures Fired(st'.sched, ScopeSignal(st'.launches[k].scope)) ==> Fired(st'.sched, LaunchSignal(k))
      ensures Fired(st'.sched, LaunchSignal(k)) ==> Fired(st'.sched, ResumeSignal(k))
    {
      assert Fired(st.sched, ScopeSignal(st.launches[k].scope)) ==> Fired(st.sched, LaunchSignal(k));
      assert Fired(st.sched, LaunchSignal(k)) ==> Fired(st.sched, ResumeSignal(k));
    }
    forall c | 0 < c < |st'.scopes| && st'.scopes[c].failure.Some?
      ensures Fired(st'.sched, ScopeSignal(c))
    {
      assert st.scopes[c].failure.Some?;
    }
    assert !st.closed || Fired(st.sched, ScopeSignal(0));
  }

  lemma WithChildrenSignals(st: State, i: nat)
    requires Core(st) && Enabled(st, WithChildren(i))
    ensures Signals(AfterWithChildren(st, i))
  {
    WithChildrenAdmission(st, i);
    var st' := AfterWithChildren(st, i);
    hide Core, Admission, Structure, Sched.Release, PhaseOk, TicketOk, SignalsFlow;
    CoreSignals(st);
    OpenFlows(st, st', i);
    forall k | 0 <= k < |st'.launches|
      ensures ResumeOk(st'.sched, st'.launches[k], k)
    {
      assert ResumeOk(st.sched, st.launches[k], k);
    }
  }

  lemma CoreSignals(st: State)
    requires Core(st)
    ensures Signals(st)
  {}

  lemma WithChildrenAdmission(st: State, i: nat)
    requires Core(st) && Enabled(st, WithChildren(i))
    ensures Admission(AfterWithChildren(st, i).sched, AfterWithChildren(st, i).launches)
    ensures AfterWithChildren(st, i).sched.aborted == st.sched.aborted
  {
    hide Structure, Signals;
    LaunchOk(st, i);
    var v := st.launches[i];
    Sched.ReleaseKeeps(st.sched, v.permit.value);
    hide Admission;
    ReleaseKeepsAdmission(st.sched, st.launches, i, v.(permit := None, delegation := Working(|st.scopes|)));
  }

  /** Closing a child scope moves no permit and fires no signal. */
  lemma CloseScopeKeepsCore(st: State, i: nat, work: Outcome)
    requires Core(st) && Is(st, i) && st.launches[i].delegation.Working?
             && st.launches[i].delegation.child < |st.scopes|
    ensures Core(CloseScope(st, i, work))
  {
    var v := st.launches[i];
    var c := v.delegation.child;
    var v' := v.(delegation := Draining(c, Jobs(st, c), work));
    LaunchOk(st, i);
    hide Signals, Structure, Admission;
    CloseKeeps(st.scopes, st.launches, i, Jobs(st, c), work);
    SameTicketKeeps(st.sched, st.launches, i, v');
    CloseScopeSignals(st, i, work);
  }

  lemma CloseScopeSignals(st: State, i: nat, work: Outcome)
    requires Core(st) && Is(st, i) && st.launches[i].delegation.Working?
             && st.launches[i].delegation.child < |st.scopes|
    ensures Signals(CloseScope(st, i, work))
  {
    hide Structure, Admission;
    var st' := CloseScope(st, i, work);
    FlowKeeps(st, st');
    forall k | 0 <= k < |st'.launches|
      ensures ResumeOk(st'.sched, st'.launches[k], k)
    {
      assert ResumeOk(st.sched, st.launches[k], k);
    }
    forall s | 0 < s < |st'.scopes| && st'.scopes[s].failure.Some?
      ensures Fired(st'.sched, ScopeSignal(s))
    {
      assert st.scopes[s].failure.Some?;
    }
  }

  lemma WorkThrowsKeepsCore(st: State, i: nat, e: Error)
    requires Core(st) && Enabled(st, WorkThrows(i, e))
    ensures Core(AfterWorkThrows(st, i, e))
  {
    hide Core, CloseScope, Abort;
    var c := st.launches[i].delegation.child;
    var failed := Record(st, c, e);
    RecordAndStopKeeps(st, c, e, failed.scopes[c].failure.value);
    var stopped := Abort(failed, ScopeSignal(c), failed.scopes[c].failure.value);
    CloseScopeKeepsCore(stopped, i, Fail(e));
  }

  lemma DrainKeepsCore(st: State, i: nat)
    requires Core(st) && Enabled(st, Drain(i))
    ensures Core(AfterDrain(st, i))
  {
    var v := st.launches[i];
    var v' := v.(delegation := Drained(v.delegation.child, DrainResult(st, v.delegation.child, v.delegation.work)));
    LaunchOk(st, i);
    hide Signals, Structure, Admission;
    DrainKeeps(st.scopes, st.launches, i, v'.delegation.result);
    SameTicketKeeps(st.sched, st.launches, i, v');
    hide DrainResult;
    DrainSignals(st, i, v');
  }

  lemma DrainSignals(st: State, i: nat, v': Invocation)
    requires Core(st) && Is(st, i) && v'.scope == st.launches[i].scope
    requires ResumeOk(st.sched, v', i)
    ensures Signals(Set(st, i, v'))
  {
    hide Structure, Admission;
    var st' := Set(st, i, v');
    FlowKeeps(st, st');
    forall k | 0 <= k < |st'.launches|
      ensures ResumeOk(st'.sched, st'.launches[k], k)
    {
      assert ResumeOk(st.sched, st.launches[k], k);
    }
    forall s | 0 < s < |st'.scopes| && st'.scopes[s].failure.Some?
      ensures Fired(st'.sched, ScopeSignal(s))
    {
      assert st.scopes[s].failure.Some?;
    }
  }

  /** A delegation past its drain moves on; what it knows of failures only grows. */
  lemma AdvanceDelegation(scopes: seq<Scope>, v: Invocation, v': Invocation)
    requires v.scope < |scopes| && PhaseOk(v) && PhaseOk(v')
    requires v' == v.(delegation := v'.delegation, delegationFailure := v'.delegationFailure, permit := v'.permit)
    requires v.delegation.Drained? || v.delegation.Reentering? || v.delegation.Settling?
    requires v.delegationFailure.Some? ==> v'.delegationFailure.Some?
    requires match v'.delegation
             case Drained(c, r) => c == v.delegation.child && (v.delegation.result.Fail? ==> r.Fail?)
             case Reentering(c, r, _) => c == v.delegation.child && (v.delegation.result.Fail? ==> r.Fail?)
             case Settling(c, r) => c == v.delegation.child && (v.delegation.result.Fail? ==> r.Fail?)
             case Idle => v.delegation.result.Fail? ==> v'.delegationFailure.Some?
             case _ => false
    requires v.phase.Observed? ==> v'.phase == v.phase
    requires v.phase.Observed? && v.phase.outcome.Fail? ==> scopes[v.scope].failure.Some?
    ensures Advances(scopes, v, v')
  {}

  lemma ReenterKeepsCore(st: State, i: nat)
    requires Core(st) && Enabled(st, Reenter(i))
    ensures Core(AfterReenter(st, i))
  {
    hide Core;
    LaunchOk(st, i);
    var v := st.launches[i];
    var d := v.delegation;
    var refusal := LiveError(st, LaunchSignal(i));
    if !v.phase.Running? || refusal.Some? {
      var r := if v.phase.Running? then Fail(refusal.value) else d.result;
      var v' := v.(delegation := Settling(d.child, r));
      AdvanceDelegation(st.scopes, v, v');
      if st.closed { ClosedIsFired(st, i); }
      MoveSame(st, i, v');
    } else {
      var v' := v.(delegation := Reentering(d.child, d.result, |st.sched.tickets|));
      AdvanceDelegation(st.scopes, v, v');
      MoveAcquire(st, i, v');
    }
  }

  /** A closed root has fired every signal there is. */
  lemma ClosedIsFired(st: State, i: nat)
    requires Core(st) && i < |st.launches| && st.closed
    ensures Fired(st.sched, LaunchSignal(i))
    ensures Fired(st.sched, ScopeSignal(st.launches[i].scope))
    decreases i
  {
    SignalOk(st, i);
    var s := st.launches[i].scope;
    if s > 0 {
      ScopeOpener(st, i);
      ClosedIsFired(st, st.scopes[s].owner.value);
    }
  }

  lemma ScopeOpener(st: State, i: nat)
    requires Core(st) && i < |st.launches| && st.launches[i].scope > 0
    ensures st.launches[i].scope < |st.scopes| && st.scopes[st.launches[i].scope].owner.Some?
    ensures st.scopes[st.launches[i].scope].owner.value < i
    ensures Fired(st.sched, LaunchSignal(st.scopes[st.launches[i].scope].owner.value)) ==>
              Fired(st.sched, ScopeSignal(st.launches[i].scope))
  {
    hide Admission, PhaseOk, MemberOk, ResumeOk;
    assert OpenerFired(st, st.launches[i].scope) ==> Fired(st.sched, ScopeSignal(st.launches[i].scope));
  }

  lemma ResumeKeepsCore(st: State, i: nat)
    requires Core(st) && Enabled(st, Resume(i))
    ensures Core(AfterResume(st, i))
  {
    hide Core;
    LaunchOk(st, i);
    SignalOk(st, i);
    var v := st.launches[i];
    var d := v.delegation;
    var stopped := Aborted(st, LaunchSignal(i));
    var ticket := st.sched.tickets[d.ticket];
    if ticket.Rejected? {
      var r := if !v.phase.ReturnJoin? || stopped then Fail(ticket.reason) else d.result;
      var v' := v.(delegation := Settling(d.child, r));
      AdvanceDelegation(st.scopes, v, v');
      MoveDrop(st, i, v');
    } else if v.phase.Running? && !Aborted(st, ResumeSignal(i)) {
      var v' := v.(permit := Some(d.ticket), delegation := Settling(d.child, d.result));
      AdvanceDelegation(st.scopes, v, v');
      MoveActivate(st, i, v');
    } else {
      var r := if stopped then Fail(Reason(st, LaunchSignal(i))) else d.result;
      var v' := v.(delegation := Settling(d.child, r));
      AdvanceDelegation(st.scopes, v, v');
      MoveRelease(st, i, v');
    }
  }

  lemma SettleKeepsCore(st: State, i: nat)
    requires Core(st) && Enabled(st, SettleDelegation(i))
    ensures Core(AfterSettle(st, i))
  {
    hide Core, Catch, Finish;
    LaunchOk(st, i);
    var v := st.launches[i];
    var result := v.delegation.result;
    var v' := Remember(v.(delegation := Idle), result);
    AdvanceDelegation(st.scopes, v, v');
    MoveSame(st, i, v');
    var idle := Set(st, i, v');
    match v.phase {
      case ReturnJoin =>
        if result.Fail? {
          ReadyToCatch(idle, i, result.error);
          CatchKeeps(idle, i, result.error);
        } else if v.delegationFailure.Some? {
          ReadyToCatch(idle, i, v.delegationFailure.value);
          CatchKeeps(idle, i, v.delegationFailure.value);
        } else {
          FinishKeeps(idle, i, Ok);
        }
      case ThrowJoin(e) => FinishKeeps(idle, i, Fail(e));
      case _ =>
    }
  }

  lemma ObserveKeepsCore(st: State, i: nat)
    requires Core(st) && Enabled(st, Observe(i))
    ensures Core(AfterObserve(st, i))
  {
    hide Core;
    LaunchOk(st, i);
    var v := st.launches[i];
    var o := v.phase.outcome;
    var v' := v.(phase := Observed(o));
    if o.Fail? {
      FailScopeKeeps(st, v.scope, o.error);
      var failed := FailScope(st, v.scope, o.error);
      LaunchOk(failed, i);
      AdvancePhase(failed.scopes, v, v');
      MoveSame(failed, i, v');
      ObserveCommutes(st, i, v');
    } else {
      AdvancePhase(st.scopes, v, v');
      MoveSame(st, i, v');
    }
  }

  /** Removing a job from its scope and failing the scope may be done in either order. */
  lemma ObserveCommutes(st: State, i: nat, v': Invocation)
    requires Is(st, i) && v'.scope == st.launches[i].scope
    requires v'.phase.Observed? && v'.phase.outcome.Fail?
    ensures Set(FailScope(st, v'.scope, v'.phase.outcome.error), i, v')
            == FailScope(Set(st, i, v'), v'.scope, v'.phase.outcome.error)
  {
    hide Sched.Abort;
    var e := v'.phase.outcome.error;
    var r, r' := Record(st, v'.scope, e), Record(Set(st, i, v'), v'.scope, e);
    SameDependents(r, r', ScopeSignal(v'.scope));
  }

  lemma {:induction false} SameDependsOn(st: State, st': State, sig: Signal, target: Signal)
    requires |st.scopes| == |st'.scopes| && |st.launches| == |st'.launches|
    requires forall s :: 0 <= s < |st.scopes| ==> st'.scopes[s].owner == st.scopes[s].owner
    requires forall i :: 0 <= i < |st.launches| ==> st'.launches[i].scope == st.launches[i].scope
    ensures DependsOn(st, sig, target) == DependsOn(st', sig, target)
    decreases ScopeOf(st, sig), match sig case ScopeSignal(_) => 0 case LaunchSignal(_) => 1 case ResumeSignal(_) => 2
  {
    match sig {
      case ScopeSignal(s) =>
        if s < |st.scopes| && st.scopes[s].owner.Some? && st.scopes[s].owner.value < |st.launches|
           && st.launches[st.scopes[s].owner.value].scope < s {
          SameDependsOn(st, st', LaunchSignal(st.scopes[s].owner.value), target);
        }
      case LaunchSignal(i) =>
        if i < |st.launches| { SameDependsOn(st, st', ScopeSignal(st.launches[i].scope), target); }
      case ResumeSignal(i) => SameDependsOn(st, st', LaunchSignal(i), target);
    }
  }

  lemma SameDependents(st: State, st': State, target: Signal)
    requires |st.scopes| == |st'.scopes| && |st.launches| == |st'.launches|
    requires forall s :: 0 <= s < |st.scopes| ==> st'.scopes[s].owner == st.scopes[s].owner
    requires forall i :: 0 <= i < |st.launches| ==> st'.launches[i].scope == st.launches[i].scope
    ensures Dependents(st, target) == Dependents(st', target)
  {
    forall sig
      ensures sig in Dependents(st, target) <==> sig in Dependents(st', target)
    {
      SameDependsOn(st, st', sig, target);
    }
  }

  /** Once the root signal has fired, marking the root closed changes nothing else. */
  lemma ClosedKeepsSignals(stopped: State, st': State)
    requires Signals(stopped) && Fired(stopped.sched, ScopeSignal(0))
    requires st' == stopped.(closed := true, closings := st'.closings)
    ensures Signals(st')
  {
    hide ResumeOk, OpenerFired;
    FlowKeeps(stopped, st'.(closed := stopped.closed));
    OpenersSame(st'.(closed := stopped.closed), st');
    assert FailuresStop(st');
    hide FailuresStop;
    ClosedKeepsFlow(st'.(closed := stopped.closed), st');
  }

  lemma OpenersSame(st: State, st': State)
    requires st' == st.(closed := true)
    ensures forall s :: 0 < s < |st'.scopes| ==> (OpenerFired(st', s) <==> OpenerFired(st, s))
    ensures forall sig :: Exists(st', sig) <==> Exists(st, sig)
  {}

  lemma ClosedKeepsFlow(st: State, st': State)
    requires SignalsFlow(st) && st' == st.(closed := true) && Fired(st.sched, ScopeSignal(0))
    ensures SignalsFlow(st')
  {
    OpenersSame(st, st');
    hide OpenerFired, Exists;
  }

  lemma CloseKeepsCore(st: State, reason: Error)
    requires Core(st)
    ensures Core(AfterClose(st, reason))
  {
    hide Structure, Admission, Signals, Abort;
    AbortKeepsCore(st, ScopeSignal(0), reason);
    AbortFires(st, reason);
    ClosedKeepsSignals(Abort(st, ScopeSignal(0), reason), AfterClose(st, reason));
  }

  lemma AbortFires(st: State, reason: Error)
    requires Core(st)
    ensures Fired(Abort(st, ScopeSignal(0), reason).sched, ScopeSignal(0))
  {
    hide Structure, Signals;
    RootExists(st);
    AbortMarks(st, ScopeSignal(0), reason);
  }

  lemma RootExists(st: State)
    requires Core(st)
    ensures |st.scopes| > 0 && st.scopes[0].owner.None?
  {}

  /** Every step of the root keeps its invariant. */
  lemma StepKeepsCore(st: State, step: Step)
    requires Core(st) && Enabled(st, step)
    ensures Core(Next(st, step))
  {
    hide Core, Catch, AfterRun, AfterStart, AfterReturn, AfterResume, AfterSettle, AfterReenter;
    match step {
      case CreateInvocation(s, kind, r) => CreateKeepsCore(st, s, kind, r);
      case Run(i, late) => RunKeepsCore(st, i, late);
      case Start(i, late) => StartKeepsCore(st, i, late);
      case CallbackReturns(i) => ReturnKeepsCore(st, i);
      case CallbackThrows(i, e) => ThrowKeepsCore(st, i, e);
      case WithChildren(i) => WithChildrenKeepsCore(st, i);
      case WorkReturns(i) => CloseScopeKeepsCore(st, i, Ok);
      case WorkThrows(i, e) => WorkThrowsKeepsCore(st, i, e);
      case Drain(i) => DrainKeepsCore(st, i);
      case Reenter(i) => ReenterKeepsCore(st, i);
      case Resume(i) => ResumeKeepsCore(st, i);
      case SettleDelegation(i) => SettleKeepsCore(st, i);
      case Observe(i) => ObserveKeepsCore(st, i);
      case Cancel(reason) => AbortKeepsCore(st, ScopeSignal(0), reason);
      case Close(reason) => CloseKeepsCore(st, reason);
      case Reserve(count) => LedgerIsApart(st, Budget.Reserve(st.ledger, count).value);
      case ReleaseReservation(r) => LedgerIsApart(st, Budget.Release(st.ledger, r).value);
    }
  }
}
