/**
 What a step of an execution root leaves behind, as its caller sees it: which launches
 start and when, how each one ends and with which error, and what that stops.
 */
module ExecutionOutcomes {
  import opened Wrappers
  import opened ExecutionState
  import opened ExecutionStructure
  import opened ExecutionAdmission
  import opened ExecutionSafety
  import opened ExecutionRuns
  import opened ExecutionTheorems
  import Budget = ExecutionBudget
  import Sched = ExecutionScheduler

  // ---- launching ----

  /** The ledger can pay for one launch: from the reservation it names, or from what nobody has reserved. */
  predicate Funded(l: Budget.Ledger, reservation: Option<Budget.Reservation>) {
    match reservation
    case None => l.totalAgents.None? || l.charged + l.reserved < l.totalAgents.value
    case Some(Foreign) => false
    case Some(Owned(id)) => id < |l.accounts| && l.accounts[id].active && l.accounts[id].remaining > 0
  }

  function Shortage(reservation: Option<Budget.Reservation>, accounts: nat): Budget.BudgetError {
    match reservation
    case None => Budget.CapExceeded
    case Some(Foreign) => Budget.ForeignReservation
    case Some(Owned(id)) => if id < accounts then Budget.CapExceeded else Budget.ForeignReservation
  }

  lemma ChargeSays(l: Budget.Ledger, reservation: Option<Budget.Reservation>)
    ensures var charge := Budget.Charge(l, reservation);
            if Funded(l, reservation) then
              && charge.Success? && charge.value.charged == l.charged + 1
              && charge.value.sequence == l.sequence && charge.value.replayed == l.replayed
            else charge == Failure(Shortage(reservation, |l.accounts|))
  {}

  /**
   A first `run`. On a live, open scope and in time it asks for one permit, the newest
   ticket, under the signal of its scope. Otherwise it is over at once, with the reason the
   scope was stopped with, as a launch in a closed scope, or as late; and no ticket is taken.
   */
  lemma RunOutcome(st: State, i: nat, late: bool)
    requires Reachable(st) && Enabled(st, Run(i, late))
    ensures |Next(st, Run(i, late)).launches| == |st.launches|
    ensures var st', s := Next(st, Run(i, late)), st.launches[i].scope;
            var v' := st'.launches[i];
            && s < |st.scopes| && v'.starts == st.launches[i].starts && st'.ledger == st.ledger
            && (v'.launched <==> !st.scopes[s].closed)
            && (if Fired(st.sched, ScopeSignal(s)) then
                  v'.phase == Settled(Fail(Reason(st, ScopeSignal(s)))) && st'.sched == st.sched
                else if st.scopes[s].closed then v'.phase == Settled(Fail(ScopeClosed)) && st'.sched == st.sched
                else if late then v'.phase == Settled(Fail(Refused(Budget.DeadlinePassed))) && st'.sched == st.sched
                else
                  && v'.phase == Awaiting(|st.sched.tickets|)
                  && |st'.sched.tickets| == |st.sched.tickets| + 1)
  {
    hide Reachable, Sound, Core, Sched.Acquire;
    ReachableSound(st);
    SoundCore(st);
    LaunchOk(st, i);
    if st.closed { ClosedIsFired(st, i); }
    Sched.AcquireKeeps(st.sched, ScopeSignal(st.launches[i].scope));
    hide PhaseOk, TicketOk, ResumeOk, DelegationOk, Sched.Valid, Sched.OnlyGrants;
  }

  /** Why a granted launch does not start, if it does not. */
  function Refusal(st: State, i: nat, late: bool): Option<Error>
    requires i < |st.launches|
  {
    var v := st.launches[i];
    if Fired(st.sched, ScopeSignal(v.scope)) then Some(Reason(st, ScopeSignal(v.scope)))
    else if late then Some(Refused(Budget.DeadlinePassed))
    else if !Funded(st.ledger, v.reservation) then Some(Refused(Shortage(v.reservation, |st.ledger.accounts|)))
    else None
  }

  /**
   The answer to a launch's permit request. It starts, is charged and activates its permit
   exactly when the permit was granted, its scope is live, the deadline has not passed and
   the ledger can pay. Otherwise it is over without having started, nothing is charged, and
   a granted permit goes back.
   */
  lemma StartOutcome(st: State, i: nat, late: bool)
    requires Reachable(st) && Enabled(st, Start(i, late))
    ensures |Next(st, Start(i, late)).launches| == |st.launches|
    ensures st.launches[i].phase.ticket < |st.sched.tickets| == |Next(st, Start(i, late)).sched.tickets|
    ensures var v, st' := st.launches[i], Next(st, Start(i, late));
            var v', ticket, refusal := st'.launches[i], st.sched.tickets[v.phase.ticket], Refusal(st, i, late);
            && (ticket.Granted? || ticket.Rejected?)
            && (if ticket.Granted? && refusal.None? then
                  && v'.phase == Running && v'.starts == v.starts + 1 && st'.ledger.charged == st.ledger.charged + 1
                  && v'.permit == Some(v.phase.ticket) && st'.sched.tickets[v.phase.ticket] == Sched.Executing
                else
                  && v'.phase == Settled(Fail(if ticket.Rejected? then ticket.reason else refusal.value))
                  && v'.starts == v.starts && st'.ledger == st.ledger && v'.permit.None?
                  && st'.sched.tickets[v.phase.ticket] == if ticket.Granted? then Sched.Released else ticket)
  {
    hide Reachable, Sound, Core, Catch, StartError, Sched.Activate, Budget.Charge;
    ReachableSound(st);
    SoundCore(st);
    LaunchOk(st, i);
    StartLedger(st, i, late);
    ErrorIsRefusal(st, i, late);
    ChargeSays(st.ledger, st.launches[i].reservation);
    var t := st.launches[i].phase.ticket;
    if st.sched.tickets[t].Granted? {
      if StartError(st, i, late).Some? {
        RefusedTicket(st, i, StartError(st, i, late).value);
      } else {
        Sched.ActivateKeeps(st.sched, t);
      }
    }
    hide TicketOk, ResumeOk, DelegationOk, Sched.Valid, Funded, Shortage, Fired;
  }

  lemma ErrorIsRefusal(st: State, i: nat, late: bool)
    requires Core(st) && Is(st, i)
    ensures StartError(st, i, late) == Refusal(st, i, late)
  {
    hide Core;
    if st.closed { ClosedIsFired(st, i); }
    ChargeSays(st.ledger, st.launches[i].reservation);
    hide Budget.Charge;
  }

  /** A granted launch that is refused gives its permit back. */
  lemma RefusedTicket(st: State, i: nat, e: Error)
    requires Core(st) && Is(st, i) && st.launches[i].phase.Awaiting?
    requires Answered(st, st.launches[i].phase.ticket) && st.sched.tickets[st.launches[i].phase.ticket].Granted?
    ensures var t := st.launches[i].phase.ticket;
            var st' := Catch(Set(st, i, st.launches[i].(permit := Some(t))), i, e);
            && |st'.launches| == |st.launches| && |st'.sched.tickets| == |st.sched.tickets|
            && st'.launches[i] == st.launches[i].(phase := Settled(Fail(e)), permit := None)
            && st'.sched.tickets[t] == Sched.Released
  {
    hide Core, Catch;
    LaunchOk(st, i);
    var t := st.launches[i].phase.ticket;
    var granted := Set(st, i, st.launches[i].(permit := Some(t)));
    RefusedStartKeepsCore(st, i, e);
    CatchKeeps(granted, i, e);
    CaughtTicket(granted, i, e);
    hide TicketOk, ResumeOk, DelegationOk, Sched.Valid;
  }

  /** The permit of a launch that ends by throwing goes back. */
  lemma CaughtTicket(st: State, i: nat, e: Error)
    requires Is(st, i) && Core(Set(st, i, st.launches[i].(phase := ThrowJoin(e))))
    requires st.launches[i].delegation.Idle?
    ensures |Catch(st, i, e).sched.tickets| == |st.sched.tickets|
    ensures var permit := st.launches[i].permit;
            permit.Some? ==>
              permit.value < |st.sched.tickets| && Catch(st, i, e).sched.tickets[permit.value] == Sched.Released
  {
    hide Core, FailScope, Abort;
    var thrown := Set(st, i, st.launches[i].(phase := ThrowJoin(e)));
    LaunchOk(thrown, i);
    StopKeeps(st, i, e);
    StoppedTickets(thrown, st.launches[i].scope, i, e);
    var stopped := Abort(FailScope(thrown, st.launches[i].scope, e), LaunchSignal(i), e);
    LaunchOk(stopped, i);
    if st.launches[i].permit.Some? {
      Sched.ReleaseKeeps(stopped.sched, st.launches[i].permit.value);
    }
    hide PhaseOk, ResumeOk, DelegationOk, Sched.Valid, Sched.Release, Sched.OnlyGrants;
  }

  lemma AbortKeepsTickets(st: State, target: Signal, reason: Error)
    requires Sched.Valid(st.sched)
    ensures |Abort(st, target, reason).sched.tickets| == |st.sched.tickets|
  {
    hide Sched.Abort, Dependents, Sched.Valid, Sched.OnlyWaitingMoves;
    Sched.AbortKeeps(st.sched, Dependents(st, target), reason);
  }

  lemma StoppedTickets(st: State, s: nat, i: nat, e: Error)
    requires Core(st) && s < |st.scopes|
    ensures |Abort(FailScope(st, s, e), LaunchSignal(i), e).sched.tickets| == |st.sched.tickets|
  {
    hide Core, Abort, Sched.Valid, FiredStay;
    CoreSched(st);
    FailScopeKeeps(st, s, e);
    CoreSched(FailScope(st, s, e));
    AbortKeepsTickets(Record(st, s, e), ScopeSignal(s), e);
    AbortKeepsTickets(FailScope(st, s, e), LaunchSignal(i), e);
  }

  lemma StartsMove(st: State, step: Step, i: nat)
    requires Sound(st) && Enabled(st, step) && i < |st.launches|
    requires st.launches[i].phase.Created? || st.launches[i].phase.Awaiting? || Done(st.launches[i])
    requires step != Start(i, false)
    ensures i < |Next(st, step).launches|
    ensures var v' := Next(st, step).launches[i];
            && v'.starts == st.launches[i].starts
            && (v'.phase.Created? || v'.phase.Awaiting? || Done(v'))
  {
    hide Sound, Core, LaunchEvolves, DelegationEvolves, Weight, Fired, Next, Starts;
    SoundCore(st);
    if Actor(step) == Some(i) {
      OwnStartsMove(st, step, i);
    } else {
      hide Enabled;
      if Actor(step).Some? {
        StepMoves(st, step, Actor(step).value);
      } else {
        SpectatorStep(st, step);
      }
    }
  }

  lemma OwnStartsMove(st: State, step: Step, i: nat)
    requires Core(st) && Enabled(st, step) && Actor(step) == Some(i) && i < |st.launches|
    requires st.launches[i].phase.Created? || st.launches[i].phase.Awaiting? || Done(st.launches[i])
    requires step != Start(i, false)
    ensures i < |Next(st, step).launches|
    ensures var v' := Next(st, step).launches[i];
            && v'.starts == st.launches[i].starts
            && (v'.phase.Created? || v'.phase.Awaiting? || Done(v'))
  {
    hide Core, AfterRun, AfterStart, AfterObserve;
    LaunchOk(st, i);
    hide TicketOk, ResumeOk, DelegationOk;
    assert step.Run? || step.Start? || step.Observe?;
    hide PhaseOk;
    match step {
      case Run(_, late) => RunLaunches(st, i, late);
      case Start(_, late) => LateStart(st, i);
      case Observe(_) => ObservedLaunches(st, i);
    }
  }

  lemma LateStart(st: State, i: nat)
    requires Core(st) && Enabled(st, Start(i, true))
    ensures |AfterStart(st, i, true).launches| == |st.launches|
    ensures var v' := AfterStart(st, i, true).launches[i]; v'.starts == st.launches[i].starts && Done(v')
  {
    hide Core, Catch;
    LaunchOk(st, i);
    ErrorIsRefusal(st, i, true);
    hide StartError, ResumeOk, DelegationOk, Sched.Valid;
    if st.sched.tickets[st.launches[i].phase.ticket].Granted? {
      RefusedTicket(st, i, StartError(st, i, true).value);
    }
  }

  lemma {:induction false} NeverStarts(st: State, steps: seq<Step>, i: nat)
    requires Sound(st) && Follows(st, steps) && i < |st.launches|
    requires st.launches[i].phase.Created? || st.launches[i].phase.Awaiting? || Done(st.launches[i])
    requires forall k :: 0 <= k < |steps| ==> steps[k] != Start(i, false)
    ensures i < |After(st, steps).launches|
    ensures After(st, steps).launches[i].starts == st.launches[i].starts
    ensures !After(st, steps).launches[i].phase.Running?
    decreases |steps|
  {
    hide Sound, Next, Enabled;
    if steps != [] {
      StartsMove(st, steps[0], i);
      StepKeepsSound(st, steps[0]);
      forall k | 0 <= k < |steps[1..]|
        ensures steps[1..][k] != Start(i, false)
      {
        assert steps[1..][k] == steps[k + 1];
      }
      NeverStarts(Next(st, steps[0]), steps[1..], i);
    }
  }

  /** After the deadline nothing starts: over any run, only an answer in time runs a callback that has not run yet. */
  lemma LateNeverStarts(st: State, steps: seq<Step>, i: nat)
    requires Reachable(st) && Follows(st, steps) && i < |st.launches|
    requires st.launches[i].phase.Created? || st.launches[i].phase.Awaiting?
    requires forall k :: 0 <= k < |steps| && steps[k].Start? && steps[k].i == i ==> steps[k].late
    ensures i < |After(st, steps).launches|
    ensures After(st, steps).launches[i].starts == st.launches[i].starts
    ensures !After(st, steps).launches[i].phase.Running?
  {
    hide Reachable, Sound, Follows, After;
    ReachableSound(st);
    NeverStarts(st, steps, i);
  }

  lemma LateStepChargesNothing(st: State, step: Step)
    requires Sound(st) && Enabled(st, step) && (step.Start? ==> step.late)
    ensures Next(st, step).ledger.charged == st.ledger.charged
  {
    hide Sound, Core, Next, StartError;
    SoundCore(st);
    StepLedger(st, step);
    if step.Start? {
      LaunchOk(st, step.i);
      ErrorIsRefusal(st, step.i, true);
    }
    hide PhaseOk, TicketOk, ResumeOk, DelegationOk, Sched.Valid;
  }

  /** And nothing is charged. */
  lemma {:induction false} LateChargesNothing(st: State, steps: seq<Step>)
    requires Sound(st) && Follows(st, steps)
    requires forall k :: 0 <= k < |steps| && steps[k].Start? ==> steps[k].late
    ensures After(st, steps).ledger.charged == st.ledger.charged
    decreases |steps|
  {
    hide Sound, Next, Enabled;
    if steps != [] {
      LateStepChargesNothing(st, steps[0]);
      StepKeepsSound(st, steps[0]);
      forall k | 0 <= k < |steps[1..]| && steps[1..][k].Start?
        ensures steps[1..][k].late
      {
        assert steps[1..][k] == steps[k + 1];
      }
      LateChargesNothing(Next(st, steps[0]), steps[1..]);
    }
  }

  // ---- what a failure stops ----

  /** A launch's signal follows the signal of a scope exactly when the launch is under the scope. */
  lemma {:induction false} FollowsScope(st: State, j: nat, c: nat)
    requires Shape(st.scopes, st.launches) && j < |st.launches|
    ensures DependsOn(st, LaunchSignal(j), ScopeSignal(c)) <==> UnderScope(st, c, j)
    decreases j
  {
    var s := st.launches[j].scope;
    assert DependsOn(st, LaunchSignal(j), ScopeSignal(c)) <==> DependsOn(st, ScopeSignal(s), ScopeSignal(c));
    if s > 0 {
      FollowsScope(st, st.scopes[s].owner.value, c);
    }
  }

  lemma {:induction false} FollowsLaunch(st: State, j: nat, i: nat)
    requires Shape(st.scopes, st.launches) && j < |st.launches|
    ensures DependsOn(st, LaunchSignal(j), LaunchSignal(i)) <==> j == i || Below(st, i, j)
    decreases j
  {
    var s := st.launches[j].scope;
    assert DependsOn(st, LaunchSignal(j), LaunchSignal(i)) <==>
             j == i || DependsOn(st, ScopeSignal(s), LaunchSignal(i));
    if s > 0 {
      FollowsLaunch(st, st.scopes[s].owner.value, i);
    }
  }

  /** Cancelling through one controller fires what depends on it, with its reason unless it had one. */
  lemma AbortSays(st: State, target: Signal, reason: Error)
    requires Sched.Valid(st.sched)
    ensures var st' := Abort(st, target, reason);
            && (forall sig :: Fired(st'.sched, sig) <==> Fired(st.sched, sig) || sig in Dependents(st, target))
            && (forall sig :: Fired(st'.sched, sig) ==>
                  Reason(st', sig) == if Fired(st.sched, sig) then Reason(st, sig) else reason)
  {
    hide Sched.Valid, Sched.Abort, Dependents, Sched.OnlyWaitingMoves;
    Sched.AbortKeeps(st.sched, Dependents(st, target), reason);
  }

  /** The same tree of scopes and launches. */
  predicate SameTree(st: State, st': State) {
    && |st.scopes| == |st'.scopes| && |st.launches| == |st'.launches|
    && (forall s :: 0 <= s < |st.scopes| ==> st'.scopes[s].owner == st.scopes[s].owner)
    && (forall i :: 0 <= i < |st.launches| ==> st'.launches[i].scope == st.launches[i].scope)
  }

  lemma UnderFollows(st: State, st': State, s: nat, j: nat)
    requires Shape(st.scopes, st.launches) && SameTree(st, st') && j < |st.launches| && UnderScope(st, s, j)
    ensures LaunchSignal(j) in Dependents(st', ScopeSignal(s))
  {
    hide UnderScope, DependsOn;
    FollowsScope(st, j, s);
    SameDependsOn(st, st', LaunchSignal(j), ScopeSignal(s));
    hide SameTree;
  }

  /** Cancelling a scope stops all that is under it. */
  lemma AbortStopsUnder(st: State, st': State, s: nat, reason: Error)
    requires Shape(st.scopes, st.launches) && SameTree(st, st') && Sched.Valid(st'.sched)
    ensures forall j :: 0 <= j < |st.launches| && UnderScope(st, s, j) ==>
              Fired(Abort(st', ScopeSignal(s), reason).sched, LaunchSignal(j))
  {
    AbortSays(st', ScopeSignal(s), reason);
    hide Shape, SameTree, UnderScope, Dependents, Abort, Sched.Valid, Fired;
    forall j | 0 <= j < |st.launches| && UnderScope(st, s, j)
      ensures LaunchSignal(j) in Dependents(st', ScopeSignal(s))
    {
      UnderFollows(st, st', s, j);
    }
  }

  /** The signals a failure of launch `i` fires. */
  predicate Stopped(st: State, i: nat, sig: Signal)
    requires Is(st, i)
  {
    var s := st.launches[i].scope;
    || sig in Dependents(st, LaunchSignal(i))
    || (st.scopes[s].owner.Some? && st.scopes[s].failure.None? && sig in Dependents(st, ScopeSignal(s)))
  }

  lemma StopSays(st: State, i: nat, e: Error)
    requires Is(st, i) && Core(Set(st, i, st.launches[i].(phase := ThrowJoin(e))))
    ensures var stopped := Abort(FailScope(Set(st, i, st.launches[i].(phase := ThrowJoin(e))), st.launches[i].scope, e),
                                 LaunchSignal(i), e);
            && (forall sig :: Fired(stopped.sched, sig) <==> Fired(st.sched, sig) || Stopped(st, i, sig))
            && (forall sig :: Fired(stopped.sched, sig) ==>
                  Reason(stopped, sig) == if Fired(st.sched, sig) then Reason(st, sig) else e)
  {
    hide Core, Abort, Dependents;
    var s := st.launches[i].scope;
    var thrown := Set(st, i, st.launches[i].(phase := ThrowJoin(e)));
    var recorded, failed := Record(thrown, s, e), FailScope(thrown, s, e);
    FailScopeKeeps(thrown, s, e);
    CoreSched(thrown);
    CoreSched(failed);
    AbortSays(recorded, ScopeSignal(s), e);
    AbortSays(failed, LaunchSignal(i), e);
    AbortShape(recorded, ScopeSignal(s), e);
    SameDependents(st, recorded, ScopeSignal(s));
    SameDependents(st, failed, LaunchSignal(i));
    hide Sched.Valid, FiredStay;
  }

  /** The scope keeps the first failure it was told of. */
  predicate FirstFailure(c: Scope, c': Scope, e: Error) {
    c' == if c.failure.Some? then c else c.(failure := Some(e))
  }

  lemma CatchSays(st: State, i: nat, e: Error)
    requires Is(st, i) && Core(Set(st, i, st.launches[i].(phase := ThrowJoin(e))))
    ensures |Catch(st, i, e).scopes| == |st.scopes| && |Catch(st, i, e).launches| == |st.launches|
    ensures var st', s := Catch(st, i, e), st.launches[i].scope;
            && st'.launches[i] ==
               (if st.launches[i].delegation.Idle? then st.launches[i].(phase := Settled(Fail(e)), permit := None)
                else st.launches[i].(phase := ThrowJoin(e)))
            && FirstFailure(st.scopes[s], st'.scopes[s], e)
            && (forall c :: 0 <= c < |st.scopes| && c != s ==> st'.scopes[c] == st.scopes[c])
            && (forall sig :: Fired(st'.sched, sig) <==> Fired(st.sched, sig) || Stopped(st, i, sig))
            && (forall sig :: Fired(st'.sched, sig) ==>
                  Reason(st', sig) == if Fired(st.sched, sig) then Reason(st, sig) else e)
  {
    hide Core, Abort, FailScope, Stopped, Finish;
    CatchKeeps(st, i, e);
    StopSays(st, i, e);
    StopKeeps(st, i, e);
    var stopped := Abort(FailScope(Set(st, i, st.launches[i].(phase := ThrowJoin(e))), st.launches[i].scope, e),
                         LaunchSignal(i), e);
    if st.launches[i].delegation.Idle? {
      FinishKeeps(stopped, i, Fail(e));
    }
    hide FiredStay;
  }

  /**
   A callback throws. Its launch ends with that error, or waits for its delegation first;
   its scope records the error unless it has recorded one. What stops, with that error, is
   what is below the launch, and for the first failure of a nested scope all that is under
   the scope; nothing else does.
   */
  lemma ThrowOutcome(st: State, i: nat, e: Error)
    requires Reachable(st) && Enabled(st, CallbackThrows(i, e))
    ensures var st', s := Next(st, CallbackThrows(i, e)), st.launches[i].scope;
            && |st'.launches| == |st.launches| && |st'.scopes| == |st.scopes| && s < |st.scopes|
            && st'.launches[i] ==
               (if st.launches[i].delegation.Idle? then st.launches[i].(phase := Settled(Fail(e)), permit := None)
                else st.launches[i].(phase := ThrowJoin(e)))
            && FirstFailure(st.scopes[s], st'.scopes[s], e)
            && (forall j :: 0 <= j < |st.launches| ==>
                  (Fired(st'.sched, LaunchSignal(j)) <==>
                     || Fired(st.sched, LaunchSignal(j)) || j == i || Below(st, i, j)
                     || (s > 0 && st.scopes[s].failure.None? && UnderScope(st, s, j))))
            && (forall sig :: Fired(st'.sched, sig) ==>
                  Reason(st', sig) == if Fired(st.sched, sig) then Reason(st, sig) else e)
  {
    hide Reachable, Sound, Core, Catch, Stopped, Below, UnderScope, Next, Enabled, Shape, Fired, FirstFailure;
    NextThrows(st, i, e);
    ReachableSound(st);
    SoundCore(st);
    CoreIsShaped(st);
    NestedIsOwned(st, i);
    ReadyToCatch(st, i, e);
    CatchSays(st, i, e);
    forall j | 0 <= j < |st.launches|
      ensures Stopped(st, i, LaunchSignal(j)) <==>
              || j == i || Below(st, i, j)
              || (st.launches[i].scope > 0 && st.scopes[st.launches[i].scope].failure.None?
                  && UnderScope(st, st.launches[i].scope, j))
    {
      StoppedIs(st, i, j);
    }
  }

  lemma NextThrows(st: State, i: nat, e: Error)
    requires Enabled(st, CallbackThrows(i, e))
    ensures Next(st, CallbackThrows(i, e)) == Catch(st, i, e) && Is(st, i) && st.launches[i].phase.Running?
  {
    hide Catch;
  }

  lemma NestedIsOwned(st: State, i: nat)
    requires Shape(st.scopes, st.launches) && i < |st.launches|
    ensures Is(st, i)
    ensures st.launches[i].scope > 0 <==> st.scopes[st.launches[i].scope].owner.Some?
  {}

  lemma StoppedIs(st: State, i: nat, j: nat)
    requires Shape(st.scopes, st.launches) && Is(st, i) && j < |st.launches|
    ensures Stopped(st, i, LaunchSignal(j)) <==>
            || j == i || Below(st, i, j)
            || (st.launches[i].scope > 0 && st.scopes[st.launches[i].scope].failure.None?
                && UnderScope(st, st.launches[i].scope, j))
  {
    hide DependsOn, Below, UnderScope;
    FollowsLaunch(st, j, i);
    FollowsScope(st, j, st.launches[i].scope);
  }

  lemma CoreIsShaped(st: State)
    requires Core(st)
    ensures Shape(st.scopes, st.launches)
  {}

  // ---- how the other steps end ----

  /** The error a launch ends with when its callback has returned: its latest rejected delegation, or the first. */
  function JoinFailure(v: Invocation, result: Outcome): Option<Error> {
    if result.Fail? then Some(result.error) else v.delegationFailure
  }

  /**
   A callback returns. With no delegation open its launch ends at once: with success, or
   with the delegation failure the callback has swallowed. Otherwise it waits for the
   delegation. A re-entry still queued is refused from now on.
   */
  lemma ReturnOutcome(st: State, i: nat)
    requires Reachable(st) && Enabled(st, CallbackReturns(i))
    ensures |Next(st, CallbackReturns(i)).launches| == |st.launches|
    ensures var v, st' := st.launches[i], Next(st, CallbackReturns(i));
            && st'.ledger == st.ledger
            && st'.launches[i] ==
               (if !v.delegation.Idle? then v.(phase := ReturnJoin)
                else if v.delegationFailure.Some? then
                  v.(phase := Settled(Fail(v.delegationFailure.value)), permit := None)
                else v.(phase := Settled(Ok), permit := None))
            && Fired(st'.sched, ResumeSignal(i))
  {
    hide Reachable, Sound, Core, Catch, Abort, Finish, Advances;
    ReachableSound(st);
    SoundCore(st);
    ReturnedLaunches(st, i);
    ReturnLedger(st, i);
    ReturnStopsReentry(st, i);
  }

  lemma ReturnStopsReentry(st: State, i: nat)
    requires Core(st) && Enabled(st, CallbackReturns(i))
    ensures Fired(AfterReturn(st, i).sched, ResumeSignal(i))
  {
    hide Core, Catch, Abort, Finish, Advances;
    LaunchOk(st, i);
    var v := st.launches[i];
    var v' := v.(phase := ReturnJoin);
    AdvancePhase(st.scopes, v, v');
    MoveSame(st, i, v');
    hide PhaseOk, TicketOk, ResumeOk, DelegationOk;
    var returned := Set(st, i, v');
    AbortKeepsCore(returned, ResumeSignal(i), AgentReturned);
    AbortShape(returned, ResumeSignal(i), AgentReturned);
    var stopped := Abort(returned, ResumeSignal(i), AgentReturned);
    LaunchOk(stopped, i);
    if v.delegation.Idle? && v.delegationFailure.Some? {
      ReadyToCatch(stopped, i, v.delegationFailure.value);
      CatchKeeps(stopped, i, v.delegationFailure.value);
    } else if v.delegation.Idle? {
      hide Fired;
      FinishFires(stopped, i, Ok);
    }
  }

  lemma FinishFires(st: State, i: nat, outcome: Outcome)
    requires Core(st) && i < |st.launches|
    ensures Finish(st, i, outcome).sched.aborted == st.sched.aborted
  {
    LaunchOk(st, i);
    hide Core;
    if st.launches[i].permit.Some? && !Waits(st.launches[i]) {
      Sched.ReleaseKeeps(st.sched, st.launches[i].permit.value);
    }
  }

  /**
   The promise of `withChildren` settles. The launch remembers its first rejection. A
   callback that has returned ends its launch now, failing if this or an earlier delegation
   was rejected; one that has thrown ends it with what it threw; a running one goes on.
   */
  lemma SettleOutcome(st: State, i: nat)
    requires Reachable(st) && Enabled(st, SettleDelegation(i))
    ensures |Next(st, SettleDelegation(i)).launches| == |st.launches|
    ensures var v, v' := st.launches[i], Next(st, SettleDelegation(i)).launches[i];
            var result := v.delegation.result;
            && Next(st, SettleDelegation(i)).ledger == st.ledger
            && v'.delegation.Idle?
            && v'.delegationFailure ==
               (if v.delegationFailure.Some? then v.delegationFailure
                else if result.Fail? then Some(result.error) else None)
            && match v.phase
               case ReturnJoin =>
                 v'.permit.None?
                 && v'.phase == Settled(match JoinFailure(v, result) case None => Ok case Some(e) => Fail(e))
               case ThrowJoin(e) => v'.permit.None? && v'.phase == Settled(Fail(e))
               case _ => v'.phase == v.phase && v'.permit == v.permit
  {
    hide Reachable, Sound, Core, AfterSettle;
    ReachableSound(st);
    SoundCore(st);
    SettledLaunches(st, i);
    SettleLedger(st, i);
  }

  /** A settled job is observed: it leaves the jobs of its scope, which records its failure as the first, and stops. */
  lemma ObserveOutcome(st: State, i: nat)
    requires Reachable(st) && Enabled(st, Observe(i))
    ensures var st', s := Next(st, Observe(i)), st.launches[i].scope;
            && |st'.launches| == |st.launches| && |st'.scopes| == |st.scopes| && s < |st.scopes|
            && st'.launches[i] == st.launches[i].(phase := Observed(st.launches[i].phase.outcome))
            && i !in Jobs(st', s)
            && (if st.launches[i].phase.outcome.Fail? then
                  && FirstFailure(st.scopes[s], st'.scopes[s], st.launches[i].phase.outcome.error)
                  && (s > 0 && st.scopes[s].failure.None? ==>
                        forall j :: 0 <= j < |st.launches| && UnderScope(st, s, j) ==>
                          Fired(st'.sched, LaunchSignal(j)))
                else st'.scopes == st.scopes && st'.sched == st.sched)
  {
    hide Reachable, Sound, Core, FailScope, Fired, UnderScope, Next, Enabled, Shape;
    ReachableSound(st);
    SoundCore(st);
    CoreIsShaped(st);
    NextObserves(st, i);
    NestedIsOwned(st, i);
    var v := st.launches[i];
    if v.phase.outcome.Fail? && v.scope > 0 && st.scopes[v.scope].failure.None? {
      CoreSched(st);
      hide Sched.Valid;
      FailureStops(st, Set(st, i, v.(phase := Observed(v.phase.outcome))), v.scope, v.phase.outcome.error);
    }
    hide SameTree;
  }

  lemma NextObserves(st: State, i: nat)
    requires Enabled(st, Observe(i))
    ensures Is(st, i) && st.launches[i].phase.Settled?
    ensures var v, st' := st.launches[i], Next(st, Observe(i));
            var seen := Set(st, i, v.(phase := Observed(v.phase.outcome)));
            && st'.launches == seen.launches
            && (if v.phase.outcome.Fail? then
                  && st' == FailScope(seen, v.scope, v.phase.outcome.error)
                  && |st'.scopes| == |st.scopes|
                  && FirstFailure(st.scopes[v.scope], st'.scopes[v.scope], v.phase.outcome.error)
                else st' == seen)
  {
    hide FailScope;
    ObservedLaunches(st, i);
    var v := st.launches[i];
    if v.phase.outcome.Fail? {
      FailScopeShape(Set(st, i, v.(phase := Observed(v.phase.outcome))), v.scope, v.phase.outcome.error);
    }
  }

  lemma FailureStops(st: State, st': State, s: nat, e: Error)
    requires Shape(st.scopes, st.launches) && SameTree(st, st')
    requires 0 < s < |st.scopes| && st'.scopes[s].failure.None? && st'.scopes[s].owner.Some?
    requires Sched.Valid(st'.sched)
    ensures forall j :: 0 <= j < |st.launches| && UnderScope(st, s, j) ==>
              Fired(FailScope(st', s, e).sched, LaunchSignal(j))
  {
    hide Abort, Fired, UnderScope, Shape, Sched.Valid;
    AbortStopsUnder(st, Record(st', s, e), s, e);
  }

  /** `withChildren` yields the permit and opens one new scope, whose owner is the launch. */
  lemma DelegateOutcome(st: State, i: nat)
    requires Reachable(st) && Enabled(st, WithChildren(i))
    ensures st.launches[i].permit.Some? && st.launches[i].permit.value < |st.sched.tickets|
    ensures var v, st' := st.launches[i], Next(st, WithChildren(i));
            && st'.scopes == st.scopes + [Scope(Some(i), false, None)]
            && st'.launches == st.launches[i := v.(permit := None, delegation := Working(|st.scopes|))]
            && |st'.sched.tickets| == |st.sched.tickets|
            && st'.sched.tickets[v.permit.value] == Sched.Released && st'.ledger == st.ledger
  {
    hide Reachable, Sound, Core, Sched.Release;
    ReachableSound(st);
    SoundCore(st);
    LaunchOk(st, i);
    Sched.ReleaseKeeps(st.sched, st.launches[i].permit.value);
    hide PhaseOk, ResumeOk, DelegationOk, Sched.Valid, Sched.OnlyGrants;
  }

  /**
   A child callback ends. Its scope closes and joins exactly its unfinished or unobserved
   jobs. If it threw, the scope records that unless it has a failure, and all that is under
   the scope is stopped.
   */
  lemma WorkOutcome(st: State, i: nat, work: Outcome)
    requires Reachable(st)
    requires if work.Ok? then Enabled(st, WorkReturns(i)) else Enabled(st, WorkThrows(i, work.error))
    ensures var c := st.launches[i].delegation.child;
            var st' := Next(st, if work.Ok? then WorkReturns(i) else WorkThrows(i, work.error));
            && c < |st'.scopes| == |st.scopes| && |st'.launches| == |st.launches|
            && st'.scopes[c].closed
            && st'.launches[i].delegation.Draining? && st'.launches[i].delegation.child == c
            && st'.launches[i].delegation.work == work
            && (forall j: nat :: j in st'.launches[i].delegation.joined <==>
                  j < |st.launches| && st.launches[j].scope == c
                  && !st.launches[j].phase.Created? && !st.launches[j].phase.Observed?)
            && (if work.Ok? then st'.scopes[c].failure == st.scopes[c].failure && st'.sched == st.sched
                else
                  && st'.scopes[c].failure ==
                     (if st.scopes[c].failure.Some? then st.scopes[c].failure else Some(work.error))
                  && forall j :: 0 <= j < |st.launches| && UnderScope(st, c, j) ==> Fired(st'.sched, LaunchSignal(j)))
  {
    hide Reachable, Sound, Core, DependsOn, Abort;
    ReachableSound(st);
    SoundCore(st);
    if work.Fail? {
      ThrownWorkStops(st, i, work.error);
      var c := st.launches[i].delegation.child;
      var failed := Record(st, c, work.error);
      AbortShape(failed, ScopeSignal(c), failed.scopes[c].failure.value);
    }
    hide Fired, UnderScope;
  }

  lemma ThrownWorkStops(st: State, i: nat, e: Error)
    requires Core(st) && Enabled(st, WorkThrows(i, e))
    ensures forall j :: 0 <= j < |st.launches| && UnderScope(st, st.launches[i].delegation.child, j) ==>
              Fired(AfterWorkThrows(st, i, e).sched, LaunchSignal(j))
  {
    hide Core, Abort, Fired, UnderScope, Shape;
    var c := st.launches[i].delegation.child;
    var failed := Record(st, c, e);
    CoreIsShaped(st);
    CoreSched(st);
    AbortStopsUnder(st, failed, c, failed.scopes[c].failure.value);
    hide Sched.Valid, SameTree, Jobs;
  }

  /** A new invocation is unused, belongs to its scope and names its reservation. */
  lemma CreateOutcome(st: State, s: nat, kind: Budget.Kind, r: Option<Budget.Reservation>)
    requires Enabled(st, CreateInvocation(s, kind, r))
    ensures var st' := Next(st, CreateInvocation(s, kind, r));
            && |st'.launches| == |st.launches| + 1 && st'.launches[..|st.launches|] == st.launches
            && st'.scopes == st.scopes && st'.sched == st.sched
            && st'.ledger.sequence == st.ledger.sequence + 1
            && st'.ledger.replayed == st.ledger.replayed + (if kind.Replayed? then 1 else 0)
            && var v := st'.launches[|st.launches|];
               && v.scope == s && v.kind == kind && v.reservation == r
               && v.phase.Created? && !v.launched && v.starts == 0 && v.permit.None?
  {}

  /** `close` stops everything, refuses all further work, and joins exactly the jobs of the root. */
  lemma CloseOutcome(st: State, reason: Error)
    requires Reachable(st)
    ensures Enabled(st, Close(reason))
    ensures var st' := Next(st, Close(reason));
            && st'.closed && st'.launches == st.launches && st'.scopes == st.scopes
            && (forall j :: 0 <= j < |st.launches| ==> Fired(st'.sched, LaunchSignal(j)))
            && |st'.closings| == |st.closings| + 1
            && (forall j: nat :: j in st'.closings[|st.closings|] <==>
                  j < |st.launches| && st.launches[j].scope == 0
                  && !st.launches[j].phase.Created? && !st.launches[j].phase.Observed?)
  {
    hide Reachable, Sound, Core, Next, Fired;
    ReachableSound(st);
    SoundCore(st);
    CoreIsShaped(st);
    CloseShape(st, reason);
    CloseStops(st, reason);
    JobsSay(st, 0);
    hide Jobs, Shape;
  }

  lemma JobsSay(st: State, s: nat)
    ensures forall j: nat :: j in Jobs(st, s) <==>
              j < |st.launches| && st.launches[j].scope == s
              && !st.launches[j].phase.Created? && !st.launches[j].phase.Observed?
  {}

  lemma CloseStops(st: State, reason: Error)
    requires Core(st) && |st.scopes| > 0
    ensures Next(st, Close(reason)).scopes == st.scopes
    ensures forall j :: 0 <= j < |st.launches| ==> Fired(Next(st, Close(reason)).sched, LaunchSignal(j))
  {
    hide Core, Abort, Jobs, Fired, UnderScope, Shape;
    CoreIsShaped(st);
    CoreSched(st);
    AbortShape(st, ScopeSignal(0), reason);
    AbortStopsUnder(st, st, 0, reason);
    forall j | 0 <= j < |st.launches|
      ensures UnderScope(st, 0, j)
    {
      RootIsAboveAll(st, j);
    }
    hide Sched.Valid, SameTree;
  }

  // ---- what a stopped launch or scope can no longer do ----

  /** Over any run: a launch that has been stopped opens no further scope. */
  lemma {:induction false} StoppedLaunchOpensNothing(st: State, steps: seq<Step>, i: nat, k: nat)
    requires Sound(st) && Follows(st, steps) && i < |st.launches| && Fired(st.sched, LaunchSignal(i)) && k < |steps|
    ensures steps[k] != WithChildren(i)
    decreases k
  {
    hide Sound, Core, Next;
    SoundCore(st);
    if k > 0 {
      StepEvolves(st, steps[0]);
      StepKeepsSound(st, steps[0]);
      StoppedLaunchOpensNothing(Next(st, steps[0]), steps[1..], i, k - 1);
    }
  }

  /** Over any run: a scope that has closed or been stopped gets no further invocation. */
  lemma {:induction false} ShutScopeGetsNothing(st: State, steps: seq<Step>, s: nat, k: nat)
    requires Sound(st) && Follows(st, steps) && s < |st.scopes| && k < |steps|
    requires st.scopes[s].closed || Fired(st.sched, ScopeSignal(s))
    ensures steps[k].CreateInvocation? ==> steps[k].scope != s
    decreases k
  {
    hide Sound, Core, Next, LaunchEvolves;
    SoundCore(st);
    if k > 0 {
      StepEvolves(st, steps[0]);
      assert ScopeEvolves(st.scopes[s], Next(st, steps[0]).scopes[s]);
      StepKeepsSound(st, steps[0]);
      ShutScopeGetsNothing(Next(st, steps[0]), steps[1..], s, k - 1);
    }
  }

  /** A running callback whose launch is live can delegate, whenever it is not delegating already. */
  lemma LiveLaunchMayDelegate(st: State, i: nat)
    requires Reachable(st) && i < |st.launches| && st.launches[i].phase.Running?
    ensures Enabled(st, WithChildren(i)) <==>
              st.launches[i].delegation.Idle? && !Fired(st.sched, LaunchSignal(i))
  {
    hide Reachable, Sound, Core;
    ReachableSound(st);
    SoundCore(st);
    LaunchOk(st, i);
    if st.closed { ClosedIsFired(st, i); }
  }
}
