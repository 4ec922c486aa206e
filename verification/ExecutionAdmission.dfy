/**
 The part of the invariant of an execution root that ties launches to permits and to
 abort signals: who holds or awaits which ticket, and what a fired signal has stopped.
 */
module ExecutionAdmission {
  import opened Wrappers
  import opened ExecutionState
  import opened ExecutionStructure
  import Sched = ExecutionScheduler

  type Scheduler = Sched.Sched<Signal, Error>

  // ---- tickets ----

  predicate Waits(v: Invocation) {
    v.phase.Awaiting? || v.delegation.Reentering?
  }

  function WaitTicket(v: Invocation): nat
    requires Waits(v)
  {
    if v.phase.Awaiting? then v.phase.ticket else v.delegation.ticket
  }

  function WaitSignal(v: Invocation, i: nat): Signal {
    if v.phase.Awaiting? then ScopeSignal(v.scope) else ResumeSignal(i)
  }

  /** The one permit promise or permit a launch has to do with. */
  function TicketOf(v: Invocation): Option<nat> {
    if Waits(v) then Some(WaitTicket(v)) else v.permit
  }

  predicate TicketOk(q: Scheduler, v: Invocation, i: nat) {
    if Waits(v) then
      && v.permit.None?
      && WaitTicket(v) < |q.tickets|
      && !q.tickets[WaitTicket(v)].Executing? && !q.tickets[WaitTicket(v)].Released?
      && (q.tickets[WaitTicket(v)].Rejected? ==>
            && WaitSignal(v, i) in q.aborted
            && q.tickets[WaitTicket(v)].reason == q.aborted[WaitSignal(v, i)])
    else if v.permit.Some? then
      && v.permit.value < |q.tickets|
      && Sched.Held(q.tickets[v.permit.value])
      && (v.phase.Running? ==> q.tickets[v.permit.value].Executing?)
    else true
  }

  /** No two launches share a ticket. */
  ghost predicate Exclusive(vs: seq<Invocation>) {
    forall i, j :: 0 <= i < |vs| && 0 <= j < |vs| && TicketOf(vs[i]).Some? && TicketOf(vs[i]) == TicketOf(vs[j]) ==>
      i == j
  }

  ghost predicate HasOwner(vs: seq<Invocation>, t: nat) {
    exists i :: 0 <= i < |vs| && TicketOf(vs[i]) == Some(t)
  }

  predicate Outstanding(t: Sched.Ticket<Error>) {
    t.Waiting? || Sched.Held(t)
  }

  /** No permit leaks: whatever is asked for, or granted and unreleased, belongs to a launch. */
  ghost predicate Owned(q: Scheduler, vs: seq<Invocation>) {
    forall t :: 0 <= t < |q.tickets| && Outstanding(q.tickets[t]) ==> HasOwner(vs, t)
  }

  /** A launch in the queue waits on its own signal. */
  ghost predicate WaitersOk(q: Scheduler, vs: seq<Invocation>) {
    forall a, i :: 0 <= a < |q.waiters| && 0 <= i < |vs| && TicketOf(vs[i]) == Some(q.waiters[a].ticket) ==>
      q.waiters[a].signal == WaitSignal(vs[i], i)
  }

  ghost predicate Admission(q: Scheduler, vs: seq<Invocation>) {
    && Sched.Valid(q)
    && (forall i :: 0 <= i < |vs| ==> TicketOk(q, vs[i], i))
    && Exclusive(vs)
    && Owned(q, vs)
    && WaitersOk(q, vs)
  }

  lemma OwnerStays(vs: seq<Invocation>, i: nat, v': Invocation, t: nat)
    requires i < |vs| && HasOwner(vs, t)
    requires TicketOf(vs[i]) == Some(t) ==> TicketOf(v') == Some(t)
    ensures HasOwner(vs[i := v'], t)
  {
    var k :| 0 <= k < |vs| && TicketOf(vs[k]) == Some(t);
    assert TicketOf(vs[i := v'][k]) == Some(t);
  }

  /** A launch changes without touching its ticket. */
  lemma SameTicketKeeps(q: Scheduler, vs: seq<Invocation>, i: nat, v': Invocation)
    requires Admission(q, vs) && i < |vs|
    requires TicketOf(v') == TicketOf(vs[i]) && TicketOk(q, v', i)
    requires TicketOf(v').Some? && q.tickets[TicketOf(v').value].Waiting? ==> WaitSignal(v', i) == WaitSignal(vs[i], i)
    ensures Admission(q, vs[i := v'])
  {
    var vs' := vs[i := v'];
    forall t | 0 <= t < |q.tickets| && Outstanding(q.tickets[t])
      ensures HasOwner(vs', t)
    {
      OwnerStays(vs, i, v', t);
    }
    forall a, k | 0 <= a < |q.waiters| && 0 <= k < |vs'| && TicketOf(vs'[k]) == Some(q.waiters[a].ticket)
      ensures q.waiters[a].signal == WaitSignal(vs'[k], k)
    {
      assert TicketOk(q, vs[k], k);
    }
  }

  /** A launch lets go of a rejected ticket. */
  lemma DropKeeps(q: Scheduler, vs: seq<Invocation>, i: nat, v': Invocation)
    requires Admission(q, vs) && i < |vs|
    requires Waits(vs[i]) && q.tickets[WaitTicket(vs[i])].Rejected?
    requires TicketOf(v') == None
    ensures Admission(q, vs[i := v'])
  {
    var vs' := vs[i := v'];
    forall t | 0 <= t < |q.tickets| && Outstanding(q.tickets[t])
      ensures HasOwner(vs', t)
    {
      OwnerStays(vs, i, v', t);
    }
  }

  /** Tickets are only granted: what a launch has to do with stays in order. */
  lemma GrantedTicketOk(q: Scheduler, q': Scheduler, v: Invocation, i: nat)
    requires TicketOk(q, v, i) && Sched.OnlyGrants(q, q') && q'.aborted == q.aborted
    ensures TicketOk(q', v, i)
  {}

  lemma OtherTicketOk(q: Scheduler, t: nat, ticket: Sched.Ticket<Error>, v: Invocation, i: nat)
    requires TicketOk(q, v, i) && t < |q.tickets| && TicketOf(v) != Some(t)
    ensures TicketOk(q.(tickets := q.tickets[t := ticket]), v, i)
  {}

  lemma TicketExists(q: Scheduler, v: Invocation, i: nat)
    requires TicketOk(q, v, i)
    ensures TicketOf(v).Some? ==> TicketOf(v).value < |q.tickets|
  {}

  /** What is outstanding after launch `i` changed was outstanding before, or is what it asks for now. */
  lemma OwnedAfter(q: Scheduler, q': Scheduler, vs: seq<Invocation>, i: nat, v': Invocation)
    requires Owned(q, vs) && i < |vs|
    requires forall t :: 0 <= t < |q'.tickets| && Outstanding(q'.tickets[t]) ==>
               || TicketOf(v') == Some(t)
               || (t < |q.tickets| && Outstanding(q.tickets[t]) && TicketOf(vs[i]) != Some(t))
    ensures Owned(q', vs[i := v'])
  {
    forall t | 0 <= t < |q'.tickets| && Outstanding(q'.tickets[t])
      ensures HasOwner(vs[i := v'], t)
    {
      if TicketOf(v') == Some(t) {
        assert TicketOf(vs[i := v'][i]) == Some(t);
      } else {
        OwnerStays(vs, i, v', t);
      }
    }
  }

  /** The queue has lost waiters only, and launch `i` awaits none of the others. */
  lemma WaitersAfter(q: Scheduler, q': Scheduler, vs: seq<Invocation>, i: nat, v': Invocation)
    requires WaitersOk(q, vs) && i < |vs| && TicketOf(v') == None
    requires forall a :: 0 <= a < |q'.waiters| ==> q'.waiters[a] in q.waiters
    ensures WaitersOk(q', vs[i := v'])
  {
    var vs' := vs[i := v'];
    forall a, k | 0 <= a < |q'.waiters| && 0 <= k < |vs'| && TicketOf(vs'[k]) == Some(q'.waiters[a].ticket)
      ensures q'.waiters[a].signal == WaitSignal(vs'[k], k)
    {
      var b :| 0 <= b < |q.waiters| && q.waiters[b] == q'.waiters[a];
      assert k != i && vs'[k] == vs[k];
    }
  }

  lemma ExclusiveAfter(vs: seq<Invocation>, i: nat, v': Invocation)
    requires Exclusive(vs) && i < |vs|
    requires TicketOf(v').Some? ==> forall k :: 0 <= k < |vs| && k != i ==> TicketOf(vs[k]) != TicketOf(v')
    ensures Exclusive(vs[i := v'])
  {
    hide TicketOf;
  }

  lemma AdmissionParts(q: Scheduler, vs: seq<Invocation>)
    requires Admission(q, vs)
    ensures Sched.Valid(q) && Exclusive(vs) && Owned(q, vs) && WaitersOk(q, vs)
    ensures forall k :: 0 <= k < |vs| ==> TicketOk(q, vs[k], k)
    ensures forall k :: 0 <= k < |vs| && TicketOf(vs[k]).Some? ==> TicketOf(vs[k]).value < |q.tickets|
  {
    forall k | 0 <= k < |vs|
      ensures TicketOf(vs[k]).Some? ==> TicketOf(vs[k]).value < |q.tickets|
    {
      TicketExists(q, vs[k], k);
    }
  }

  /** The newest waiter is launch `i`; the others are as before. */
  lemma AcquireKeepsWaiters(q: Scheduler, vs: seq<Invocation>, i: nat, v': Invocation)
    requires Sched.Valid(q) && WaitersOk(q, vs) && i < |vs|
    requires forall k :: 0 <= k < |vs| && TicketOf(vs[k]).Some? ==> TicketOf(vs[k]).value < |q.tickets|
    requires Waits(v') && WaitTicket(v') == |q.tickets|
    requires forall a :: 0 <= a < |q.waiters| ==> q.waiters[a].ticket < |q.tickets|
    ensures WaitersOk(Sched.Acquire(q, WaitSignal(v', i)), vs[i := v'])
  {
    var q', vs' := Sched.Acquire(q, WaitSignal(v', i)), vs[i := v'];
    forall a, k | 0 <= a < |q'.waiters| && 0 <= k < |vs'| && TicketOf(vs'[k]) == Some(q'.waiters[a].ticket)
      ensures q'.waiters[a].signal == WaitSignal(vs'[k], k)
    {
      Sched.AcquireWaiters(q, WaitSignal(v', i), a);
      if q'.waiters[a] in q.waiters {
        var b :| 0 <= b < |q.waiters| && q.waiters[b] == q'.waiters[a];
        assert k != i && vs'[k] == vs[k];
      }
    }
  }

  lemma WaitersAreTickets(q: Scheduler)
    requires Sched.Valid(q)
    ensures forall a :: 0 <= a < |q.waiters| ==> q.waiters[a].ticket < |q.tickets|
  {}

  lemma AcquiredTicketOk(q: Scheduler, v': Invocation, i: nat)
    requires Sched.Valid(q) && Waits(v') && v'.permit.None? && WaitTicket(v') == |q.tickets|
    ensures TicketOk(Sched.Acquire(q, WaitSignal(v', i)), v', i)
  {
    Sched.AcquireKeeps(q, WaitSignal(v', i));
    hide Sched.Valid, Sched.Acquire, Sched.OnlyGrants;
  }

  lemma AcquireGrants(q: Scheduler, sig: Signal, t: nat)
    requires Sched.Valid(q) && t < |Sched.Acquire(q, sig).tickets|
    ensures Outstanding(Sched.Acquire(q, sig).tickets[t]) ==>
              t == |q.tickets| || (t < |q.tickets| && Outstanding(q.tickets[t]))
  {
    Sched.AcquireKeeps(q, sig);
    hide Sched.Valid, Sched.Acquire;
  }

  /** A launch asks for a permit. */
  lemma AcquireKeepsAdmission(q: Scheduler, vs: seq<Invocation>, i: nat, v': Invocation)
    requires Admission(q, vs) && i < |vs|
    requires TicketOf(vs[i]) == None
    requires Waits(v') && v'.permit.None? && WaitTicket(v') == |q.tickets|
    ensures Admission(Sched.Acquire(q, WaitSignal(v', i)), vs[i := v'])
  {
    AdmissionParts(q, vs);
    var sig := WaitSignal(v', i);
    var q', vs' := Sched.Acquire(q, sig), vs[i := v'];
    Sched.AcquireKeeps(q, sig);
    hide Sched.Valid, Sched.Acquire, Sched.OnlyGrants, TicketOk, Exclusive, Owned, WaitersOk, WaitSignal, Outstanding;
    WaitersAreTickets(q);
    AcquireKeepsWaiters(q, vs, i, v');
    ExclusiveAfter(vs, i, v');
    forall k | 0 <= k < |vs'|
      ensures TicketOk(q', vs'[k], k)
    {
      if k == i {
        AcquiredTicketOk(q, v', i);
      } else {
        GrantedTicketOk(q, q', vs[k], k);
      }
    }
    forall t | 0 <= t < |q'.tickets| && Outstanding(q'.tickets[t])
      ensures TicketOf(v') == Some(t) || (t < |q.tickets| && Outstanding(q.tickets[t]) && TicketOf(vs[i]) != Some(t))
    {
      AcquireGrants(q, sig, t);
    }
    OwnedAfter(q, q', vs, i, v');
  }

  /** A launch gives its permit back. */
  lemma ReleaseKeepsAdmission(q: Scheduler, vs: seq<Invocation>, i: nat, v': Invocation)
    requires Admission(q, vs) && i < |vs|
    requires TicketOf(vs[i]).Some? && Sched.Held(q.tickets[TicketOf(vs[i]).value])
    requires TicketOf(v') == None
    ensures Admission(Sched.Release(q, TicketOf(vs[i]).value), vs[i := v'])
  {
    AdmissionParts(q, vs);
    var t := TicketOf(vs[i]).value;
    var released := q.(tickets := q.tickets[t := Sched.Released]);
    var q', vs' := Sched.Release(q, t), vs[i := v'];
    Sched.ReleaseKeeps(q, t);
    forall u | 0 <= u < |q'.tickets| && Outstanding(q'.tickets[u])
      ensures u < |q.tickets| && Outstanding(q.tickets[u]) && u != t
    {
      GrantsOnly(released, q', u);
    }
    KeptWaiters(q, q', t);
    forall k | 0 <= k < |vs'|
      ensures TicketOk(q', vs'[k], k)
    {
      if k == i {
        NoTicketOk(q', v', i);
      } else {
        OthersTicket(vs, i, k);
        OtherTicketOk(q, t, Sched.Released, vs[k], k);
        GrantedTicketOk(released, q', vs[k], k);
      }
    }
    hide Sched.Valid, Sched.Release, Sched.OnlyGrants, TicketOk, Exclusive, Owned, WaitersOk, Outstanding;
    OwnedAfter(q, q', vs, i, v');
    WaitersAfter(q, q', vs, i, v');
    ExclusiveAfter(vs, i, v');
  }

  lemma OthersTicket(vs: seq<Invocation>, i: nat, k: nat)
    requires Exclusive(vs) && i < |vs| && k < |vs| && i != k && TicketOf(vs[i]).Some?
    ensures TicketOf(vs[k]) != TicketOf(vs[i])
  {
    hide TicketOf;
  }

  lemma NoTicketOk(q: Scheduler, v: Invocation, i: nat)
    requires TicketOf(v) == None
    ensures TicketOk(q, v, i)
  {}

  lemma GrantsOnly(q: Scheduler, q': Scheduler, u: nat)
    requires Sched.OnlyGrants(q, q') && u < |q'.tickets| == |q.tickets| && Outstanding(q'.tickets[u])
    ensures Outstanding(q.tickets[u])
  {}

  lemma KeptWaiters(q: Scheduler, q': Scheduler, t: nat)
    requires Sched.Valid(q) && Sched.Valid(q') && t < |q.tickets| == |q'.tickets|
    requires Sched.OnlyGrants(q.(tickets := q.tickets[t := Sched.Released]), q')
    ensures forall a :: 0 <= a < |q'.waiters| ==> q'.waiters[a] in q.waiters
  {
    WaitersAreTickets(q');
    hide Sched.Valid;
  }

  /** A launch activates the permit it was granted. */
  lemma ActivateKeepsAdmission(q: Scheduler, vs: seq<Invocation>, i: nat, v': Invocation)
    requires Admission(q, vs) && i < |vs|
    requires Waits(vs[i]) && q.tickets[WaitTicket(vs[i])].Granted?
    requires !Waits(v') && v'.permit == Some(WaitTicket(vs[i]))
    ensures Admission(Sched.Activate(q, WaitTicket(vs[i])), vs[i := v'])
  {
    var t := WaitTicket(vs[i]);
    var vs' := vs[i := v'];
    var q' := Sched.Activate(q, t);
    assert TicketOk(q, vs[i], i);
    Sched.ActivateKeeps(q, t);
    forall k | 0 <= k < |vs|
      ensures TicketOk(q', vs'[k], k)
    {
      assert TicketOk(q, vs[k], k);
    }
    forall u | 0 <= u < |q'.tickets| && Outstanding(q'.tickets[u])
      ensures HasOwner(vs', u)
    {
      OwnerStays(vs, i, v', u);
    }
    forall a, k | 0 <= a < |q'.waiters| && 0 <= k < |vs'| && TicketOf(vs'[k]) == Some(q'.waiters[a].ticket)
      ensures q'.waiters[a].signal == WaitSignal(vs'[k], k)
    {
      assert q'.waiters[a] == q.waiters[a];
      assert q.tickets[q.waiters[a].ticket].Waiting?;
    }
  }

  lemma AbortedTicketOk(q: Scheduler, vs: seq<Invocation>, signals: set<Signal>, reason: Error, k: nat)
    requires Sched.Valid(q) && WaitersOk(q, vs) && k < |vs| && TicketOk(q, vs[k], k)
    ensures TicketOk(Sched.Abort(q, signals, reason), vs[k], k)
  {
    var v := vs[k];
    Sched.AbortKeeps(q, signals, reason);
    if Waits(v) && q.tickets[WaitTicket(v)].Waiting? {
      var a := Sched.AbortRejectsOnly(q, signals, reason, WaitTicket(v));
      assert TicketOf(v) == Some(q.waiters[a].ticket);
    }
    hide Sched.Abort, Sched.Valid, WaitersOk;
  }

  lemma AbortedOutstanding(q: Scheduler, signals: set<Signal>, reason: Error, t: nat)
    requires Sched.Valid(q) && t < |Sched.Abort(q, signals, reason).tickets|
    ensures Outstanding(Sched.Abort(q, signals, reason).tickets[t]) ==> t < |q.tickets| && Outstanding(q.tickets[t])
  {
    Sched.AbortKeeps(q, signals, reason);
    hide Sched.Abort, Sched.Valid;
  }

  /** Signals fire: the launches waiting on them are rejected with their reasons. */
  lemma AbortKeepsAdmission(q: Scheduler, vs: seq<Invocation>, signals: set<Signal>, reason: Error)
    requires Admission(q, vs)
    ensures Admission(Sched.Abort(q, signals, reason), vs)
  {
    AdmissionParts(q, vs);
    var q' := Sched.Abort(q, signals, reason);
    Sched.AbortKeeps(q, signals, reason);
    WaitersAreTickets(q');
    hide Sched.Abort, Sched.Valid, TicketOk, Exclusive, Outstanding, HasOwner;
    forall k | 0 <= k < |vs|
      ensures TicketOk(q', vs[k], k)
    {
      AbortedTicketOk(q, vs, signals, reason, k);
    }
    forall t | 0 <= t < |q'.tickets| && Outstanding(q'.tickets[t])
      ensures HasOwner(vs, t)
    {
      AbortedOutstanding(q, signals, reason, t);
    }
    FewerWaiters(q, q', vs);
    hide Owned, WaitersOk;
  }

  lemma FewerWaiters(q: Scheduler, q': Scheduler, vs: seq<Invocation>)
    requires WaitersOk(q, vs) && Sched.WaitersKept(q, q') && |q'.tickets| == |q.tickets|
    requires forall a :: 0 <= a < |q'.waiters| ==> q'.waiters[a].ticket < |q'.tickets|
    ensures WaitersOk(q', vs)
  {
    forall a, k | 0 <= a < |q'.waiters| && 0 <= k < |vs| && TicketOf(vs[k]) == Some(q'.waiters[a].ticket)
      ensures q'.waiters[a].signal == WaitSignal(vs[k], k)
    {
      var b :| 0 <= b < |q.waiters| && q.waiters[b] == q'.waiters[a];
    }
  }

  // ---- signals ----

  predicate Fired(q: Scheduler, sig: Signal) {
    sig in q.aborted
  }

  predicate OpenerFired(st: State, s: nat)
    requires s < |st.scopes|
  {
    st.scopes[s].owner.Some? && Fired(st.sched, LaunchSignal(st.scopes[s].owner.value))
  }

  /** A fired signal has fired everything below it. */
  ghost predicate SignalsFlow(st: State) {
    && (forall sig :: Fired(st.sched, sig) ==> Exists(st, sig))
    && (forall s :: 0 < s < |st.scopes| && OpenerFired(st, s) ==> Fired(st.sched, ScopeSignal(s)))
    && (forall i :: 0 <= i < |st.launches| && Fired(st.sched, ScopeSignal(st.launches[i].scope)) ==>
          Fired(st.sched, LaunchSignal(i)))
    && (forall i :: 0 <= i < |st.launches| && Fired(st.sched, LaunchSignal(i)) ==> Fired(st.sched, ResumeSignal(i)))
    && (st.closed ==> Fired(st.sched, ScopeSignal(0)))
  }

  /** A nested scope that recorded a failure is stopped. */
  ghost predicate FailuresStop(st: State) {
    forall s :: 0 < s < |st.scopes| && st.scopes[s].failure.Some? ==> Fired(st.sched, ScopeSignal(s))
  }

  /**
   While a callback runs, its re-entry is stopped only with the launch itself; it lacks its
   permit only where its re-entry was refused, which takes an aborted launch, and then its
   delegation fails or has failed.
   */
  predicate ResumeOk(q: Scheduler, v: Invocation, i: nat) {
    && (Fired(q, ResumeSignal(i)) && !Fired(q, LaunchSignal(i)) ==>
          v.phase.ReturnJoin? || v.phase.ThrowJoin? || Done(v))
    && (v.phase.Running? && (v.delegation.Idle? || v.delegation.Settling?) && !Fired(q, LaunchSignal(i)) ==>
          v.permit.Some?)
    && (v.phase.Running? && v.permit.None? && v.delegation.Settling? ==> v.delegation.result.Fail?)
    && (v.phase.Running? && v.permit.None? && v.delegation.Idle? ==> v.delegationFailure.Some?)
  }

  ghost predicate Signals(st: State) {
    && SignalsFlow(st)
    && FailuresStop(st)
    && forall i :: 0 <= i < |st.launches| ==> ResumeOk(st.sched, st.launches[i], i)
  }

  lemma AbortMarks(st: State, target: Signal, reason: Error)
    requires Sched.Valid(st.sched)
    ensures var st' := Abort(st, target, reason);
            && (forall sig :: Fired(st'.sched, sig) <==> Fired(st.sched, sig) || sig in Dependents(st, target))
            && (forall sig :: Fired(st.sched, sig) ==> st'.sched.aborted[sig] == st.sched.aborted[sig])
            && Sched.Valid(st'.sched)
  {
    Sched.AbortKeeps(st.sched, Dependents(st, target), reason);
  }

  lemma ScopeFollows(st: State, s: nat, target: Signal)
    requires Shape(st.scopes, st.launches) && 0 < s < |st.scopes|
    requires DependsOn(st, LaunchSignal(st.scopes[s].owner.value), target)
    ensures ScopeSignal(s) in Dependents(st, target)
  {
    assert DependsOn(st, ScopeSignal(s), target);
  }

  lemma LaunchFollows(st: State, i: nat, target: Signal)
    requires Shape(st.scopes, st.launches) && i < |st.launches|
    ensures DependsOn(st, ScopeSignal(st.launches[i].scope), target) ==> LaunchSignal(i) in Dependents(st, target)
    ensures DependsOn(st, LaunchSignal(i), target) ==> ResumeSignal(i) in Dependents(st, target)
  {}

  lemma AbortFlowsToScope(st: State, target: Signal, reason: Error, s: nat)
    requires Sched.Valid(st.sched) && SignalsFlow(st) && Shape(st.scopes, st.launches) && 0 < s < |st.scopes|
    ensures OpenerFired(Abort(st, target, reason), s) ==> Fired(Abort(st, target, reason).sched, ScopeSignal(s))
  {
    AbortMarks(st, target, reason);
    var opener := LaunchSignal(st.scopes[s].owner.value);
    assert Fired(st.sched, opener) ==> Fired(st.sched, ScopeSignal(s));
    if opener in Dependents(st, target) {
      ScopeFollows(st, s, target);
    }
    hide Sched.Valid, Sched.Abort, SignalsFlow, Dependents, DependsOn, Fired;
  }

  lemma AbortFlowsToLaunch(st: State, target: Signal, reason: Error, i: nat)
    requires Sched.Valid(st.sched) && SignalsFlow(st) && Shape(st.scopes, st.launches) && i < |st.launches|
    ensures var q := Abort(st, target, reason).sched;
            && (Fired(q, ScopeSignal(st.launches[i].scope)) ==> Fired(q, LaunchSignal(i)))
            && (Fired(q, LaunchSignal(i)) ==> Fired(q, ResumeSignal(i)))
  {
    AbortMarks(st, target, reason);
    LaunchFollows(st, i, target);
    assert Fired(st.sched, ScopeSignal(st.launches[i].scope)) ==> Fired(st.sched, LaunchSignal(i));
    assert Fired(st.sched, LaunchSignal(i)) ==> Fired(st.sched, ResumeSignal(i));
    hide Sched.Valid, Sched.Abort, SignalsFlow, DependsOn, Fired;
  }

  lemma AbortFlows(st: State, target: Signal, reason: Error)
    requires Sched.Valid(st.sched) && SignalsFlow(st) && Shape(st.scopes, st.launches)
    ensures SignalsFlow(Abort(st, target, reason))
  {
    AbortMarks(st, target, reason);
    var st' := Abort(st, target, reason);
    assert forall sig :: Fired(st.sched, sig) ==> Exists(st, sig);
    assert st.closed ==> Fired(st.sched, ScopeSignal(0));
    hide Sched.Valid, Sched.Abort, Dependents, DependsOn, Fired, OpenerFired;
    assert forall sig :: Fired(st'.sched, sig) ==> Exists(st', sig);
    forall s | 0 < s < |st.scopes|
      ensures OpenerFired(st', s) ==> Fired(st'.sched, ScopeSignal(s))
    {
      AbortFlowsToScope(st, target, reason, s);
    }
    forall i | 0 <= i < |st.launches|
      ensures Fired(st'.sched, ScopeSignal(st.launches[i].scope)) ==> Fired(st'.sched, LaunchSignal(i))
      ensures Fired(st'.sched, LaunchSignal(i)) ==> Fired(st'.sched, ResumeSignal(i))
    {
      AbortFlowsToLaunch(st, target, reason, i);
    }
  }

  /** Aborting a scope or a launch keeps everything said about re-entry. */
  lemma AbortKeepsResume(st: State, target: Signal, reason: Error)
    requires Sched.Valid(st.sched)
    requires forall i :: 0 <= i < |st.launches| ==> ResumeOk(st.sched, st.launches[i], i)
    requires target.ResumeSignal? ==>
               target.launch < |st.launches| ==> st.launches[target.launch].phase.ReturnJoin?
    ensures var st' := Abort(st, target, reason);
            forall i :: 0 <= i < |st'.launches| ==> ResumeOk(st'.sched, st'.launches[i], i)
  {
    AbortMarks(st, target, reason);
    var st' := Abort(st, target, reason);
    forall i | 0 <= i < |st.launches|
      ensures ResumeOk(st'.sched, st.launches[i], i)
    {
      assert ResumeOk(st.sched, st.launches[i], i);
      if Fired(st'.sched, ResumeSignal(i)) && !Fired(st.sched, ResumeSignal(i)) && target != ResumeSignal(i) {
        assert DependsOn(st, LaunchSignal(i), target);
      }
    }
  }
}
