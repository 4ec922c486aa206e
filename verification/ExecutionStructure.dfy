/**
 The part of the invariant of an execution root that speaks of scopes and launches
 alone: who owns what, which scopes are open, which jobs are joined and which
 failures are kept.
 */
module ExecutionStructure {
  import opened Wrappers
  import opened ExecutionState
  import Budget = ExecutionBudget

  /** Owners come before what they own, so the ownership relation is a tree rooted in scope 0. */
  ghost predicate Shape(scopes: seq<Scope>, vs: seq<Invocation>) {
    && |scopes| > 0 && scopes[0].owner.None? && !scopes[0].closed
    && (forall s :: 0 < s < |scopes| ==>
          scopes[s].owner.Some? && scopes[s].owner.value < |vs| && vs[scopes[s].owner.value].scope < s)
    && (forall i :: 0 <= i < |vs| ==> vs[i].scope < |scopes|)
    && (forall i :: 0 <= i < |vs| && vs[i].scope > 0 ==> scopes[vs[i].scope].owner.value < i)
  }

  predicate Live(v: Invocation) {
    v.phase.Awaiting? || v.phase.Running? || v.phase.ReturnJoin? || v.phase.ThrowJoin?
  }

  predicate Done(v: Invocation) {
    v.phase.Settled? || v.phase.Observed?
  }

  predicate Failed(v: Invocation) {
    Done(v) && v.phase.outcome.Fail?
  }

  /** What one launch's own fields say about each other. */
  predicate PhaseOk(v: Invocation) {
    && (v.kind.Replayed? ==> v.phase.Created?)
    && (v.phase.Created? ==> !v.launched)
    && (Live(v) ==> v.launched)
    && v.starts <= 1
    && (v.phase.Created? || v.phase.Awaiting? ==> v.starts == 0)
    && (v.phase.Running? || v.phase.ReturnJoin? ==> v.starts == 1)
    && (!v.launched ==> v.starts == 0)
    && (!v.delegation.Idle? ==> v.phase.Running? || v.phase.ReturnJoin? || v.phase.ThrowJoin?)
    && (v.phase.Created? || v.phase.Awaiting? ==> v.delegationFailure.None?)
    && (v.delegationFailure.Some? ==> v.launched)
    && (Done(v) && v.phase.outcome.Ok? ==> v.launched && v.starts == 1 && v.delegationFailure.None?)
    && (v.permit.Some? ==> v.delegation.Idle? || v.delegation.Settling?)
    && (v.permit.Some? ==> v.phase.Running? || v.phase.ReturnJoin? || v.phase.ThrowJoin?)
  }

  /**
   How far the owner of a scope is with it: its callback still runs, its jobs are being
   joined, or all is known, and `failed` says whether the owner was told of a failure.
   */
  datatype Verdict = Open | Joining(jobs: set<nat>) | Known(failed: bool)

  function VerdictOf(v: Invocation, c: nat): Verdict {
    match v.delegation
    case Idle => Known(v.delegationFailure.Some?)
    case Working(child) => if child == c then Open else Known(v.delegationFailure.Some?)
    case Draining(child, joined, _) => if child == c then Joining(joined) else Known(v.delegationFailure.Some?)
    case Drained(child, result) => Known(if child == c then result.Fail? else v.delegationFailure.Some?)
    case Reentering(child, result, _) => Known(if child == c then result.Fail? else v.delegationFailure.Some?)
    case Settling(child, result) => Known(if child == c then result.Fail? else v.delegationFailure.Some?)
  }

  /** A failure once known stays known. */
  predicate VerdictLeq(a: Verdict, b: Verdict) {
    a == b || (a.Known? && b.Known? && (a.failed ==> b.failed))
  }

  predicate DelegationOk(scopes: seq<Scope>, vs: seq<Invocation>, i: nat)
    requires i < |vs|
  {
    vs[i].delegation.Idle?
    || (0 < vs[i].delegation.child < |scopes| && scopes[vs[i].delegation.child].owner == Some(i))
  }

  /** The jobs a draining scope joins are jobs of it. */
  predicate JoinedOk(vs: seq<Invocation>, i: nat)
    requires i < |vs|
  {
    vs[i].delegation.Draining? ==>
      forall j :: j in vs[i].delegation.joined ==>
        j < |vs| && vs[j].scope == vs[i].delegation.child && !vs[j].phase.Created?
  }

  /** A scope is open exactly while its own callback runs. */
  predicate ScopeOk(scopes: seq<Scope>, vs: seq<Invocation>, c: nat)
    requires 0 < c < |scopes| && scopes[c].owner.Some? && scopes[c].owner.value < |vs|
  {
    scopes[c].closed <==> !VerdictOf(vs[scopes[c].owner.value], c).Open?
  }

  /**
   A launched job of a nested scope is finished and observed unless its owner is still at
   it; and once the owner is past the scope, a failed job means the owner was told.
   */
  predicate MemberOk(scopes: seq<Scope>, vs: seq<Invocation>, j: nat)
    requires j < |vs|
  {
    vs[j].launched && 0 < vs[j].scope < |scopes|
    && scopes[vs[j].scope].owner.Some? && scopes[vs[j].scope].owner.value < |vs| ==>
      match VerdictOf(vs[scopes[vs[j].scope].owner.value], vs[j].scope)
      case Open => true
      case Joining(jobs) => vs[j].phase.Observed? || j in jobs
      case Known(failed) => vs[j].phase.Observed? && (vs[j].phase.outcome.Fail? ==> failed)
  }

  /** An observed failure is recorded in its scope. */
  predicate FailureOk(scopes: seq<Scope>, vs: seq<Invocation>, j: nat)
    requires j < |vs|
  {
    vs[j].phase.Observed? && vs[j].phase.outcome.Fail? && vs[j].scope < |scopes| ==>
      scopes[vs[j].scope].failure.Some?
  }

  ghost predicate Structure(scopes: seq<Scope>, vs: seq<Invocation>) {
    && Shape(scopes, vs)
    && (forall i :: 0 <= i < |vs| ==> PhaseOk(vs[i]))
    && (forall i :: 0 <= i < |vs| ==> DelegationOk(scopes, vs, i))
    && (forall c :: 0 < c < |scopes| ==> ScopeOk(scopes, vs, c))
    && (forall j :: 0 <= j < |vs| ==> MemberOk(scopes, vs, j))
    && (forall j :: 0 <= j < |vs| ==> FailureOk(scopes, vs, j))
    && (forall i :: 0 <= i < |vs| ==> JoinedOk(vs, i))
  }

  /** What a step may do to one launch without touching the rest of the tree. */
  ghost predicate Advances(scopes: seq<Scope>, v: Invocation, v': Invocation)
    requires v.scope < |scopes|
  {
    && v'.scope == v.scope && v'.kind == v.kind
    && PhaseOk(v')
    && (v.launched ==> v'.launched)
    && (v'.launched && !v.launched ==> !scopes[v.scope].closed)
    && (v.phase.Observed? ==> v'.phase == v.phase)
    && (v'.phase.Created? ==> v.phase.Created?)
    && (v'.phase.Observed? && v'.phase.outcome.Fail? ==> scopes[v.scope].failure.Some?)
    && (v'.delegation.Idle? || (!v.delegation.Idle? && v'.delegation.child == v.delegation.child))
    && (forall c :: VerdictLeq(VerdictOf(v, c), VerdictOf(v', c)))
  }

  lemma AdvanceKeepsScope(scopes: seq<Scope>, vs: seq<Invocation>, i: nat, v': Invocation, c: nat)
    requires Structure(scopes, vs) && i < |vs| && 0 < c < |scopes|
    requires Advances(scopes, vs[i], v')
    ensures ScopeOk(scopes, vs[i := v'], c)
  {
    assert ScopeOk(scopes, vs, c);
    assert VerdictLeq(VerdictOf(vs[i], c), VerdictOf(v', c));
  }

  lemma AdvanceKeepsMember(scopes: seq<Scope>, vs: seq<Invocation>, i: nat, v': Invocation, j: nat)
    requires Structure(scopes, vs) && i < |vs| && j < |vs|
    requires Advances(scopes, vs[i], v')
    ensures MemberOk(scopes, vs[i := v'], j)
  {
    var c := vs[j].scope;
    assert MemberOk(scopes, vs, j);
    assert VerdictLeq(VerdictOf(vs[i], c), VerdictOf(v', c));
    if c > 0 {
      assert ScopeOk(scopes, vs, c);
    }
  }

  lemma AdvanceKeeps(scopes: seq<Scope>, vs: seq<Invocation>, i: nat, v': Invocation)
    requires Structure(scopes, vs) && i < |vs|
    requires Advances(scopes, vs[i], v')
    ensures Structure(scopes, vs[i := v'])
  {
    var vs' := vs[i := v'];
    assert Shape(scopes, vs');
    forall c | 0 < c < |scopes|
      ensures ScopeOk(scopes, vs', c)
    {
      AdvanceKeepsScope(scopes, vs, i, v', c);
    }
    forall j | 0 <= j < |vs'|
      ensures MemberOk(scopes, vs', j)
    {
      AdvanceKeepsMember(scopes, vs, i, v', j);
    }
    forall j | 0 <= j < |vs'|
      ensures FailureOk(scopes, vs', j) && DelegationOk(scopes, vs', j)
    {
      assert FailureOk(scopes, vs, j) && DelegationOk(scopes, vs, j);
    }
    forall j | 0 <= j < |vs'|
      ensures JoinedOk(vs', j)
    {
      AdvanceKeepsJoined(scopes, vs, i, v', j);
    }
  }

  lemma AdvanceKeepsJoined(scopes: seq<Scope>, vs: seq<Invocation>, i: nat, v': Invocation, j: nat)
    requires Structure(scopes, vs) && i < |vs| && j < |vs|
    requires Advances(scopes, vs[i], v')
    ensures JoinedOk(vs[i := v'], j)
  {
    hide PhaseOk, MemberOk, ScopeOk, FailureOk;
    assert JoinedOk(vs, j);
    if j == i && v'.delegation.Draining? {
      assert VerdictLeq(VerdictOf(vs[i], v'.delegation.child), VerdictOf(v', v'.delegation.child));
    }
  }

  /** Recording a failure changes nothing else. */
  lemma FailureKeeps(scopes: seq<Scope>, vs: seq<Invocation>, s: nat, e: Error)
    requires Structure(scopes, vs) && s < |scopes|
    ensures Structure(scopes[s := scopes[s].(failure := Some(e))], vs)
  {
    var scopes' := scopes[s := scopes[s].(failure := Some(e))];
    assert Shape(scopes', vs);
    forall c | 0 < c < |scopes'|
      ensures ScopeOk(scopes', vs, c)
    {
      assert ScopeOk(scopes, vs, c);
    }
    forall j | 0 <= j < |vs|
      ensures MemberOk(scopes', vs, j) && FailureOk(scopes', vs, j) && DelegationOk(scopes', vs, j)
    {
      assert MemberOk(scopes, vs, j) && FailureOk(scopes, vs, j) && DelegationOk(scopes, vs, j);
    }
  }

  function NewInvocation(s: nat, kind: Budget.Kind, r: Option<Budget.Reservation>): Invocation {
    Invocation(s, kind, r, Created, false, 0, None, Idle, None)
  }

  lemma CreateKeeps(scopes: seq<Scope>, vs: seq<Invocation>, v: Invocation)
    requires Structure(scopes, vs) && v.scope < |scopes|
    requires v == NewInvocation(v.scope, v.kind, v.reservation)
    ensures Structure(scopes, vs + [v])
  {
    assert PhaseOk(v);
    hide PhaseOk, VerdictOf;
    var vs' := vs + [v];
    assert Shape(scopes, vs');
    forall c | 0 < c < |scopes|
      ensures ScopeOk(scopes, vs', c)
    {
      assert ScopeOk(scopes, vs, c);
    }
    forall j | 0 <= j < |vs'|
      ensures MemberOk(scopes, vs', j)
    {
      if j < |vs| { assert MemberOk(scopes, vs, j); }
    }
    forall j | 0 <= j < |vs'|
      ensures FailureOk(scopes, vs', j) && DelegationOk(scopes, vs', j)
    {
      if j < |vs| { assert FailureOk(scopes, vs, j) && DelegationOk(scopes, vs, j); }
    }
    forall j | 0 <= j < |vs'|
      ensures JoinedOk(vs', j)
    {
      if j < |vs| { assert JoinedOk(vs, j); }
    }
  }

  lemma StructureParts(scopes: seq<Scope>, vs: seq<Invocation>)
    requires Structure(scopes, vs)
    ensures Shape(scopes, vs)
    ensures forall s :: 0 < s < |scopes| ==> ScopeOk(scopes, vs, s)
    ensures forall j :: 0 <= j < |vs| ==>
              PhaseOk(vs[j]) && MemberOk(scopes, vs, j) && FailureOk(scopes, vs, j) && DelegationOk(scopes, vs, j)
              && JoinedOk(vs, j)
  {}

  /** One launch under a new scope: nothing that is said of it is about that scope. */
  lemma OpenKeepsLaunch(scopes: seq<Scope>, vs: seq<Invocation>, i: nat, v': Invocation, j: nat)
    requires Shape(scopes, vs) && i < |vs| && j < |vs| && vs[i].delegation.Idle?
    requires v' == vs[i].(permit := None, delegation := Working(|scopes|))
    requires MemberOk(scopes, vs, j) && FailureOk(scopes, vs, j) && DelegationOk(scopes, vs, j) && JoinedOk(vs, j)
    ensures var scopes' := scopes + [Scope(Some(i), false, None)];
            && MemberOk(scopes', vs[i := v'], j) && FailureOk(scopes', vs[i := v'], j)
            && DelegationOk(scopes', vs[i := v'], j) && JoinedOk(vs[i := v'], j)
  {}

  /** Opening a scope: its owner is delegating to it, and it has no jobs yet. */
  lemma OpenKeeps(scopes: seq<Scope>, vs: seq<Invocation>, i: nat)
    requires Structure(scopes, vs) && i < |vs| && vs[i].phase.Running? && vs[i].delegation.Idle?
    ensures Structure(scopes + [Scope(Some(i), false, None)],
                      vs[i := vs[i].(permit := None, delegation := Working(|scopes|))])
  {
    var v' := vs[i].(permit := None, delegation := Working(|scopes|));
    var scopes', vs' := scopes + [Scope(Some(i), false, None)], vs[i := v'];
    StructureParts(scopes, vs);
    assert PhaseOk(v') && Shape(scopes', vs');
    hide PhaseOk;
    forall c | 0 < c < |scopes'|
      ensures ScopeOk(scopes', vs', c)
    {
      if c < |scopes| { assert ScopeOk(scopes, vs, c); }
    }
    hide Shape, ScopeOk, MemberOk, FailureOk, DelegationOk, JoinedOk;
    forall j | 0 <= j < |vs'|
      ensures MemberOk(scopes', vs', j) && FailureOk(scopes', vs', j) && DelegationOk(scopes', vs', j)
      ensures JoinedOk(vs', j)
    {
      OpenKeepsLaunch(scopes, vs, i, v', j);
    }
  }

  lemma CloseKeepsLaunch(scopes: seq<Scope>, vs: seq<Invocation>, i: nat, jobs: set<nat>, work: Outcome, j: nat)
    requires Shape(scopes, vs) && i < |vs| && j < |vs| && vs[i].delegation.Working?
    requires vs[i].delegation.child < |scopes|
    requires vs[j].scope == vs[i].delegation.child && Pending(vs[j]) ==> j in jobs
    requires forall k :: k in jobs ==> k < |vs| && vs[k].scope == vs[i].delegation.child && Pending(vs[k])
    requires PhaseOk(vs[j]) && MemberOk(scopes, vs, j) && FailureOk(scopes, vs, j) && DelegationOk(scopes, vs, j)
    requires JoinedOk(vs, j)
    ensures var c := vs[i].delegation.child;
            var scopes' := scopes[c := scopes[c].(closed := true)];
            var vs' := vs[i := vs[i].(delegation := Draining(c, jobs, work))];
            && MemberOk(scopes', vs', j) && FailureOk(scopes', vs', j) && DelegationOk(scopes', vs', j)
            && JoinedOk(vs', j)
  {}

  lemma CloseKeepsScope(scopes: seq<Scope>, vs: seq<Invocation>, i: nat, jobs: set<nat>, work: Outcome, s: nat)
    requires Shape(scopes, vs) && i < |vs| && vs[i].delegation.Working? && 0 < s < |scopes|
    requires DelegationOk(scopes, vs, i) && ScopeOk(scopes, vs, s)
    ensures var c := vs[i].delegation.child;
            ScopeOk(scopes[c := scopes[c].(closed := true)], vs[i := vs[i].(delegation := Draining(c, jobs, work))], s)
  {}

  /** Closing a scope: every launched job still pending is among those joined. */
  lemma CloseKeeps(scopes: seq<Scope>, vs: seq<Invocation>, i: nat, jobs: set<nat>, work: Outcome)
    requires Structure(scopes, vs) && i < |vs| && vs[i].delegation.Working?
    requires forall j :: 0 <= j < |vs| && vs[j].scope == vs[i].delegation.child && Pending(vs[j]) ==> j in jobs
    requires forall j :: j in jobs ==> j < |vs| && vs[j].scope == vs[i].delegation.child && Pending(vs[j])
    ensures vs[i].delegation.child < |scopes|
    ensures var c := vs[i].delegation.child;
            Structure(scopes[c := scopes[c].(closed := true)],
                      vs[i := vs[i].(delegation := Draining(c, jobs, work))])
  {
    StructureParts(scopes, vs);
    assert DelegationOk(scopes, vs, i) && PhaseOk(vs[i]);
    var c := vs[i].delegation.child;
    var v' := vs[i].(delegation := Draining(c, jobs, work));
    var scopes', vs' := scopes[c := scopes[c].(closed := true)], vs[i := v'];
    assert PhaseOk(v') && Shape(scopes', vs');
    hide PhaseOk, Shape, ScopeOk, MemberOk, FailureOk, DelegationOk, JoinedOk, Pending;
    forall s | 0 < s < |scopes'|
      ensures ScopeOk(scopes', vs', s)
    {
      CloseKeepsScope(scopes, vs, i, jobs, work, s);
    }
    forall j | 0 <= j < |vs'|
      ensures MemberOk(scopes', vs', j) && FailureOk(scopes', vs', j) && DelegationOk(scopes', vs', j)
      ensures JoinedOk(vs', j)
    {
      CloseKeepsLaunch(scopes, vs, i, jobs, work, j);
    }
  }

  lemma DrainKeepsMember(scopes: seq<Scope>, vs: seq<Invocation>, i: nat, result: Outcome, j: nat)
    requires Structure(scopes, vs) && i < |vs| && vs[i].delegation.Draining? && j < |vs|
    requires forall j :: j in vs[i].delegation.joined ==> j < |vs| && vs[j].phase.Observed?
    requires vs[i].delegation.child < |scopes|
    requires scopes[vs[i].delegation.child].failure.Some? ==> result.Fail?
    ensures MemberOk(scopes, vs[i := vs[i].(delegation := Drained(vs[i].delegation.child, result))], j)
  {
    assert PhaseOk(vs[j]);
    assert MemberOk(scopes, vs, j) && FailureOk(scopes, vs, j);
  }

  lemma DrainKeepsScopes(scopes: seq<Scope>, vs: seq<Invocation>, i: nat, result: Outcome)
    requires Structure(scopes, vs) && i < |vs| && vs[i].delegation.Draining?
    ensures var vs' := vs[i := vs[i].(delegation := Drained(vs[i].delegation.child, result))];
            && Shape(scopes, vs')
            && (forall k :: 0 <= k < |vs'| ==> PhaseOk(vs'[k]))
            && (forall s :: 0 < s < |scopes| ==> ScopeOk(scopes, vs', s))
  {
    var v' := vs[i].(delegation := Drained(vs[i].delegation.child, result));
    var vs' := vs[i := v'];
    assert PhaseOk(vs[i]) && PhaseOk(v');
    hide PhaseOk, MemberOk, FailureOk, JoinedOk, DelegationOk;
    assert Shape(scopes, vs');
    forall s | 0 < s < |scopes|
      ensures ScopeOk(scopes, vs', s)
    {
      assert ScopeOk(scopes, vs, s);
    }
  }

  /** A drained scope: all its launched jobs are observed, and a recorded failure is in the result. */
  lemma DrainKeeps(scopes: seq<Scope>, vs: seq<Invocation>, i: nat, result: Outcome)
    requires Structure(scopes, vs) && i < |vs| && vs[i].delegation.Draining?
    requires forall j :: j in vs[i].delegation.joined ==> j < |vs| && vs[j].phase.Observed?
    requires vs[i].delegation.child < |scopes|
    requires scopes[vs[i].delegation.child].failure.Some? ==> result.Fail?
    ensures Structure(scopes, vs[i := vs[i].(delegation := Drained(vs[i].delegation.child, result))])
  {
    var vs' := vs[i := vs[i].(delegation := Drained(vs[i].delegation.child, result))];
    hide PhaseOk, VerdictOf, MemberOk, ScopeOk;
    DrainKeepsScopes(scopes, vs, i, result);
    forall j | 0 <= j < |vs'|
      ensures MemberOk(scopes, vs', j)
    {
      DrainKeepsMember(scopes, vs, i, result, j);
    }
    forall j | 0 <= j < |vs'|
      ensures FailureOk(scopes, vs', j) && DelegationOk(scopes, vs', j) && JoinedOk(vs', j)
    {
      assert FailureOk(scopes, vs, j) && DelegationOk(scopes, vs, j) && JoinedOk(vs, j);
    }
  }
}
