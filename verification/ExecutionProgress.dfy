/**
 Deadlock freedom and termination of an execution root, and what `withChildren` settles with.
 */
module ExecutionProgress {
  import opened Wrappers
  import opened ExecutionState
  import opened ExecutionStructure
  import opened ExecutionAdmission
  import opened ExecutionSafety
  import opened ExecutionRuns
  import opened ExecutionTheorems
  import Budget = ExecutionBudget
  import Sched = ExecutionScheduler

  /**
   A step of a root whose callers block on nothing but their own children: a callback
   finishes once its `withChildren` has, and a child callback once every job it launched
   has. No new work is created, and nobody throws, cancels or closes.
   */
  predicate Disciplined(st: State, step: Step) {
    && Enabled(st, step)
    && match step
       case Start(_, late) => !late
       case CallbackReturns(i) => st.launches[i].delegation.Idle?
       case WorkReturns(i) => Jobs(st, st.launches[i].delegation.child) == {}
       case Drain(_) => true
       case Reenter(_) => true
       case Resume(_) => true
       case SettleDelegation(_) => true
       case Observe(_) => true
       case _ => false
  }

  /** The youngest job that is not finished and observed. */
  lemma {:induction false} YoungestPending(vs: seq<Invocation>) returns (i: nat)
    requires exists k :: 0 <= k < |vs| && Pending(vs[k])
    ensures i < |vs| && Pending(vs[i])
    ensures forall k :: i < k < |vs| ==> !Pending(vs[k])
  {
    var last := |vs| - 1;
    if Pending(vs[last]) {
      i := last;
    } else {
      var k :| 0 <= k < |vs| && Pending(vs[k]);
      assert Pending(vs[..last][k]);
      i := YoungestPending(vs[..last]);
    }
  }

  /** Below the youngest pending job nothing is pending, so its own scope has nothing left to join. */
  lemma ChildScopeIsDone(st: State, i: nat)
    requires Core(st) && i < |st.launches| && AwaitsChildren(st.launches[i])
    requires forall k :: i < k < |st.launches| ==> !Pending(st.launches[k])
    ensures Jobs(st, st.launches[i].delegation.child) == {}
  {
    LaunchOk(st, i);
    var c := st.launches[i].delegation.child;
    hide Core, PhaseOk, TicketOk, ResumeOk, Sched.Valid;
    forall j | 0 <= j < |st.launches| && st.launches[j].scope == c
      ensures !Pending(st.launches[j])
    {
      ScopeHasOpener(st, j);
    }
  }

  lemma JoinedExist(st: State, i: nat)
    requires Core(st) && i < |st.launches|
    ensures st.launches[i].delegation.Draining? ==>
              forall j :: j in st.launches[i].delegation.joined ==>
                j < |st.launches| && st.launches[j].scope == st.launches[i].delegation.child
                && !st.launches[j].phase.Created?
  {
    hide Admission, Signals, PhaseOk, MemberOk, ScopeOk, FailureOk, DelegationOk;
    assert JoinedOk(st.launches, i);
  }

  predicate AwaitsChildren(v: Invocation) {
    v.delegation.Working? || v.delegation.Draining?
  }

  lemma DelegatingStep(st: State, i: nat) returns (step: Step)
    requires Core(st) && i < |st.launches| && !st.launches[i].delegation.Idle?
    requires AwaitsChildren(st.launches[i]) ==> Jobs(st, st.launches[i].delegation.child) == {}
    requires Waits(st.launches[i]) ==> Answered(st, WaitTicket(st.launches[i]))
    ensures Disciplined(st, step)
  {
    hide Core;
    LaunchOk(st, i);
    hide PhaseOk, TicketOk, ResumeOk, Sched.Valid, Answered;
    match st.launches[i].delegation {
      case Working(_) => step := WorkReturns(i);
      case Draining(child, joined, _) =>
        step := Drain(i);
        JoinedExist(st, i);
        hide Jobs;
        NothingToJoin(st, child, joined);
      case Drained(_, _) => step := Reenter(i);
      case Reentering(_, _, t) =>
        step := Resume(i);
        NotAwaiting(st, i);
      case Settling(_, _) => step := SettleDelegation(i);
    }
  }

  lemma NotAwaiting(st: State, i: nat)
    requires Core(st) && i < |st.launches| && !st.launches[i].delegation.Idle?
    ensures !st.launches[i].phase.Awaiting?
  {
    hide Core;
    LaunchOk(st, i);
  }

  lemma NothingToJoin(st: State, c: nat, joined: set<nat>)
    requires Jobs(st, c) == {}
    requires forall j :: j in joined ==>
               j < |st.launches| && st.launches[j].scope == c && !st.launches[j].phase.Created?
    ensures forall j :: j in joined ==> j < |st.launches| && st.launches[j].phase.Observed?
  {
    forall j | j in joined
      ensures st.launches[j].phase.Observed?
    {
      assert j !in Jobs(st, c);
    }
  }

  /** The step a launch can take by itself, unless it is queued for a permit or waits for its children. */
  lemma OwnStep(st: State, i: nat) returns (step: Step)
    requires Sound(st) && i < |st.launches| && Pending(st.launches[i])
    requires AwaitsChildren(st.launches[i]) ==> Jobs(st, st.launches[i].delegation.child) == {}
    requires Waits(st.launches[i]) ==> Answered(st, WaitTicket(st.launches[i]))
    ensures Disciplined(st, step)
  {
    hide Sound, Core;
    SoundCore(st);
    var v := st.launches[i];
    if !v.delegation.Idle? {
      step := DelegatingStep(st, i);
    } else {
      assert !(v.phase.ReturnJoin? || v.phase.ThrowJoin?);
      LaunchOk(st, i);
      hide PhaseOk, TicketOk, ResumeOk, Sched.Valid, Jobs;
      if v.phase.Awaiting? {
        step := Start(i, false);
      } else if v.phase.Running? {
        step := CallbackReturns(i);
      } else {
        step := Observe(i);
      }
    }
  }

  /** Somebody holds a permit whenever a launch waits in the queue. */
  lemma HolderBehindQueue(st: State, i: nat) returns (h: nat)
    requires Reachable(st) && i < |st.launches| && Waits(st.launches[i])
    requires !Answered(st, WaitTicket(st.launches[i]))
    ensures h < |st.launches| && Live(st.launches[h])
    ensures TicketOf(st.launches[h]).Some? && TicketOf(st.launches[h]).value < |st.sched.tickets|
    ensures Sched.Held(st.sched.tickets[TicketOf(st.launches[h]).value])
  {
    hide Sound, Core;
    ReachableSound(st);
    SoundCore(st);
    LaunchOk(st, i);
    hide Reachable;
    assert Sched.Queued(st.sched.waiters, WaitTicket(st.launches[i]));
    var t := Sched.HolderExists(st.sched.tickets);
    h := PermitHasOneHolder(st, t);
  }

  /**
   Deadlock freedom. For any concurrency of at least one and any nesting, as long as some
   job is unfinished, a step can be taken in which nobody misbehaves: no step creates
   work, throws, cancels or closes.
   */
  lemma NoDeadlock(st: State) returns (step: Step)
    requires Reachable(st)
    requires exists k :: 0 <= k < |st.launches| && Pending(st.launches[k])
    ensures Disciplined(st, step)
  {
    hide Sound, Core, Disciplined, Reachable, Answered;
    ReachableSound(st);
    SoundCore(st);
    var i := YoungestPending(st.launches);
    if AwaitsChildren(st.launches[i]) {
      ChildScopeIsDone(st, i);
    }
    if Waits(st.launches[i]) && !Answered(st, WaitTicket(st.launches[i])) {
      var h := HolderBehindQueue(st, i);
      HolderMoves(st, h);
      step := OwnStep(st, h);
    } else {
      step := OwnStep(st, i);
    }
  }

  /** A launch that holds a permit has no children to wait for. */
  lemma HolderMoves(st: State, h: nat)
    requires Sound(st) && h < |st.launches|
    requires TicketOf(st.launches[h]).Some? && TicketOf(st.launches[h]).value < |st.sched.tickets|
    requires Sched.Held(st.sched.tickets[TicketOf(st.launches[h]).value])
    ensures Waits(st.launches[h]) ==> Answered(st, WaitTicket(st.launches[h]))
    ensures !AwaitsChildren(st.launches[h])
  {
    hide Sound, Core;
    SoundCore(st);
    LaunchOk(st, h);
  }

  // ---- runs end ----

  function SumCredit(steps: seq<Step>): nat {
    if steps == [] then 0 else Credit(steps[0]) + SumCredit(steps[1..])
  }

  /** A run is never longer than the work there was and the work its callers added. */
  lemma {:induction false} RunUsesWork(st: State, steps: seq<Step>)
    requires Sound(st) && Follows(st, steps)
    ensures |steps| + TotalWeight(After(st, steps).launches) <= TotalWeight(st.launches) + SumCredit(steps)
    decreases |steps|
  {
    hide Sound, Next, Enabled;
    if steps != [] {
      SoundCore(st);
      StepUsesWork(st, steps[0]);
      StepKeepsSound(st, steps[0]);
      RunUsesWork(Next(st, steps[0]), steps[1..]);
    }
  }

  /**
   Termination. Between two calls that add work a root can only take a bounded number of
   steps: over a whole run, at most 57 for each invocation created, 8 for each
   delegation and 1 for each other call on the root.
   */
  lemma RunLengthIsBounded(concurrency: nat, total: Option<nat>, steps: seq<Step>)
    requires 1 <= concurrency && Follows(Initial(concurrency, total), steps)
    ensures |steps| <= SumCredit(steps)
  {
    hide Sound;
    InitialSound(concurrency, total);
    RunUsesWork(Initial(concurrency, total), steps);
  }

  ghost predicate DisciplinedRun(st: State, steps: seq<Step>)
    decreases |steps|
  {
    steps == [] || (Disciplined(st, steps[0]) && DisciplinedRun(Next(st, steps[0]), steps[1..]))
  }

  ghost function End(st: State, steps: seq<Step>): State
    requires DisciplinedRun(st, steps)
    decreases |steps|
  {
    if steps == [] then st else End(Next(st, steps[0]), steps[1..])
  }

  lemma {:induction false} FollowsAppend(st: State, steps: seq<Step>, step: Step)
    requires Follows(st, steps) && Enabled(After(st, steps), step)
    ensures Follows(st, steps + [step])
    ensures After(st, steps + [step]) == Next(After(st, steps), step)
    decreases |steps|
  {
    hide Next, Enabled;
    if steps == [] {
      assert (steps + [step])[1..] == [];
    } else {
      FollowsAppend(Next(st, steps[0]), steps[1..], step);
      assert (steps + [step])[1..] == steps[1..] + [step];
    }
  }

  lemma ReachableNext(st: State, step: Step)
    requires Reachable(st) && Enabled(st, step)
    ensures Reachable(Next(st, step))
  {
    hide Next, Enabled;
    var concurrency: nat, total: Option<nat>, steps: seq<Step> :|
      1 <= concurrency && Follows(Initial(concurrency, total), steps)
      && st == After(Initial(concurrency, total), steps);
    FollowsAppend(Initial(concurrency, total), steps, step);
  }

  lemma DisciplinedAddsNothing(st: State, step: Step)
    requires Disciplined(st, step)
    ensures Enabled(st, step) && Credit(step) == 0
  {
    hide Enabled;
  }

  /** However the root is scheduled, a disciplined run ends within the work there is. */
  lemma {:induction false} DisciplinedRunsEnd(st: State, steps: seq<Step>)
    requires Reachable(st) && DisciplinedRun(st, steps)
    ensures |steps| + TotalWeight(End(st, steps).launches) <= TotalWeight(st.launches)
    ensures Reachable(End(st, steps))
    decreases |steps|
  {
    hide Reachable, Sound, Next, Enabled, Disciplined, Credit;
    if steps != [] {
      DisciplinedAddsNothing(st, steps[0]);
      ReachableSound(st);
      SoundCore(st);
      StepUsesWork(st, steps[0]);
      ReachableNext(st, steps[0]);
      DisciplinedRunsEnd(Next(st, steps[0]), steps[1..]);
    }
  }

  /**
   Completion. From every reachable state all unfinished jobs can be finished, within the
   work there is, by callers that only ever wait for their own children; and a
   disciplined run that cannot go on has finished every job.
   */
  lemma {:induction false} AllWorkCompletes(st: State) returns (steps: seq<Step>)
    requires Reachable(st)
    ensures DisciplinedRun(st, steps) && |steps| <= TotalWeight(st.launches)
    ensures forall i :: 0 <= i < |End(st, steps).launches| ==> !Pending(End(st, steps).launches[i])
    decreases TotalWeight(st.launches)
  {
    hide Reachable, Sound, Next, Enabled, Disciplined, Credit;
    if exists k :: 0 <= k < |st.launches| && Pending(st.launches[k]) {
      var step := NoDeadlock(st);
      DisciplinedAddsNothing(st, step);
      ReachableSound(st);
      SoundCore(st);
      StepUsesWork(st, step);
      ReachableNext(st, step);
      var rest := AllWorkCompletes(Next(st, step));
      steps := [step] + rest;
      assert steps[1..] == rest;
    } else {
      steps := [];
    }
  }

  // ---- what `withChildren` settles with ----

  /**
   The verdict of a drained scope: the first failure it recorded, if any; and success only
   if every job launched in it has succeeded and nothing stopped it.
   */
  lemma DrainReportsFirstFailure(st: State, i: nat)
    requires Reachable(st) && Enabled(st, Drain(i))
    ensures var c, work := st.launches[i].delegation.child, st.launches[i].delegation.work;
            var result := DrainResult(st, c, work);
            && AfterDrain(st, i).launches[i].delegation == Drained(c, result)
            && (st.scopes[c].failure.Some? ==> result == Fail(st.scopes[c].failure.value))
            && (st.scopes[c].failure.None? && work.Fail? ==> result == work)
            && (st.scopes[c].failure.None? && work.Ok? && Fired(st.sched, ScopeSignal(c)) ==>
                  result == Fail(Reason(st, ScopeSignal(c))))
            && (result.Ok? <==> st.scopes[c].failure.None? && work.Ok? && !Fired(st.sched, ScopeSignal(c)))
            && (result.Ok? ==>
                  forall j :: 0 <= j < |st.launches| && st.launches[j].scope == c && st.launches[j].launched ==>
                  st.launches[j].phase == Observed(Ok))
  {
    hide Reachable, Sound, Core;
    ReachableSound(st);
    SoundCore(st);
    LaunchOk(st, i);
    var c := st.launches[i].delegation.child;
    forall j | 0 <= j < |st.launches| && st.launches[j].scope == c && st.launches[j].launched
      ensures st.launches[j].phase.Observed?
      ensures st.launches[j].phase.outcome.Fail? ==> st.scopes[c].failure.Some?
    {
      MemberFacts(st, j);
    }
  }

  lemma MemberFacts(st: State, j: nat)
    requires Core(st) && j < |st.launches|
    ensures MemberOk(st.scopes, st.launches, j) && FailureOk(st.scopes, st.launches, j)
  {
    hide Admission, Signals, MemberOk, FailureOk, PhaseOk, ScopeOk, DelegationOk, JoinedOk;
  }

  predicate PastDrain(d: Delegation) {
    d.Drained? || d.Reentering? || d.Settling?
  }

  /** A drained delegation whose re-entry has not been answered. */
  predicate Undecided(d: Delegation) {
    d.Drained? || d.Reentering?
  }

  predicate Decides(step: Step, i: nat) {
    step == Reenter(i) || step == Resume(i)
  }

  /**
   What a drained delegation settles with, read at the step that decides it. The drained
   result stands unless the launch is aborted by then. It stands even so for a callback
   that had returned or thrown before it could ask for its permit. Otherwise the launch's
   reason takes its place, or the one a queued re-entry was rejected with.
   */
  ghost function Verdict(st: State, step: Step, i: nat, drained: Outcome): Outcome
    requires Enabled(st, step) && Decides(step, i)
  {
    if !Fired(st.sched, LaunchSignal(i)) then drained
    else if step.Reenter? then
      if st.launches[i].phase.Running? then Fail(Reason(st, LaunchSignal(i))) else drained
    else
      var ticket := st.sched.tickets[st.launches[i].delegation.ticket];
      Fail(if ticket.Rejected? then ticket.reason else Reason(st, LaunchSignal(i)))
  }

  /** Asking for the permit back: the delegation settles at once, or its drained result waits with it. */
  lemma ReenterResult(st: State, i: nat)
    requires Sound(st) && Enabled(st, Reenter(i))
    ensures |AfterReenter(st, i).launches| == |st.launches|
    ensures var d, d' := st.launches[i].delegation, AfterReenter(st, i).launches[i].delegation;
            if st.launches[i].phase.Running? && !Fired(st.sched, LaunchSignal(i))
            then d'.Reentering? && d'.child == d.child && d'.result == d.result
            else d' == Settling(d.child, Verdict(st, Reenter(i), i, d.result))
  {
    hide Sound, Core, Sched.Acquire;
    SoundCore(st);
    LaunchOk(st, i);
    hide PhaseOk, TicketOk, ResumeOk, Sched.Valid;
    if st.closed { ClosedIsFired(st, i); }
  }

  /** Re-entry answered: the drained result stands if and only if the launch has not been aborted by then. */
  lemma ResumeResult(st: State, i: nat)
    requires Sound(st) && Enabled(st, Resume(i))
    ensures |AfterResume(st, i).launches| == |st.launches|
    ensures var d := st.launches[i].delegation;
            AfterResume(st, i).launches[i].delegation == Settling(d.child, Verdict(st, Resume(i), i, d.result))
  {
    hide Sound, Core;
    SoundCore(st);
    LaunchOk(st, i);
    NotAwaiting(st, i);
    ResumeFollows(st, i);
    hide Sched.Valid, Sched.Activate, Sched.Release;
  }

  /** One step of an undecided delegation. */
  lemma UndecidedStep(st: State, step: Step, i: nat)
    requires Sound(st) && Enabled(st, step) && i < |st.launches| && Undecided(st.launches[i].delegation)
    ensures i < |Next(st, step).launches|
    ensures var d, d' := st.launches[i].delegation, Next(st, step).launches[i].delegation;
            || d'.Idle?
            || (Undecided(d') && d'.child == d.child && d'.result == d.result)
            || (Decides(step, i) && d' == Settling(d.child, Verdict(st, step, i, d.result)))
  {
    hide Sound, Core, Weight, Starts, LaunchEvolves, DelegationEvolves;
    SoundCore(st);
    hide Next, Verdict;
    if step == Reenter(i) {
      ReenterResult(st, i);
      NextReenter(st, i);
    } else if step == Resume(i) {
      ResumeResult(st, i);
      NextReenter(st, i);
    } else if Actor(step) == Some(i) {
      OtherStepsKeepResult(st, step, i);
    } else if Actor(step).Some? {
      StepMoves(st, step, Actor(step).value);
    } else {
      SpectatorStep(st, step);
    }
  }

  /** One step of a decided one: its promise settles, or nothing changes. */
  lemma SettlingStep(st: State, step: Step, i: nat)
    requires Sound(st) && Enabled(st, step) && i < |st.launches| && st.launches[i].delegation.Settling?
    ensures i < |Next(st, step).launches|
    ensures Next(st, step).launches[i].delegation.Idle?
            || Next(st, step).launches[i].delegation == st.launches[i].delegation
  {
    hide Sound, Core, Weight, Starts, LaunchEvolves, DelegationEvolves;
    SoundCore(st);
    hide Next;
    if Actor(step) == Some(i) {
      OtherStepsKeepResult(st, step, i);
    } else if Actor(step).Some? {
      StepMoves(st, step, Actor(step).value);
    } else {
      SpectatorStep(st, step);
    }
  }

  lemma NextReenter(st: State, i: nat)
    ensures Enabled(st, Reenter(i)) ==> Next(st, Reenter(i)) == AfterReenter(st, i)
    ensures Enabled(st, Resume(i)) ==> Next(st, Resume(i)) == AfterResume(st, i)
  {
    hide AfterReenter, AfterResume;
  }

  /** A scope belongs to one delegation only: once that is over, no later one is about it. */
  lemma OldScopeStaysOld(st: State, step: Step, i: nat, c: nat)
    requires Sound(st) && Enabled(st, step) && i < |st.launches| && c < |st.scopes|
    requires st.launches[i].delegation.Idle? || st.launches[i].delegation.child != c
    ensures i < |Next(st, step).launches| && c < |Next(st, step).scopes|
    ensures var d' := Next(st, step).launches[i].delegation; d'.Idle? || d'.child != c
  {
    hide Sound, Core, Weight, Starts, LaunchEvolves, Next;
    SoundCore(st);
    StepEvolves(st, step);
    if Actor(step).Some? {
      StepMoves(st, step, Actor(step).value);
    } else {
      SpectatorStep(st, step);
    }
  }

  lemma {:induction false} OldScopeStaysOldForever(st: State, steps: seq<Step>, i: nat, c: nat)
    requires Sound(st) && Follows(st, steps) && i < |st.launches| && c < |st.scopes|
    requires st.launches[i].delegation.Idle? || st.launches[i].delegation.child != c
    ensures i < |After(st, steps).launches|
    ensures var d' := After(st, steps).launches[i].delegation; d'.Idle? || d'.child != c
    decreases |steps|
  {
    hide Sound, Next, Enabled;
    if steps != [] {
      OldScopeStaysOld(st, steps[0], i, c);
      StepKeepsSound(st, steps[0]);
      OldScopeStaysOldForever(Next(st, steps[0]), steps[1..], i, c);
    }
  }

  lemma ScopeExists(st: State, i: nat)
    requires Sound(st) && i < |st.launches|
    ensures !st.launches[i].delegation.Idle? ==> st.launches[i].delegation.child < |st.scopes|
  {
    hide Sound, Core;
    SoundCore(st);
    LaunchOk(st, i);
  }

  /** Once the delegation's scope is behind it, no later delegation has that scope. */
  lemma OverIsOver(st: State, steps: seq<Step>, i: nat, c: nat)
    requires Sound(st) && Follows(st, steps) && i < |st.launches| && c < |st.scopes|
    requires i < |After(st, steps).launches| && After(st, steps).launches[i].delegation.Settling?
    requires After(st, steps).launches[i].delegation.child == c
    ensures !st.launches[i].delegation.Idle?
  {
    hide Sound, Follows, After;
    if st.launches[i].delegation.Idle? {
      OldScopeStaysOldForever(st, steps, i, c);
    }
  }

  lemma {:induction false} SettlingStands(st: State, steps: seq<Step>, i: nat)
    requires Sound(st) && Follows(st, steps) && i < |st.launches| && st.launches[i].delegation.Settling?
    requires i < |After(st, steps).launches| && After(st, steps).launches[i].delegation.Settling?
    requires After(st, steps).launches[i].delegation.child == st.launches[i].delegation.child
    ensures After(st, steps).launches[i].delegation == st.launches[i].delegation
    decreases |steps|
  {
    hide Sound, Next, Enabled;
    if steps != [] {
      SettlingStep(st, steps[0], i);
      StepKeepsSound(st, steps[0]);
      ScopeExists(st, i);
      ScopesStay(st, steps[0]);
      OverIsOver(Next(st, steps[0]), steps[1..], i, st.launches[i].delegation.child);
      SettlingStands(Next(st, steps[0]), steps[1..], i);
    }
  }

  lemma ScopesStay(st: State, step: Step)
    requires Sound(st) && Enabled(st, step)
    ensures |st.scopes| <= |Next(st, step).scopes|
  {
    hide Sound, Next, Core;
    SoundCore(st);
    StepEvolves(st, step);
  }

  /** The step of a run that decides an undecided delegation. */
  ghost predicate DecidedAt(st: State, steps: seq<Step>, i: nat, k: nat, c: nat, drained: Outcome)
    requires Follows(st, steps)
  {
    && k < |steps|
    && Follows(st, steps[..k])
    && var at := After(st, steps[..k]);
    && Enabled(at, steps[k]) && Decides(steps[k], i)
    && at.launches[i].delegation.child == c && at.launches[i].delegation.result == drained
    && i < |After(st, steps).launches|
    && After(st, steps).launches[i].delegation == Settling(c, Verdict(at, steps[k], i, drained))
  }

  lemma DecidedLater(st: State, steps: seq<Step>, i: nat, k: nat, c: nat, drained: Outcome)
    requires Follows(st, steps) && steps != []
    requires DecidedAt(Next(st, steps[0]), steps[1..], i, k, c, drained)
    ensures DecidedAt(st, steps, i, k + 1, c, drained)
  {
    hide Next, Enabled, Decides, Verdict;
    assert steps[..k + 1][1..] == steps[1..][..k];
    assert steps[1..][k] == steps[k + 1];
  }

  lemma {:induction false} UndecidedIsDecided(st: State, steps: seq<Step>, i: nat) returns (k: nat)
    requires Sound(st) && Follows(st, steps) && i < |st.launches| && Undecided(st.launches[i].delegation)
    requires i < |After(st, steps).launches| && After(st, steps).launches[i].delegation.Settling?
    requires After(st, steps).launches[i].delegation.child == st.launches[i].delegation.child
    ensures DecidedAt(st, steps, i, k, st.launches[i].delegation.child, st.launches[i].delegation.result)
    decreases |steps|
  {
    hide Sound, Next, Enabled, Verdict, DecidedAt;
    var st1 := Next(st, steps[0]);
    var d := st.launches[i].delegation;
    UndecidedStep(st, steps[0], i);
    StepKeepsSound(st, steps[0]);
    ScopeExists(st, i);
    ScopesStay(st, steps[0]);
    OverIsOver(st1, steps[1..], i, d.child);
    if Undecided(st1.launches[i].delegation) {
      k := UndecidedIsDecided(st1, steps[1..], i);
      DecidedLater(st, steps, i, k, d.child, d.result);
      k := k + 1;
    } else {
      SettlingStands(st1, steps[1..], i);
      DecidedNow(st, steps, i);
      k := 0;
    }
  }

  lemma DecidedNow(st: State, steps: seq<Step>, i: nat)
    requires Follows(st, steps) && steps != [] && i < |st.launches| && Undecided(st.launches[i].delegation)
    requires Decides(steps[0], i) && i < |After(st, steps).launches|
    requires var d := st.launches[i].delegation;
             After(st, steps).launches[i].delegation == Settling(d.child, Verdict(st, steps[0], i, d.result))
    ensures DecidedAt(st, steps, i, 0, st.launches[i].delegation.child, st.launches[i].delegation.result)
  {
    hide Next, Enabled, Verdict;
    assert steps[..0] == [];
  }

  /**
   What `withChildren` settles with, along any run from the drain of its scope: exactly
   the verdict of one step `k`, where the callback asks for its permit back or gets its
   answer, on the result of the drain. So the first failure of the scope, or its success,
   stands whenever the launch has not been aborted at that step.
   */
  lemma DelegationSettlesAsDecided(st: State, steps: seq<Step>, i: nat) returns (k: nat)
    requires Reachable(st) && Enabled(st, Drain(i))
    requires Follows(Next(st, Drain(i)), steps)
    requires i < |After(Next(st, Drain(i)), steps).launches|
    requires var d := After(Next(st, Drain(i)), steps).launches[i].delegation;
             d.Settling? && d.child == st.launches[i].delegation.child
    ensures var d := st.launches[i].delegation;
            DecidedAt(Next(st, Drain(i)), steps, i, k, d.child, DrainResult(st, d.child, d.work))
  {
    hide Reachable, Sound, DecidedAt;
    ReachableSound(st);
    StepKeepsSound(st, Drain(i));
    DrainReportsFirstFailure(st, i);
    hide AfterDrain, DrainResult;
    k := UndecidedIsDecided(Next(st, Drain(i)), steps, i);
  }

  lemma OtherStepsKeepResult(st: State, step: Step, i: nat)
    requires Core(st) && Enabled(st, step) && Actor(step) == Some(i) && i < |st.launches|
    requires PastDrain(st.launches[i].delegation) && !step.Reenter? && !step.Resume?
    ensures |Next(st, step).launches| == |st.launches|
    ensures var v' := Next(st, step).launches[i];
            v'.delegation.Idle? || v'.delegation == st.launches[i].delegation
  {
    hide Core;
    LaunchOk(st, i);
    match step {
      case CallbackReturns(_) =>
        hide Catch, Abort, Finish;
        AbortShape(Set(st, i, st.launches[i].(phase := ReturnJoin)), ResumeSignal(i), AgentReturned);
      case CallbackThrows(_, e) =>
        hide Catch;
        ReadyToCatch(st, i, e);
        CatchKeeps(st, i, e);
      case SettleDelegation(_) => SettleEmpties(st, i);
      case Run(_, _) =>
      case Start(_, _) =>
      case WithChildren(_) =>
      case WorkReturns(_) =>
      case WorkThrows(_, _) =>
      case Drain(_) =>
      case Observe(_) =>
    }
  }

  lemma SettleEmpties(st: State, i: nat)
    requires Core(st) && Enabled(st, SettleDelegation(i))
    ensures |AfterSettle(st, i).launches| == |st.launches| && AfterSettle(st, i).launches[i].delegation.Idle?
  {
    hide Core, Catch;
    LaunchOk(st, i);
    var v := st.launches[i];
    var v' := Remember(v.(delegation := Idle), v.delegation.result);
    AdvanceDelegation(st.scopes, v, v');
    MoveSame(st, i, v');
    var idle := Set(st, i, v');
    if v.phase.ReturnJoin? && (v.delegation.result.Fail? || v.delegationFailure.Some?) {
      var e := if v.delegation.result.Fail? then v.delegation.result.error else v.delegationFailure.value;
      ReadyToCatch(idle, i, e);
      CatchKeeps(idle, i, e);
    }
  }

  // ---- results that do not stand ----

  /** Cancelling the root between the drain and the re-entry replaces any result. */
  lemma CancelReplacesResult(st: State, i: nat, reason: Error) returns (steps: seq<Step>)
    requires Reachable(st) && Enabled(st, Drain(i))
    requires st.launches[i].phase.Running? && !Fired(st.sched, LaunchSignal(i))
    ensures steps == [Drain(i), Cancel(reason), Reenter(i)]
    ensures Follows(st, steps) && i < |After(st, steps).launches|
    ensures After(st, steps).launches[i].delegation == Settling(st.launches[i].delegation.child, Fail(reason))
  {
    steps := [Drain(i), Cancel(reason), Reenter(i)];
    hide Reachable, Sound, DrainResult, Fired, Aborted;
    var st1 := Next(st, Drain(i));
    var st2 := Next(st1, Cancel(reason));
    ReachableNext(st, Drain(i));
    ReachableNext(st1, Cancel(reason));
    ReachableSound(st2);
    CancelStops(st1, i, reason);
    hide AfterDrain;
    ReenterResult(st2, i);
    hide Next;
    NextReenter(st2, i);
    FollowsThree(st, steps);
  }

  lemma FollowsThree(st: State, steps: seq<Step>)
    requires |steps| == 3 && Enabled(st, steps[0])
    requires Enabled(Next(st, steps[0]), steps[1]) && Enabled(Next(Next(st, steps[0]), steps[1]), steps[2])
    ensures Follows(st, steps)
    ensures After(st, steps) == Next(Next(Next(st, steps[0]), steps[1]), steps[2])
  {
    hide Next, Enabled;
    var st2 := Next(Next(st, steps[0]), steps[1]);
    assert steps[1..][1..] == [steps[2]];
    assert Follows(Next(st2, steps[2]), []);
    assert Follows(st2, [steps[2]]) && After(st2, [steps[2]]) == Next(st2, steps[2]);
  }

  /** Cancelling stops every launch, with this reason unless something has stopped it before. */
  lemma CancelStops(st: State, i: nat, reason: Error)
    requires Reachable(st) && i < |st.launches|
    ensures Enabled(st, Cancel(reason))
    ensures var st' := Next(st, Cancel(reason));
            && st'.launches == st.launches && st'.scopes == st.scopes
            && Fired(st'.sched, LaunchSignal(i))
            && (!Fired(st.sched, LaunchSignal(i)) ==> Reason(st', LaunchSignal(i)) == reason)
            && |st'.sched.tickets| == |st.sched.tickets|
            && (forall t :: 0 <= t < |st.sched.tickets| && !st.sched.tickets[t].Waiting? ==>
                  st'.sched.tickets[t] == st.sched.tickets[t])
  {
    hide Reachable, Sound, Core, DependsOn, Sched.Valid, Sched.Abort, Sched.Mark, Dependents;
    ReachableSound(st);
    SoundCore(st);
    CoreSched(st);
    CoreShape(st);
    RootReaches(st, i);
    RootStops(st, i);
    MarkFires(st.sched, Dependents(st, ScopeSignal(0)), reason, LaunchSignal(i));
    Sched.AbortKeeps(st.sched, Dependents(st, ScopeSignal(0)), reason);
  }

  lemma RootStops(st: State, i: nat)
    requires i < |st.launches| && DependsOn(st, LaunchSignal(i), ScopeSignal(0))
    ensures LaunchSignal(i) in Dependents(st, ScopeSignal(0))
  {
    hide DependsOn;
  }

  lemma MarkFires(q: Scheduler, signals: set<Signal>, reason: Error, sig: Signal)
    requires sig in signals
    ensures var m := Sched.Mark(q, signals, reason);
            sig in m.aborted && (sig !in q.aborted ==> m.aborted[sig] == reason)
  {}

  lemma CoreShape(st: State)
    requires Core(st)
    ensures Shape(st.scopes, st.launches)
  {}

  lemma {:induction false} RootReaches(st: State, i: nat)
    requires Shape(st.scopes, st.launches) && i < |st.launches|
    ensures DependsOn(st, LaunchSignal(i), ScopeSignal(0))
  {
    var s := st.launches[i].scope;
    if s > 0 {
      RootReaches(st, st.scopes[s].owner.value);
      assert DependsOn(st, ScopeSignal(s), ScopeSignal(0));
    }
  }

  /** What a return while a delegation is open does to the permits: it cancels the queued re-entry. */
  lemma ReturnState(st: State, i: nat) returns (signals: set<Signal>)
    requires Enabled(st, CallbackReturns(i)) && !st.launches[i].delegation.Idle?
    ensures ResumeSignal(i) in signals
    ensures var st' := Next(st, CallbackReturns(i));
            && st'.sched == Sched.Abort(st.sched, signals, AgentReturned)
            && |st'.launches| == |st.launches| && st'.launches[i].delegation == st.launches[i].delegation
  {
    var returned := Set(st, i, st.launches[i].(phase := ReturnJoin));
    signals := Dependents(returned, ResumeSignal(i));
    SelfDepends(returned, i);
    hide Sched.Abort, Dependents, DependsOn;
  }

  /** A callback that returns while its re-entry is queued rejects it, and the ticket keeps that reason. */
  lemma ReturnRejectsReentry(st: State, i: nat)
    requires Reachable(st) && Enabled(st, CallbackReturns(i))
    requires st.launches[i].delegation.Reentering? && !Answered(st, st.launches[i].delegation.ticket)
    requires !Fired(st.sched, LaunchSignal(i))
    ensures var st' := Next(st, CallbackReturns(i));
            && i < |st'.launches| && st'.launches[i].delegation == st.launches[i].delegation
            && Answered(st', st.launches[i].delegation.ticket)
            && st'.sched.tickets[st.launches[i].delegation.ticket] == Sched.Rejected(AgentReturned)
  {
    hide Reachable, Sound, Core, Next, Sched.Abort, Sched.Valid, WaitersOk, DependsOn, Dependents;
    ReachableSound(st);
    SoundCore(st);
    CoreSched(st);
    ReentryWaits(st, i);
    hide Enabled, Answered, Fired;
    var t := st.launches[i].delegation.ticket;
    var signals := ReturnState(st, i);
    AbortRejects(st, signals, i, t);
    AnsweredNow(Next(st, CallbackReturns(i)), t);
  }

  /** A running callback with a queued re-entry has not been stopped in any way. */
  lemma ReentryWaits(st: State, i: nat)
    requires Core(st) && Enabled(st, CallbackReturns(i))
    requires st.launches[i].delegation.Reentering? && !Answered(st, st.launches[i].delegation.ticket)
    requires !Fired(st.sched, LaunchSignal(i))
    ensures var t := st.launches[i].delegation.ticket; t < |st.sched.tickets| && st.sched.tickets[t].Waiting?
    ensures !Fired(st.sched, ResumeSignal(i))
  {
    hide Core;
    LaunchOk(st, i);
    hide DelegationOk, Fired;
  }

  lemma AbortRejects(st: State, signals: set<Signal>, i: nat, t: nat)
    requires Core(st) && i < |st.launches| && st.launches[i].phase.Running?
    requires st.launches[i].delegation.Reentering? && st.launches[i].delegation.ticket == t
    requires t < |st.sched.tickets| && st.sched.tickets[t].Waiting?
    requires !Fired(st.sched, ResumeSignal(i)) && ResumeSignal(i) in signals
    ensures var q := Sched.Abort(st.sched, signals, AgentReturned);
            t < |q.tickets| && q.tickets[t] == Sched.Rejected(AgentReturned)
  {
    hide Core, Sched.Valid, Sched.Abort, Sched.Mark;
    CoreSched(st);
    Sched.AbortKeeps(st.sched, signals, AgentReturned);
    var a := Sched.AbortRejectsOnly(st.sched, signals, AgentReturned, t);
    WaiterSignal(st, i, a);
    MarkFires(st.sched, signals, AgentReturned, ResumeSignal(i));
  }

  lemma AnsweredNow(st: State, t: nat)
    requires t < |st.sched.tickets| && st.sched.tickets[t].Rejected?
    ensures Answered(st, t)
  {}

  lemma WaiterSignal(st: State, i: nat, a: nat)
    requires Core(st) && i < |st.launches| && st.launches[i].delegation.Reentering?
    requires !st.launches[i].phase.Awaiting?
    requires a < |st.sched.waiters| && st.sched.waiters[a].ticket == st.launches[i].delegation.ticket
    ensures st.sched.waiters[a].signal == ResumeSignal(i)
  {
    assert TicketOf(st.launches[i]) == Some(st.sched.waiters[a].ticket);
  }

  lemma SelfDepends(st: State, i: nat)
    requires i < |st.launches|
    ensures DependsOn(st, ResumeSignal(i), ResumeSignal(i))
  {}

  /** The other error a delegation may end with: its callback returned while the re-entry was queued. */
  lemma ReturnReplacesResult(st: State, i: nat, reason: Error) returns (steps: seq<Step>)
    requires Reachable(st) && Enabled(st, CallbackReturns(i))
    requires st.launches[i].delegation.Reentering? && !Answered(st, st.launches[i].delegation.ticket)
    requires !Fired(st.sched, LaunchSignal(i))
    ensures steps == [CallbackReturns(i), Cancel(reason), Resume(i)]
    ensures Follows(st, steps) && i < |After(st, steps).launches|
    ensures After(st, steps).launches[i].delegation == Settling(st.launches[i].delegation.child, Fail(AgentReturned))
  {
    steps := [CallbackReturns(i), Cancel(reason), Resume(i)];
    hide Reachable, Sound, Fired, Aborted, Next, AfterReturn;
    var st1 := Next(st, CallbackReturns(i));
    ReturnRejectsReentry(st, i);
    ReachableNext(st, CallbackReturns(i));
    CancelStops(st1, i, reason);
    var st2 := Next(st1, Cancel(reason));
    ReachableNext(st1, Cancel(reason));
    ReachableSound(st2);
    ResumeEnabled(st2, i);
    ResumeResult(st2, i);
    NextReenter(st2, i);
    FollowsThree(st, steps);
  }

  lemma ResumeEnabled(st: State, i: nat)
    requires Sound(st) && i < |st.launches| && st.launches[i].delegation.Reentering?
    requires Answered(st, st.launches[i].delegation.ticket)
    ensures Enabled(st, Resume(i))
  {
    hide Sound, Core;
    SoundCore(st);
    LaunchOk(st, i);
  }

  // ---- two runs that reach them ----

  /** A root without limits, nobody waiting, and a permit free. */
  predicate Calm(st: State) {
    && st.sched.waiters == [] && st.sched.inUse < st.sched.concurrency
    && !st.closed && st.ledger.totalAgents.None?
  }

  function Started(s: nat, ticket: nat): Invocation {
    Invocation(s, Budget.Fresh, None, Running, true, 1, Some(ticket), Idle, None)
  }

  /** On a calm root a new launch in an open scope gets its permit at once and its callback runs. */
  lemma LaunchRuns(st: State, s: nat) returns (st': State)
    requires Reachable(st) && Calm(st) && s < |st.scopes| && OpenError(st, s).None?
    ensures Reachable(st')
    ensures st'.launches == st.launches + [Started(s, |st.sched.tickets|)]
    ensures st'.scopes == st.scopes && st'.closed == st.closed && st'.ledger.totalAgents.None?
    ensures st'.sched == st.sched.(tickets := st.sched.tickets + [Sched.Executing], inUse := st.sched.inUse + 1,
                                   active := st.sched.active + 1, peak := st'.sched.peak)
  {
    hide Reachable;
    var i := |st.launches|;
    var st1 := Next(st, CreateInvocation(s, Budget.Fresh, None));
    ReachableNext(st, CreateInvocation(s, Budget.Fresh, None));
    var st2 := Next(st1, Run(i, false));
    ReachableNext(st1, Run(i, false));
    AloneIsGranted(st.sched, ScopeSignal(s));
    assert st2.sched.tickets[|st.sched.tickets|] == Sched.Granted;
    st' := Next(st2, Start(i, false));
    ReachableNext(st2, Start(i, false));
  }

  lemma AloneIsGranted(q: Scheduler, sig: Signal)
    requires q.waiters == [] && q.inUse < q.concurrency && sig !in q.aborted
    ensures Sched.Acquire(q, sig) == q.(tickets := q.tickets + [Sched.Granted], inUse := q.inUse + 1)
  {
    var q1 := Sched.Enqueue(q, sig);
    assert Sched.Dispatch(Sched.AdmitHead(q1)) == Sched.AdmitHead(q1);
  }

  lemma QuietAbort(q: Scheduler, signals: set<Signal>, reason: Error)
    requires q.waiters == []
    ensures Sched.Abort(q, signals, reason) == Sched.Mark(q, signals, reason)
  {}

  /** A failing child stops its own scope and itself, and nothing above. */
  lemma ChildFails(st: State, e: Error)
    requires |st.scopes| == 2 && |st.launches| == 2 && st.sched.waiters == [] && st.sched.aborted == map[]
    requires st.scopes == [Scope(None, false, None), Scope(Some(0), false, None)]
    requires st.launches[0].scope == 0 && st.launches[1] == Started(1, 1)
    requires |st.sched.tickets| == 2 && st.sched.tickets[1].Executing? && st.sched.inUse == 1
    ensures var st' := Catch(st, 1, e);
            && st'.launches == st.launches[1 := st.launches[1].(phase := Settled(Fail(e)), permit := None)]
            && st'.scopes == st.scopes[1 := Scope(Some(0), false, Some(e))]
            && st'.closed == st.closed && st'.ledger == st.ledger
            && st'.sched.waiters == [] && st'.sched.inUse == 0 && st'.sched.concurrency == st.sched.concurrency
            && !Fired(st'.sched, LaunchSignal(0)) && !Fired(st'.sched, ScopeSignal(0))
            && !Fired(st'.sched, ResumeSignal(0))
  {
    var thrown := Set(st, 1, st.launches[1].(phase := ThrowJoin(e)));
    var failed := Record(thrown, 1, e);
    QuietAbort(failed.sched, Dependents(failed, ScopeSignal(1)), e);
    var stopped := Abort(failed, ScopeSignal(1), e);
    QuietAbort(stopped.sched, Dependents(stopped, LaunchSignal(1)), e);
    NothingAbove(failed, ScopeSignal(1));
    NothingAbove(stopped, LaunchSignal(1));
    hide Dependents, DependsOn, Sched.Abort;
  }

  lemma NothingAbove(st: State, target: Signal)
    requires |st.scopes| > 0 && |st.launches| > 0 && st.scopes[0].owner.None? && st.launches[0].scope == 0
    requires target != ScopeSignal(0) && target != LaunchSignal(0) && target != ResumeSignal(0)
    ensures ScopeSignal(0) !in Dependents(st, target)
    ensures LaunchSignal(0) !in Dependents(st, target)
    ensures ResumeSignal(0) !in Dependents(st, target)
  {
    assert !DependsOn(st, ScopeSignal(0), target);
    assert !DependsOn(st, LaunchSignal(0), target);
  }

  /** A root with one permit: its first launch delegates, and the child has that permit. */
  lemma ChildRuns() returns (st: State)
    ensures Reachable(st) && !st.closed && st.ledger.totalAgents.None?
    ensures st.scopes == [Scope(None, false, None), Scope(Some(0), false, None)]
    ensures st.launches == [Started(0, 0).(permit := None, delegation := Working(1)), Started(1, 1)]
    ensures st.sched.waiters == [] && st.sched.aborted == map[] && st.sched.concurrency == 1 && st.sched.inUse == 1
    ensures |st.sched.tickets| == 2 && st.sched.tickets[1].Executing?
  {
    var s0 := Initial(1, None);
    assert Reachable(s0) by {
      assert Follows(s0, []) && After(s0, []) == s0;
    }
    hide Reachable;
    var s1 := LaunchRuns(s0, 0);
    ReachableNext(s1, WithChildren(0));
    var s2 := Next(s1, WithChildren(0));
    GivenBack(s1.sched, 0);
    st := LaunchRuns(s2, 1);
  }

  lemma GivenBack(q: Scheduler, t: nat)
    requires q.waiters == [] && t < |q.tickets| && q.tickets[t].Executing? && q.inUse > 0
    ensures Sched.Release(q, t) == Sched.GiveBack(q, t)
  {}

  lemma MustQueue(q: Scheduler, sig: Signal)
    requires q.waiters == [] && q.inUse == q.concurrency && sig !in q.aborted
    ensures Sched.Acquire(q, sig) == Sched.Enqueue(q, sig)
  {}

  /** The same root once the child has thrown. */
  lemma ChildHasThrown() returns (st: State)
    ensures Reachable(st) && Calm(st) && st.sched.concurrency == 1
    ensures st.scopes == [Scope(None, false, None), Scope(Some(0), false, Some(Cause(1)))]
    ensures |st.launches| == 2 && st.launches[1].phase == Settled(Fail(Cause(1))) && st.launches[1].scope == 1
    ensures st.launches[0] == Started(0, 0).(permit := None, delegation := Working(1))
    ensures !Fired(st.sched, LaunchSignal(0)) && !Fired(st.sched, ScopeSignal(0)) && !Fired(st.sched, ResumeSignal(0))
  {
    hide Reachable, Catch;
    var running := ChildRuns();
    ChildFails(running, Cause(1));
    ReachableNext(running, CallbackThrows(1, Cause(1)));
    st := Next(running, CallbackThrows(1, Cause(1)));
  }

  /** And when everything has been joined and only the drain is left. */
  lemma ScopeHasFailed() returns (st: State)
    ensures Reachable(st) && Calm(st) && st.sched.concurrency == 1 && Enabled(st, Drain(0))
    ensures |st.scopes| == 2 && !st.scopes[0].closed && st.scopes[1].failure == Some(Cause(1))
    ensures st.launches[0] == Started(0, 0).(permit := None, delegation := Draining(1, {}, Ok))
    ensures !Fired(st.sched, LaunchSignal(0)) && !Fired(st.sched, ScopeSignal(0)) && !Fired(st.sched, ResumeSignal(0))
  {
    hide Reachable;
    var s1 := ChildHasThrown();
    var s2 := Next(s1, Observe(1));
    ReachableNext(s1, Observe(1));
    st := Next(s2, WorkReturns(0));
    ReachableNext(s2, WorkReturns(0));
    assert Jobs(s2, 1) == {};
  }

  /**
   The first failure of a scope can be lost: its child failed with `Cause(1)`, and yet the
   delegation settles with the reason of a cancellation that came after the drain.
   */
  lemma CancellationHidesFailure() returns (st: State, steps: seq<Step>)
    ensures Reachable(st) && Enabled(st, Drain(0)) && Follows(st, steps)
    ensures var d := st.launches[0].delegation; DrainResult(st, d.child, d.work) == Fail(Cause(1))
    ensures var st' := After(st, steps);
            0 < |st'.launches|
            && st'.launches[0].delegation == Settling(st.launches[0].delegation.child, Fail(Cause(2)))
  {
    st := ScopeHasFailed();
    hide Reachable, Follows, After, Enabled;
    steps := CancelReplacesResult(st, 0, Cause(2));
  }

  /** It can also be lost to the return of its own callback, if another launch has the permit meanwhile. */
  lemma ReturnHidesFailure() returns (st: State, steps: seq<Step>)
    ensures Reachable(st) && Follows(st, steps) && 0 < |st.launches|
    ensures st.launches[0].delegation.Reentering? && st.launches[0].delegation.result == Fail(Cause(1))
    ensures var st' := After(st, steps);
            && 0 < |st'.launches|
            && st'.launches[0].delegation == Settling(st.launches[0].delegation.child, Fail(AgentReturned))
  {
    hide Reachable, Follows, After;
    var s1 := ScopeHasFailed();
    var s2 := Next(s1, Drain(0));
    ReachableNext(s1, Drain(0));
    var s3 := LaunchRuns(s2, 0);
    MustQueue(s3.sched, ResumeSignal(0));
    st := Next(s3, Reenter(0));
    ReachableNext(s3, Reenter(0));
    steps := ReturnReplacesResult(st, 0, Cause(2));
  }
}
