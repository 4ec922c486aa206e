/**
 What each step of the editor slot leaves, request by request, over every run; and that
 something can always happen to a request that is not settled.
 */
module EditorSlotOutcomes {
  import opened Wrappers
  import opened EditorSlot

  /** Only the requests in `ids` may differ. */
  ghost predicate Touches(q: Queue, p: Queue, ids: set<Id>) {
    && |p.requests| == |q.requests|
    && forall r :: 0 <= r < |q.requests| && r !in ids ==> p.requests[r] == q.requests[r]
  }

  /** A new request waits at the end; it may overtake only if somebody had not released then. */
  lemma EnterSays(states: seq<Queue>, steps: seq<Step>, i: nat)
    requires IsRun(states, steps) && i < |steps| && steps[i] == Enter
    ensures var q, p, n := states[i], states[i + 1], |states[i].requests|;
            && |p.requests| == n + 1 && p.requests[..n] == q.requests && p.holder == q.holder
            && p.requests[n].phase == Waiting && p.requests[n].owns && p.requests[n].dones == 0
            && !p.requests[n].hasComponent && !p.requests[n].released && !p.requests[n].reported
            && (p.requests[n].contended <==> exists r :: 0 <= r < n && !q.requests[r].released)
  {
    var q := states[i];
    RunKeepsInv(states, steps, i);
    SomeUnreleased(q.requests);
    hide Unreleased, IsRun;
  }

  lemma {:induction false} SomeUnreleased(requests: seq<Request>)
    ensures Unreleased(requests) > 0 <==> exists r :: 0 <= r < |requests| && !requests[r].released
  {
    if requests != [] {
      var n := |requests| - 1;
      SomeUnreleased(requests[..n]);
      assert forall r :: 0 <= r < n ==> requests[..n][r] == requests[r];
      if exists r :: 0 <= r < n && !requests[r].released {
        var r :| 0 <= r < n && !requests[r].released;
        assert !requests[..n][r].released;
      }
    }
  }

  /** `x` has settled, its turn over; what it has said stays as it was. */
  predicate SettledFrom(x: Request, y: Request) {
    && y.phase == Settled && y.released
    && y == x.(phase := Settled, released := true)
  }

  /** An admitted request calls the host, or fails there and lets the next one through. */
  lemma AdmitSays(states: seq<Queue>, steps: seq<Step>, i: nat, r: Id)
    requires IsRun(states, steps) && i < |steps| && steps[i].Admit? && steps[i].r == r
    ensures var q, p := states[i], states[i + 1];
            && r < |q.requests| && Touches(q, p, {r}) && p.holder == q.holder
            && if steps[i].mountable then p.requests[r] == q.requests[r].(phase := Calling)
               else SettledFrom(q.requests[r], p.requests[r])
  {
    StaysWith(states, steps, i);
    RunKeepsInv(states, steps, i);
    assert Fits(states[i], r);
    hide Fits, Unreleased, IsRun;
  }

  /** The holder before, if it is somebody else, has lost the slot and its voice. */
  predicate Ousts(q: Queue, p: Queue, r: Id) {
    q.holder.Some? && q.holder.value != r ==>
      var h := q.holder.value;
      && h < |q.requests| && h < |p.requests|
      && p.requests[h] == q.requests[h].(released := true, owns := false, retired := true)
  }

  function HolderSet(q: Queue): set<Id> {
    if q.holder.Some? then {q.holder.value} else {}
  }

  /** A mounted component has the slot, and the one before it is out. */
  lemma MountSays(states: seq<Queue>, steps: seq<Step>, i: nat, r: Id)
    requires IsRun(states, steps) && i < |steps| && steps[i] == Mount(r)
    ensures var q, p := states[i], states[i + 1];
            && r < |q.requests| && Touches(q, p, {r} + HolderSet(q)) && Ousts(q, p, r)
            && p.holder == Some(r) && q.holder != Some(r)
            && p.requests[r].phase == Mounted && p.requests[r].hasComponent
            && p.requests[r].owns && !p.requests[r].released && p.requests[r].dones == q.requests[r].dones
            && (forall s :: 0 <= s < |q.requests| && q.requests[s].hasComponent ==>
                  q.requests[s].mountedAt < p.requests[r].mountedAt)
  {
    StaysWith(states, steps, i);
    var q := states[i];
    RunKeepsInv(states, steps, i);
    assert forall s :: 0 <= s < |q.requests| && q.requests[s].hasComponent ==> q.requests[s].mountedAt < q.mounts by {
      MountedBefore(q);
    }
    assert Fits(q, r);
    hide Fits, Unreleased, IsRun;
  }

  lemma MountedBefore(q: Queue)
    requires Inv(q)
    ensures forall s :: 0 <= s < |q.requests| && q.requests[s].hasComponent ==> q.requests[s].mountedAt < q.mounts
  {
    forall s | 0 <= s < |q.requests| && q.requests[s].hasComponent
      ensures q.requests[s].mountedAt < q.mounts
    {
      assert Fits(q, s);
    }
  }

  /** A failed factory takes nothing from the holder until its request learns of it. */
  lemma FactoryFailsSays(states: seq<Queue>, steps: seq<Step>, i: nat, r: Id)
    requires IsRun(states, steps) && i < |steps| && steps[i] == FactoryFails(r)
    ensures var q, p := states[i], states[i + 1];
            && r < |q.requests| && Touches(q, p, {r}) && p.holder == q.holder
            && p.requests[r] == q.requests[r].(phase := Broken)
  {
    StaysWith(states, steps, i);
  }

  /** Then nobody holds the slot: the request settles, and the holder is off the screen. */
  lemma LearnFailureSays(states: seq<Queue>, steps: seq<Step>, i: nat, r: Id)
    requires IsRun(states, steps) && i < |steps| && steps[i] == LearnFailure(r)
    ensures var q, p := states[i], states[i + 1];
            && r < |q.requests| && Touches(q, p, {r} + HolderSet(q)) && Ousts(q, p, r)
            && p.holder == None && SettledFrom(q.requests[r], p.requests[r])
  {
    StaysWith(states, steps, i);
    RunKeepsInv(states, steps, i);
    assert Fits(states[i], r);
    hide Fits, Unreleased, IsRun;
  }

  /** Disposed and released; its microtask is due unless it was disposed before. */
  predicate DisposedFrom(x: Request, y: Request, entered: nat) {
    if x.disposed then y == x
    else y == x.(disposed := true, released := true, abandonDue := true, dueAt := entered)
  }

  /** A report reaches the host, or the component of a silenced request is disposed. */
  lemma ReportSays(states: seq<Queue>, steps: seq<Step>, i: nat, r: Id)
    requires IsRun(states, steps) && i < |steps| && steps[i] == Report(r)
    ensures var q, p := states[i], states[i + 1];
            && r < |q.requests| && Touches(q, p, {r})
            && (if q.requests[r].owns then
                  && p.requests[r] == q.requests[r].(reported := true, dones := q.requests[r].dones + 1)
                  && p.holder == q.holder
                else DisposedFrom(q.requests[r].(reported := true), p.requests[r], |q.requests|))
  {
    StaysWith(states, steps, i);
  }

  /** Disposing gives the slot back, and keeps the request's voice until its microtask. */
  lemma DisposeSays(states: seq<Queue>, steps: seq<Step>, i: nat, r: Id)
    requires IsRun(states, steps) && i < |steps| && steps[i] == DisposeComponent(r)
    ensures var q, p := states[i], states[i + 1];
            && r < |q.requests| && Touches(q, p, {r}) && p.holder != Some(r)
            && (q.holder != Some(r) ==> p.holder == q.holder)
            && DisposedFrom(q.requests[r], p.requests[r], |q.requests|)
  {
    StaysWith(states, steps, i);
    RunKeepsInv(states, steps, i);
    RunKeepsInv(states, steps, i + 1);
    assert Fits(states[i + 1], r);
    assert Fits(states[i], r);
    hide Fits, Unreleased, IsRun;
  }

  /** The microtask gives up a request that has reported nothing. */
  lemma AbandonSays(states: seq<Queue>, steps: seq<Step>, i: nat, r: Id)
    requires IsRun(states, steps) && i < |steps| && steps[i] == AbandonSilent(r)
    ensures var q, p := states[i], states[i + 1];
            && r < |q.requests| && Touches(q, p, {r}) && p.holder == q.holder
            && !p.requests[r].abandonDue
            && (p.requests[r].owns <==> q.requests[r].owns && q.requests[r].reported)
            && p.requests[r].phase == q.requests[r].phase && p.requests[r].dones == q.requests[r].dones
            && p.requests[r].released == q.requests[r].released
  {
    StaysWith(states, steps, i);
  }

  /** A settled request has released the slot, and nobody else is touched. */
  lemma SettleSays(states: seq<Queue>, steps: seq<Step>, i: nat, r: Id)
    requires IsRun(states, steps) && i < |steps| && (steps[i] == Settle(r) || steps[i] == HostRejects(r))
    ensures var q, p := states[i], states[i + 1];
            && r < |q.requests| && Touches(q, p, {r}) && SettledFrom(q.requests[r], p.requests[r])
            && p.holder == if q.holder == Some(r) then None else q.holder
  {
    StaysWith(states, steps, i);
    RunKeepsInv(states, steps, i);
    assert Fits(states[i], r);
    hide Fits, Unreleased, IsRun;
  }

  lemma StaysWith(states: seq<Queue>, steps: seq<Step>, i: nat)
    requires IsRun(states, steps) && i < |steps|
    ensures Held(states[i]) && Enabled(states[i], steps[i]) && states[i + 1] == After(states[i], steps[i])
  {}

  // ---- something can always happen ----

  /** What may happen to a request in hand, by how far it has come. */
  lemma WhatMayHappen(states: seq<Queue>, steps: seq<Step>, i: nat, r: Id)
    requires IsRun(states, steps) && i < |states| && r < |states[i].requests|
    ensures var q, x := states[i], states[i].requests[r];
            && (x.phase == Calling ==> Enabled(q, Mount(r)) && Enabled(q, FactoryFails(r)))
            && (x.phase == Broken ==> Enabled(q, LearnFailure(r)))
            && (x.phase == Mounted ==> x.hasComponent && Enabled(q, HostRejects(r)))
            && (x.hasComponent ==> Enabled(q, Report(r)) && Enabled(q, DisposeComponent(r)))
            && (x.disposed && !x.abandonDue && !x.reported ==> x.abandoned && !x.owns)
            && (x.phase == Mounted && (x.dones > 0 || !x.owns) <==> Enabled(q, Settle(r)))
  {
    RunKeepsInv(states, steps, i);
    assert Fits(states[i], r);
    hide IsRun, Unreleased;
  }

  /** The step is one of the first `r` requests and `r` itself, or the microtask of a disposal. */
  ghost predicate Moves(q: Queue, step: Step, r: Id) {
    && Enabled(q, step) && !step.Enter? && !step.HostRejects? && !step.DisposeComponent?
    && (step.r <= r || step.AbandonSilent?)
    && (step.Report? ==> q.requests[step.r].owns && q.requests[step.r].dones == 0)
  }

  /**
   While a request has not settled, a microtask is due or a request no later than it can take
   a step: admission, mounting, failing, the first report of its component, or settling.
   */
  lemma {:induction false} NobodyIsStuck(states: seq<Queue>, steps: seq<Step>, i: nat, r: Id) returns (step: Step)
    requires IsRun(states, steps) && i < |states| && r < |states[i].requests|
    requires states[i].requests[r].phase != Settled
    ensures Moves(states[i], step, r)
    decreases r
  {
    var q := states[i];
    WhatMayHappen(states, steps, i, r);
    match q.requests[r].phase {
      case Calling => step := Mount(r);
      case Broken => step := LearnFailure(r);
      case Mounted => step := if q.requests[r].dones > 0 || !q.requests[r].owns then Settle(r) else Report(r);
      case Waiting =>
        if s :| 0 <= s < |q.requests| && q.requests[s].abandonDue {
          step := AbandonSilent(s);
        } else if r == 0 || q.requests[r - 1].released {
          step := Admit(r, false, true);
        } else {
          RunKeepsInv(states, steps, i);
          assert Fits(q, r - 1);
          step := NobodyIsStuck(states, steps, i, r - 1);
        }
    }
  }

  /** Without being ready to take over, a request is admitted only after the one before it. */
  lemma WaitsForItsTurn(states: seq<Queue>, steps: seq<Step>, i: nat, r: Id)
    requires IsRun(states, steps) && i < |steps| && steps[i].Admit? && steps[i].r == r
    ensures r < |states[i].requests| && states[i].requests[r].phase == Waiting
    ensures r > 0 && !states[i].requests[r - 1].released ==> steps[i].ready && states[i].requests[r].contended
  {
    StaysWith(states, steps, i);
  }
}
