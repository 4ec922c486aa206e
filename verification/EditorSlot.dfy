/**
 The single editor slot (operator-interaction.ts): requests queue for it, and a newer
 component takes it from an older one. One queue of one session generation; the host runs
 each factory once, after the call and before it settles the call. A step is what runs
 between two awaits, or one callback.
 */
module EditorSlot {
  import opened Wrappers

  type Id = nat

  /** `Broken`: the factory failed and the request has not learnt of it yet. */
  datatype Phase = Waiting | Calling | Broken | Mounted | Settled

  /**
   `retired` and `abandoned` say why `owns` ended. `dones` counts the calls that reached
   the host's own `done`. `dueAt` is how many requests had entered when the disposal
   queued its microtask.
   */
  datatype Request = Request(
    phase: Phase, contended: bool, released: bool, owns: bool, retired: bool, abandoned: bool,
    hasComponent: bool, disposed: bool, reported: bool, abandonDue: bool, dueAt: nat, mountedAt: nat, dones: nat)

  function NewRequest(contended: bool): Request {
    Request(Waiting, contended, false, true, false, false, false, false, false, false, 0, 0, 0)
  }

  datatype Queue = Queue(requests: seq<Request>, pending: int, holder: Option<Id>, mounts: nat)

  const EMPTY := Queue([], 0, None, 0)

  function Set(q: Queue, r: Id, request: Request): Queue
    requires r < |q.requests|
  {
    q.(requests := q.requests[r := request])
  }

  /** Once; a request that still holds the slot leaves it empty. */
  function Release(q: Queue, r: Id): Queue
    requires r < |q.requests|
  {
    if q.requests[r].released then q
    else Set(q, r, q.requests[r].(released := true))
         .(pending := q.pending - 1, holder := if q.holder == Some(r) then None else q.holder)
  }

  function Supersede(q: Queue, r: Id): Queue
    requires r < |q.requests|
  {
    Set(q, r, q.requests[r].(owns := false, retired := true))
  }

  /** Whoever holds the slot learns that it no longer does. */
  function RetireIncumbent(q: Queue, r: Id, next: Option<Id>): Queue
    requires q.holder.Some? ==> q.holder.value < |q.requests|
  {
    if q.holder == Some(r) then q
    else if q.holder.None? then q.(holder := next)
    else Supersede(Release(q.(holder := next), q.holder.value), q.holder.value)
  }

  function Dispose(q: Queue, r: Id): Queue
    requires r < |q.requests|
  {
    if q.requests[r].disposed then q
    else Release(Set(q, r, q.requests[r].(disposed := true, abandonDue := true, dueAt := |q.requests|)), r)
  }

  datatype Step =
    | Enter
    | Admit(r: Id, ready: bool, mountable: bool)
    | Mount(r: Id)
    | FactoryFails(r: Id)
    | LearnFailure(r: Id)
    | Report(r: Id)
    | DisposeComponent(r: Id)
    | AbandonSilent(r: Id)
    | Settle(r: Id)
    | HostRejects(r: Id)

  predicate AheadReleased(q: Queue, r: Id)
    requires r < |q.requests|
  {
    r == 0 || q.requests[r - 1].released
  }

  /** Microtasks run in order: those queued before this request entered come before its admission. */
  predicate MicrotasksRun(q: Queue, r: Id) {
    forall s :: 0 <= s < |q.requests| && q.requests[s].abandonDue ==> r < q.requests[s].dueAt
  }

  predicate Enabled(q: Queue, step: Step) {
    match step
    case Enter => true
    case Admit(r, ready, _) =>
      && r < |q.requests| && q.requests[r].phase == Waiting && MicrotasksRun(q, r)
      && (AheadReleased(q, r) || (q.requests[r].contended && ready))
    case Mount(r) => r < |q.requests| && q.requests[r].phase == Calling
    case FactoryFails(r) => r < |q.requests| && q.requests[r].phase == Calling
    case LearnFailure(r) => r < |q.requests| && q.requests[r].phase == Broken
    case Report(r) => r < |q.requests| && q.requests[r].hasComponent
    case DisposeComponent(r) => r < |q.requests| && q.requests[r].hasComponent
    case AbandonSilent(r) => r < |q.requests| && q.requests[r].abandonDue
    case Settle(r) =>
      r < |q.requests| && q.requests[r].phase == Mounted && (q.requests[r].dones > 0 || !q.requests[r].owns)
    case HostRejects(r) => r < |q.requests| && q.requests[r].phase == Mounted
  }

  /** `holder` is always the id of a request. */
  predicate Held(q: Queue) {
    q.holder.Some? ==> q.holder.value < |q.requests|
  }

  function Entered(q: Queue): Queue {
    q.(requests := q.requests + [NewRequest(q.pending > 0)],
       pending := q.pending + 1)
  }

  /** A component in hand takes the slot, and only then is the incumbent retired. */
  function AfterMount(q: Queue, r: Id): Queue
    requires Held(q) && r < |q.requests|
  {
    var mounted := Set(q, r, q.requests[r].(phase := Mounted, hasComponent := true, mountedAt := q.mounts))
                   .(mounts := q.mounts + 1);
    if q.requests[r].owns then RetireIncumbent(mounted, r, Some(r)) else mounted
  }

  /** The host's `done` is reached only by a request that still speaks for the host. */
  function AfterReport(q: Queue, r: Id): Queue
    requires r < |q.requests|
  {
    var reported := q.requests[r].(reported := true);
    if reported.owns then Set(q, r, reported.(dones := reported.dones + 1)) else Dispose(Set(q, r, reported), r)
  }

  function AfterAbandon(q: Queue, r: Id): Queue
    requires r < |q.requests|
  {
    var request := q.requests[r].(abandonDue := false);
    Set(q, r, if request.reported then request else request.(owns := false, abandoned := true))
  }

  function Settling(q: Queue, r: Id): Queue
    requires r < |q.requests|
  {
    Release(Set(q, r, q.requests[r].(phase := Settled)), r)
  }

  function After(q: Queue, step: Step): Queue
    requires Held(q) && Enabled(q, step)
  {
    match step
    case Enter => Entered(q)
    case Admit(r, _, mountable) =>
      if mountable then Set(q, r, q.requests[r].(phase := Calling)) else Settling(q, r)
    case Mount(r) => AfterMount(q, r)
    case FactoryFails(r) => Set(q, r, q.requests[r].(phase := Broken))
    case LearnFailure(r) => Settling(RetireIncumbent(q, r, None), r)
    case Report(r) => AfterReport(q, r)
    case DisposeComponent(r) => Dispose(q, r)
    case AbandonSilent(r) => AfterAbandon(q, r)
    case Settle(r) => Settling(q, r)
    case HostRejects(r) => Settling(q, r)
  }

  // ---- what every step keeps ----

  function Unreleased(requests: seq<Request>): nat {
    if requests == [] then 0
    else Unreleased(requests[..|requests| - 1]) + if requests[|requests| - 1].released then 0 else 1
  }

  lemma {:induction false} UnreleasedUpdate(requests: seq<Request>, r: Id, request: Request)
    requires r < |requests|
    ensures Unreleased(requests[r := request])
         == Unreleased(requests) - (if requests[r].released then 0 else 1) + (if request.released then 0 else 1)
  {
    var n := |requests| - 1;
    var updated := requests[r := request];
    if r == n {
      assert updated[..n] == requests[..n];
    } else {
      UnreleasedUpdate(requests[..n], r, request);
      assert updated[..n] == requests[..n][r := request];
    }
  }

  /** A request and the slot agree. */
  ghost predicate Fits(q: Queue, r: Id)
    requires r < |q.requests|
  {
    var x := q.requests[r];
    && (q.holder == Some(r) <==> x.hasComponent && !x.released)
    && (q.holder == Some(r) ==> x.mountedAt + 1 == q.mounts)
    && (x.owns <==> !x.retired && !x.abandoned)
    && (x.phase == Settled ==> x.released)
    && (x.phase == Mounted ==> x.hasComponent)
    && (x.phase == Waiting || x.phase == Calling || x.phase == Broken ==> !x.hasComponent && !x.released && x.owns)
    && ((x.retired || x.abandonDue || x.disposed || x.reported) ==> x.hasComponent)
    && ((x.retired || x.disposed) ==> x.released)
    && (x.abandonDue || x.abandoned ==> x.disposed)
    && (x.disposed ==> x.abandonDue || x.abandoned || x.reported)
    && (x.hasComponent ==> x.mountedAt < q.mounts)
  }

  ghost predicate Counted(q: Queue) {
    Held(q) && q.pending == Unreleased(q.requests)
  }

  /** A request that entered after a disposal is not admitted before the disposal's microtask. */
  ghost predicate DueFirst(q: Queue) {
    forall s, x :: 0 <= s < |q.requests| && 0 <= x < |q.requests| && q.requests[s].abandonDue ==>
      q.requests[s].dueAt <= x ==> q.requests[x].phase == Waiting
  }

  ghost predicate Inv(q: Queue) {
    && Counted(q) && DueFirst(q)
    && forall r :: 0 <= r < |q.requests| ==> Fits(q, r)
  }

  lemma ReleaseKeeps(q: Queue, r: Id)
    requires Counted(q) && r < |q.requests|
    ensures Counted(Release(q, r))
  {
    UnreleasedUpdate(q.requests, r, q.requests[r].(released := true));
  }

  lemma SetKeeps(q: Queue, r: Id, request: Request)
    requires Counted(q) && r < |q.requests|
    requires request.released == q.requests[r].released
    ensures Counted(Set(q, r, request))
  {
    UnreleasedUpdate(q.requests, r, request);
  }

  lemma RetireKeeps(q: Queue, r: Id, next: Option<Id>)
    requires Counted(q) && (next.Some? ==> next.value < |q.requests|)
    ensures Counted(RetireIncumbent(q, r, next))
    ensures |RetireIncumbent(q, r, next).requests| == |q.requests|
  {
    if q.holder != Some(r) && q.holder.Some? {
      var h, p := q.holder.value, q.(holder := next);
      ReleaseKeeps(p, h);
      SetKeeps(Release(p, h), h, Release(p, h).requests[h].(owns := false, retired := true));
    }
  }

  lemma StepKeepsCount(q: Queue, step: Step)
    requires Inv(q) && Enabled(q, step)
    ensures Counted(After(q, step))
  {
    hide Fits, Unreleased, Release, RetireIncumbent, Settling, Dispose, Entered, Set;
    match step
    case Enter => EnteredCounts(q);
    case Admit(r, _, mountable) =>
      SetKeeps(q, r, q.requests[r].(phase := Calling));
      SettlingKeeps(q, r);
    case Mount(r) => MountCounts(q, r);
    case FactoryFails(r) => SetKeeps(q, r, q.requests[r].(phase := Broken));
    case LearnFailure(r) =>
      RetireKeeps(q, r, None);
      SettlingKeeps(RetireIncumbent(q, r, None), r);
    case Report(r) =>
      var request := q.requests[r].(reported := true);
      SetKeeps(q, r, request);
      SetKeeps(q, r, request.(dones := request.dones + 1));
      SetsOne(q, r, request);
      DisposeKeeps(Set(q, r, request), r);
    case DisposeComponent(r) => DisposeKeeps(q, r);
    case AbandonSilent(r) =>
      var request := q.requests[r].(abandonDue := false);
      SetKeeps(q, r, request);
      SetKeeps(q, r, request.(owns := false, abandoned := true));
    case Settle(r) => SettlingKeeps(q, r);
    case HostRejects(r) => SettlingKeeps(q, r);
  }

  lemma SetsOne(q: Queue, r: Id, request: Request)
    requires r < |q.requests|
    ensures |Set(q, r, request).requests| == |q.requests|
  {}

  lemma MountCounts(q: Queue, r: Id)
    requires Counted(q) && r < |q.requests|
    ensures Counted(AfterMount(q, r))
  {
    hide Unreleased, RetireIncumbent;
    var request := q.requests[r].(phase := Mounted, hasComponent := true, mountedAt := q.mounts);
    SetKeeps(q, r, request);
    RetireKeeps(Set(q, r, request).(mounts := q.mounts + 1), r, Some(r));
  }

  lemma EnteredCounts(q: Queue)
    requires Counted(q)
    ensures Counted(Entered(q))
  {
    assert Entered(q).requests[..|q.requests|] == q.requests;
  }

  lemma SettlingKeeps(q: Queue, r: Id)
    requires Counted(q) && r < |q.requests|
    ensures Counted(Settling(q, r))
  {
    SetKeeps(q, r, q.requests[r].(phase := Settled));
    ReleaseKeeps(Set(q, r, q.requests[r].(phase := Settled)), r);
  }

  lemma DisposeKeeps(q: Queue, r: Id)
    requires Counted(q) && r < |q.requests|
    ensures Counted(Dispose(q, r))
  {
    var request := q.requests[r].(disposed := true, abandonDue := true, dueAt := |q.requests|);
    SetKeeps(q, r, request);
    ReleaseKeeps(Set(q, r, request), r);
  }

  lemma StepKeepsFits(q: Queue, step: Step, x: Id)
    requires Inv(q) && Enabled(q, step) && x < |After(q, step).requests|
    ensures Fits(After(q, step), x)
  {
    if x < |q.requests| {
      assert Fits(q, x);
    }
    if q.holder.Some? {
      assert Fits(q, q.holder.value);
    }
    if !step.Enter? {
      assert Fits(q, step.r);
    }
    hide Fits, Inv, Unreleased, Release, RetireIncumbent, Settling, Dispose, AfterMount, AfterReport, AfterAbandon;
    match step
    case Enter => EnterKeepsFits(q, x);
    case Mount(r) => MountKeepsFits(q, r, x);
    case LearnFailure(r) => LearnKeepsFits(q, r, x);
    case Report(r) => ReportKeepsFits(q, r, x);
    case Admit(r, ready, mountable) =>
      if mountable {
        CallKeepsFits(q, r, x, Calling);
      } else {
        SettlingKeepsFits(q, r, x);
      }
    case FactoryFails(r) => CallKeepsFits(q, r, x, Broken);
    case DisposeComponent(r) => DisposeKeepsFits(q, r, x);
    case AbandonSilent(r) => AbandonKeepsFits(q, r, x);
    case Settle(r) => SettlingKeepsFits(q, r, x);
    case HostRejects(r) => SettlingKeepsFits(q, r, x);
  }

  lemma EnterKeepsFits(q: Queue, x: Id)
    requires Held(q) && x <= |q.requests| && (x < |q.requests| ==> Fits(q, x))
    ensures x < |Entered(q).requests| && Fits(Entered(q), x)
  {}

  lemma MountKeepsFits(q: Queue, r: Id, x: Id)
    requires Held(q) && Enabled(q, Mount(r)) && x < |q.requests| && Fits(q, x) && Fits(q, r)
    requires q.holder.Some? ==> Fits(q, q.holder.value)
    ensures |AfterMount(q, r).requests| == |q.requests| && Fits(AfterMount(q, r), x)
  {}

  lemma LearnKeepsFits(q: Queue, r: Id, x: Id)
    requires Held(q) && Enabled(q, LearnFailure(r)) && x < |q.requests| && Fits(q, x) && Fits(q, r)
    requires q.holder.Some? ==> Fits(q, q.holder.value)
    ensures |RetireIncumbent(q, r, None).requests| == |q.requests|
    ensures |Settling(RetireIncumbent(q, r, None), r).requests| == |q.requests|
    ensures Fits(Settling(RetireIncumbent(q, r, None), r), x)
  {
    RetiredFits(q, r, x);
    RetiredFits(q, r, r);
    hide RetireIncumbent;
    SettlingKeepsFits(RetireIncumbent(q, r, None), r, x);
  }

  lemma RetiredFits(q: Queue, r: Id, x: Id)
    requires Held(q) && x < |q.requests| && Fits(q, x) && r < |q.requests| && !q.requests[r].hasComponent && Fits(q, r)
    requires q.holder.Some? ==> Fits(q, q.holder.value)
    ensures |RetireIncumbent(q, r, None).requests| == |q.requests| && Fits(RetireIncumbent(q, r, None), x)
  {}

  lemma ReportKeepsFits(q: Queue, r: Id, x: Id)
    requires Held(q) && Enabled(q, Report(r)) && x < |q.requests| && Fits(q, x) && Fits(q, r)
    ensures |AfterReport(q, r).requests| == |q.requests| && Fits(AfterReport(q, r), x)
  {}

  lemma CallKeepsFits(q: Queue, r: Id, x: Id, phase: Phase)
    requires r < |q.requests| && x < |q.requests| && Fits(q, x)
    requires (q.requests[r].phase == Waiting && phase == Calling) || (q.requests[r].phase == Calling && phase == Broken)
    ensures Fits(Set(q, r, q.requests[r].(phase := phase)), x)
  {}

  lemma SettlingKeepsFits(q: Queue, r: Id, x: Id)
    requires r < |q.requests| && x < |q.requests| && Fits(q, x) && Fits(q, r)
    ensures |Settling(q, r).requests| == |q.requests| && Fits(Settling(q, r), x)
  {}

  lemma DisposeKeepsFits(q: Queue, r: Id, x: Id)
    requires r < |q.requests| && x < |q.requests| && Fits(q, x) && q.requests[r].hasComponent
    ensures |Dispose(q, r).requests| == |q.requests| && Fits(Dispose(q, r), x)
  {}

  lemma AbandonKeepsFits(q: Queue, r: Id, x: Id)
    requires Enabled(q, AbandonSilent(r)) && x < |q.requests| && Fits(q, x)
    ensures Fits(AfterAbandon(q, r), x)
  {}

  /** What a step does to the microtasks due and to who still waits. */
  ghost predicate DueMoves(q: Queue, p: Queue) {
    && |q.requests| == |p.requests|
    && forall r :: 0 <= r < |q.requests| ==>
         && (p.requests[r].phase == Waiting <==> q.requests[r].phase == Waiting)
         && (p.requests[r].abandonDue ==>
               || (q.requests[r].abandonDue && p.requests[r].dueAt == q.requests[r].dueAt)
               || p.requests[r].dueAt == |q.requests|)
  }

  lemma ReleaseMovesDue(q: Queue, r: Id)
    requires r < |q.requests|
    ensures DueMoves(q, Release(q, r)) && DueMoves(q, Dispose(q, r))
    ensures q.requests[r].phase != Waiting ==> DueMoves(q, Settling(q, r))
  {
    OwnReleaseMovesDue(q, r);
    var disposed := Set(q, r, q.requests[r].(disposed := true, abandonDue := true, dueAt := |q.requests|));
    OwnReleaseMovesDue(disposed, r);
    var settled := Set(q, r, q.requests[r].(phase := Settled));
    OwnReleaseMovesDue(settled, r);
    hide Release;
  }

  lemma OwnReleaseMovesDue(q: Queue, r: Id)
    requires r < |q.requests|
    ensures DueMoves(q, Release(q, r))
  {}

  lemma RetireMovesDue(q: Queue, r: Id, next: Option<Id>)
    requires Held(q)
    ensures DueMoves(q, RetireIncumbent(q, r, next))
  {}

  lemma DueMovesOn(q: Queue, p: Queue, o: Queue)
    requires DueMoves(q, p) && DueMoves(p, o)
    ensures DueMoves(q, o)
  {}

  lemma SetMovesDue(q: Queue, r: Id, request: Request)
    requires r < |q.requests| && (request.phase == Waiting <==> q.requests[r].phase == Waiting)
    requires request.abandonDue ==> q.requests[r].abandonDue && request.dueAt == q.requests[r].dueAt
    ensures DueMoves(q, Set(q, r, request))
  {}

  lemma SameRequestsMoveDue(q: Queue, p: Queue, o: Queue)
    requires DueMoves(q, p) && o.requests == p.requests
    ensures DueMoves(q, o)
  {}

  lemma StepMovesDue(q: Queue, step: Step)
    requires Held(q) && Enabled(q, step) && !step.Enter? && !step.Admit?
    ensures DueMoves(q, After(q, step))
  {
    hide Release, RetireIncumbent, Settling, Dispose, DueMoves;
    match step {
      case Mount(r) =>
        var request := q.requests[r].(phase := Mounted, hasComponent := true, mountedAt := q.mounts);
        var mounted := Set(q, r, request).(mounts := q.mounts + 1);
        SetMovesDue(q, r, request);
        SameRequestsMoveDue(q, Set(q, r, request), mounted);
        RetireMovesDue(mounted, r, Some(r));
        DueMovesOn(q, mounted, RetireIncumbent(mounted, r, Some(r)));
      case FactoryFails(r) => SetMovesDue(q, r, q.requests[r].(phase := Broken));
      case LearnFailure(r) =>
        var retired := RetireIncumbent(q, r, None);
        RetireMovesDue(q, r, None);
        WaitsStill(q, retired, r);
        ReleaseMovesDue(retired, r);
        DueMovesOn(q, retired, Settling(retired, r));
      case Report(r) =>
        var request := q.requests[r].(reported := true);
        SetMovesDue(q, r, request);
        SetMovesDue(q, r, request.(dones := request.dones + 1));
        ReleaseMovesDue(Set(q, r, request), r);
        DueMovesOn(q, Set(q, r, request), Dispose(Set(q, r, request), r));
      case DisposeComponent(r) => ReleaseMovesDue(q, r);
      case AbandonSilent(r) =>
        var request := q.requests[r].(abandonDue := false);
        SetMovesDue(q, r, request);
        SetMovesDue(q, r, request.(owns := false, abandoned := true));
      case Settle(r) => ReleaseMovesDue(q, r);
      case HostRejects(r) => ReleaseMovesDue(q, r);
    }
  }

  lemma WaitsStill(q: Queue, p: Queue, r: Id)
    requires DueMoves(q, p) && r < |q.requests|
    ensures r < |p.requests| && (p.requests[r].phase == Waiting <==> q.requests[r].phase == Waiting)
  {}

  lemma StepKeepsDue(q: Queue, step: Step)
    requires Held(q) && DueFirst(q) && Enabled(q, step)
    ensures DueFirst(After(q, step))
  {
    if step.Admit? {
      AdmitKeepsDue(q, step.r, step.ready, step.mountable);
    } else if !step.Enter? {
      StepMovesDue(q, step);
      hide After, Enabled;
    }
  }

  lemma AdmitKeepsDue(q: Queue, r: Id, ready: bool, mountable: bool)
    requires Held(q) && DueFirst(q) && Enabled(q, Admit(r, ready, mountable))
    ensures DueFirst(After(q, Admit(r, ready, mountable)))
  {
    var p := After(q, Admit(r, ready, mountable));
    assert |p.requests| == |q.requests|;
    assert forall s :: 0 <= s < |q.requests| ==>
             && p.requests[s].abandonDue == q.requests[s].abandonDue && p.requests[s].dueAt == q.requests[s].dueAt
             && (s != r ==> p.requests[s].phase == q.requests[s].phase);
    hide After;
  }

  lemma StepKeepsInv(q: Queue, step: Step)
    requires Inv(q) && Enabled(q, step)
    ensures Inv(After(q, step))
  {
    StepKeepsCount(q, step);
    StepKeepsDue(q, step);
    forall x | 0 <= x < |After(q, step).requests|
      ensures Fits(After(q, step), x)
    {
      StepKeepsFits(q, step, x);
    }
  }

  // ---- over every run ----

  ghost predicate IsRun(states: seq<Queue>, steps: seq<Step>) {
    && |states| == |steps| + 1 && states[0] == EMPTY
    && forall i :: 0 <= i < |steps| ==>
         Held(states[i]) && Enabled(states[i], steps[i]) && states[i + 1] == After(states[i], steps[i])
  }

  lemma {:induction false} RunKeepsInv(states: seq<Queue>, steps: seq<Step>, i: nat)
    requires IsRun(states, steps) && i < |states|
    ensures Inv(states[i])
  {
    if i > 0 {
      RunKeepsInv(states, steps, i - 1);
      StepKeepsInv(states[i - 1], steps[i - 1]);
    }
  }

  /**
   `pending` counts the requests not released. Whoever holds the slot has a component and has
   not released; nobody else with a component is unreleased, and none mounted later.
   */
  lemma HolderIsNewest(states: seq<Queue>, steps: seq<Step>, i: nat)
    requires IsRun(states, steps) && i < |states|
    ensures var q := states[i];
            && q.pending == Unreleased(q.requests)
            && (forall r :: 0 <= r < |q.requests| ==>
                  (q.holder == Some(r) <==> q.requests[r].hasComponent && !q.requests[r].released))
            && (q.holder.Some? ==>
                  q.holder.value < |q.requests|
                  && forall r :: 0 <= r < |q.requests| && q.requests[r].hasComponent ==>
                       q.requests[r].mountedAt <= q.requests[q.holder.value].mountedAt)
  {
    RunKeepsInv(states, steps, i);
    var q := states[i];
    hide IsRun, Unreleased;
    forall r | 0 <= r < |q.requests|
      ensures q.holder == Some(r) <==> q.requests[r].hasComponent && !q.requests[r].released
      ensures q.requests[r].hasComponent ==> q.requests[r].mountedAt < q.mounts
    {
      assert Fits(q, r);
    }
    if q.holder.Some? {
      assert Fits(q, q.holder.value);
    }
  }

  /** What a request has lost it does not get back, and an answer given stays given. */
  ghost predicate Progresses(a: Request, b: Request) {
    && (a.released ==> b.released) && (!a.owns ==> !b.owns && b.dones == a.dones)
    && (a.retired ==> b.retired) && a.dones <= b.dones && a.contended == b.contended
  }

  ghost predicate QueueProgresses(q: Queue, p: Queue) {
    |q.requests| <= |p.requests| && forall r :: 0 <= r < |q.requests| ==> Progresses(q.requests[r], p.requests[r])
  }

  lemma SetProgresses(q: Queue, r: Id, request: Request)
    requires r < |q.requests| && Progresses(q.requests[r], request)
    ensures QueueProgresses(q, Set(q, r, request))
  {}

  lemma ProgressesOn(q: Queue, p: Queue, o: Queue)
    requires QueueProgresses(q, p) && QueueProgresses(p, o)
    ensures QueueProgresses(q, o)
  {
    forall r | 0 <= r < |q.requests|
      ensures Progresses(q.requests[r], o.requests[r])
    {
      assert Progresses(q.requests[r], p.requests[r]) && Progresses(p.requests[r], o.requests[r]);
    }
  }

  lemma ReleaseProgresses(q: Queue, r: Id)
    requires r < |q.requests|
    ensures QueueProgresses(q, Release(q, r)) && QueueProgresses(q, Settling(q, r)) && QueueProgresses(q, Dispose(q, r))
  {}

  lemma RetireProgresses(q: Queue, r: Id, next: Option<Id>)
    requires Held(q)
    ensures QueueProgresses(q, RetireIncumbent(q, r, next))
  {}

  lemma StepProgresses(q: Queue, step: Step)
    requires Held(q) && Enabled(q, step)
    ensures QueueProgresses(q, After(q, step))
  {
    hide Release, RetireIncumbent, Settling, Dispose, QueueProgresses;
    match step
    case Enter => EnterProgresses(q);
    case Admit(r, _, mountable) =>
      SetProgresses(q, r, q.requests[r].(phase := Calling));
      ReleaseProgresses(q, r);
    case Mount(r) =>
      var request := q.requests[r].(phase := Mounted, hasComponent := true, mountedAt := q.mounts);
      var mounted := Set(q, r, request).(mounts := q.mounts + 1);
      SetProgresses(q, r, request);
      CountsDoNotMatter(q, Set(q, r, request), mounted);
      RetireProgresses(mounted, r, Some(r));
      ProgressesOn(q, mounted, RetireIncumbent(mounted, r, Some(r)));
    case FactoryFails(r) => SetProgresses(q, r, q.requests[r].(phase := Broken));
    case LearnFailure(r) =>
      var retired := RetireIncumbent(q, r, None);
      RetireProgresses(q, r, None);
      SameLength(q, r, None);
      ReleaseProgresses(retired, r);
      ProgressesOn(q, retired, Settling(retired, r));
    case Report(r) =>
      var request := q.requests[r].(reported := true);
      SetProgresses(q, r, request);
      if request.owns {
        SetProgresses(q, r, request.(dones := request.dones + 1));
      }
      ReleaseProgresses(Set(q, r, request), r);
      ProgressesOn(q, Set(q, r, request), Dispose(Set(q, r, request), r));
    case DisposeComponent(r) => ReleaseProgresses(q, r);
    case AbandonSilent(r) =>
      var request := q.requests[r].(abandonDue := false);
      SetProgresses(q, r, request);
      SetProgresses(q, r, request.(owns := false, abandoned := true));
    case Settle(r) => ReleaseProgresses(q, r);
    case HostRejects(r) => ReleaseProgresses(q, r);
  }

  lemma EnterProgresses(q: Queue)
    ensures QueueProgresses(q, Entered(q))
  {}

  lemma CountsDoNotMatter(q: Queue, p: Queue, o: Queue)
    requires QueueProgresses(q, p) && o.requests == p.requests
    ensures QueueProgresses(q, o)
  {}

  lemma SameLength(q: Queue, r: Id, next: Option<Id>)
    requires Held(q)
    ensures |RetireIncumbent(q, r, next).requests| == |q.requests|
  {}

  lemma {:induction false} RunProgresses(states: seq<Queue>, steps: seq<Step>, i: nat, j: nat, r: Id)
    requires IsRun(states, steps) && i <= j < |states| && r < |states[i].requests|
    ensures r < |states[j].requests| && Progresses(states[i].requests[r], states[j].requests[r])
    decreases j
  {
    if i < j {
      RunProgresses(states, steps, i, j - 1, r);
      StepProgresses(states[j - 1], steps[j - 1]);
      assert Progresses(states[j - 1].requests[r], states[j].requests[r]);
    }
  }

  /** Each request releases exactly once: every step's fall of `pending` is its new releases. */
  lemma ReleasedOnce(states: seq<Queue>, steps: seq<Step>, i: nat)
    requires IsRun(states, steps) && i < |steps|
    ensures var q, p := states[i], states[i + 1];
            && q.pending - p.pending == Unreleased(q.requests) - Unreleased(p.requests)
            && (forall r :: 0 <= r < |q.requests| && q.requests[r].released ==>
                  r < |p.requests| && p.requests[r].released)
            && (forall r :: 0 <= r < |p.requests| && p.requests[r].phase == Settled ==> p.requests[r].released)
  {
    var q, p := states[i], states[i + 1];
    RunKeepsInv(states, steps, i);
    RunKeepsInv(states, steps, i + 1);
    StepProgresses(q, steps[i]);
    hide IsRun, Unreleased;
    forall r | 0 <= r < |q.requests| && q.requests[r].released
      ensures p.requests[r].released
    {
      assert Progresses(q.requests[r], p.requests[r]);
    }
    forall r | 0 <= r < |p.requests| && p.requests[r].phase == Settled
      ensures p.requests[r].released
    {
      assert Fits(p, r);
    }
  }

  /** A newer component that takes the slot silences the one it replaces, for good. */
  lemma ReplacedNeverSpeaks(states: seq<Queue>, steps: seq<Step>, i: nat, j: nat, h: Id)
    requires IsRun(states, steps) && i < |steps| && i < j < |states|
    requires states[i].holder == Some(h) && steps[i].Mount? && steps[i].r != h
    ensures h < |states[i].requests| && h < |states[j].requests|
    ensures states[i + 1].holder == Some(steps[i].r)
    ensures !states[j].requests[h].owns && states[j].requests[h].dones == states[i].requests[h].dones
  {
    RunKeepsInv(states, steps, i);
    assert Fits(states[i], steps[i].r) && Fits(states[i], h);
    RunProgresses(states, steps, i + 1, j, h);
  }

  // ---- who still speaks for the host ----

  /** A newer component takes the slot from `r`, or a failed factory takes `r` off the screen. */
  predicate Retires(q: Queue, step: Step, r: Id) {
    q.holder == Some(r) && (step.Mount? || step.LearnFailure?) && step.r != r
  }

  /** Before step `i`, something retired `r` while it held the slot. */
  ghost predicate WasRetired(states: seq<Queue>, steps: seq<Step>, i: nat, r: Id)
    requires i <= |steps| <= |states|
  {
    exists k :: 0 <= k < i && Retires(states[k], steps[k], r)
  }

  ghost predicate HasReported(steps: seq<Step>, i: nat, r: Id)
    requires i <= |steps|
  {
    exists k :: 0 <= k < i && steps[k] == Report(r)
  }

  /** Before step `i`, the microtask after a disposal of `r` ran and no report had come. */
  ghost predicate WasGivenUp(steps: seq<Step>, i: nat, r: Id)
    requires i <= |steps|
  {
    exists k :: 0 <= k < i && steps[k] == AbandonSilent(r) && !HasReported(steps, k, r)
  }

  predicate SameFlags(x: Request, y: Request) {
    y.retired == x.retired && y.abandoned == x.abandoned && y.reported == x.reported
  }

  lemma ReleaseFlags(q: Queue, x: Id, r: Id)
    requires x < |q.requests| && r < |q.requests|
    ensures |Release(q, x).requests| == |q.requests| && SameFlags(q.requests[r], Release(q, x).requests[r])
    ensures |Dispose(q, x).requests| == |q.requests| && SameFlags(q.requests[r], Dispose(q, x).requests[r])
    ensures |Settling(q, x).requests| == |q.requests| && SameFlags(q.requests[r], Settling(q, x).requests[r])
  {}

  lemma RetireFlags(q: Queue, x: Id, next: Option<Id>, r: Id)
    requires Held(q) && r < |q.requests|
    ensures |RetireIncumbent(q, x, next).requests| == |q.requests|
    ensures var a, b := q.requests[r], RetireIncumbent(q, x, next).requests[r];
            && (b.retired <==> a.retired || (q.holder == Some(r) && x != r))
            && b.abandoned == a.abandoned && b.reported == a.reported
  {}

  /** What one step does to the flags that decide about a report. */
  lemma StepFlags(q: Queue, step: Step, r: Id)
    requires Held(q) && Enabled(q, step) && r < |q.requests|
    requires step.Mount? ==> q.requests[step.r].owns
    ensures r < |After(q, step).requests|
    ensures var a, b := q.requests[r], After(q, step).requests[r];
            && (b.retired <==> a.retired || Retires(q, step, r))
            && (b.abandoned <==> a.abandoned || (step == AbandonSilent(r) && !a.reported))
            && (b.reported <==> a.reported || step == Report(r))
  {
    hide Release, RetireIncumbent, Settling, Dispose, AfterMount, AfterReport;
    match step
    case Enter =>
    case Admit(x, _, mountable) => ReleaseFlags(q, x, r);
    case Mount(x) => MountFlags(q, x, r);
    case FactoryFails(x) =>
    case LearnFailure(x) =>
      RetireFlags(q, x, None, r);
      ReleaseFlags(RetireIncumbent(q, x, None), x, r);
    case Report(x) => ReportFlags(q, x, r);
    case DisposeComponent(x) => ReleaseFlags(q, x, r);
    case AbandonSilent(x) =>
    case Settle(x) => ReleaseFlags(q, x, r);
    case HostRejects(x) => ReleaseFlags(q, x, r);
  }

  lemma MountFlags(q: Queue, x: Id, r: Id)
    requires Held(q) && x < |q.requests| && r < |q.requests| && q.requests[x].owns
    ensures |AfterMount(q, x).requests| == |q.requests|
    ensures var a, b := q.requests[r], AfterMount(q, x).requests[r];
            && (b.retired <==> a.retired || Retires(q, Mount(x), r))
            && b.abandoned == a.abandoned && b.reported == a.reported
  {
    hide RetireIncumbent;
    var mounted := Set(q, x, q.requests[x].(phase := Mounted, hasComponent := true, mountedAt := q.mounts))
                   .(mounts := q.mounts + 1);
    RetireFlags(mounted, x, Some(x), r);
  }

  lemma ReportFlags(q: Queue, x: Id, r: Id)
    requires x < |q.requests| && r < |q.requests|
    ensures |AfterReport(q, x).requests| == |q.requests|
    ensures var a, b := q.requests[r], AfterReport(q, x).requests[r];
            && b.retired == a.retired && b.abandoned == a.abandoned && (b.reported <==> a.reported || x == r)
  {
    hide Dispose;
    ReleaseFlags(Set(q, x, q.requests[x].(reported := true)), x, r);
  }

  lemma EntersClean(q: Queue, step: Step, r: Id)
    requires Held(q) && Enabled(q, step) && |q.requests| <= r < |After(q, step).requests|
    ensures var x := After(q, step).requests[r]; !x.retired && !x.abandoned && !x.reported
  {
    if !step.Enter? {
      OnlyEnterAdds(q, step);
    }
  }

  /** Nothing is said or done by a request before it enters. */
  lemma NobodyYet(q: Queue, step: Step, r: Id)
    requires Held(q) && Enabled(q, step) && r >= |q.requests|
    ensures !Retires(q, step, r) && step != AbandonSilent(r) && step != Report(r)
  {}

  lemma MountOwns(q: Queue, step: Step)
    requires Inv(q) && Enabled(q, step)
    ensures step.Mount? ==> q.requests[step.r].owns
  {
    if step.Mount? {
      assert Fits(q, step.r);
    }
  }

  lemma HistoryNext(states: seq<Queue>, steps: seq<Step>, i: nat, r: Id)
    requires i < |steps| <= |states|
    ensures WasRetired(states, steps, i + 1, r) <==> WasRetired(states, steps, i, r) || Retires(states[i], steps[i], r)
    ensures HasReported(steps, i + 1, r) <==> HasReported(steps, i, r) || steps[i] == Report(r)
    ensures WasGivenUp(steps, i + 1, r) <==>
            WasGivenUp(steps, i, r) || (steps[i] == AbandonSilent(r) && !HasReported(steps, i, r))
  {
    hide Retires;
    RetiredNext(states, steps, i, r);
    ReportedNext(steps, i, r);
    hide WasRetired, HasReported;
  }

  lemma RetiredNext(states: seq<Queue>, steps: seq<Step>, i: nat, r: Id)
    requires i < |steps| <= |states|
    ensures WasRetired(states, steps, i + 1, r) <==> WasRetired(states, steps, i, r) || Retires(states[i], steps[i], r)
  {
    hide Retires;
  }

  lemma ReportedNext(steps: seq<Step>, i: nat, r: Id)
    requires i < |steps|
    ensures HasReported(steps, i + 1, r) <==> HasReported(steps, i, r) || steps[i] == Report(r)
  {}

  /** The flags are the history: each is set exactly by a step that has happened. */
  ghost predicate FlagsTell(states: seq<Queue>, steps: seq<Step>, i: nat, r: Id)
    requires i <= |steps| < |states|
  {
    if r < |states[i].requests| then
      && (states[i].requests[r].retired <==> WasRetired(states, steps, i, r))
      && (states[i].requests[r].abandoned <==> WasGivenUp(steps, i, r))
      && (states[i].requests[r].reported <==> HasReported(steps, i, r))
    else !WasRetired(states, steps, i, r) && !WasGivenUp(steps, i, r) && !HasReported(steps, i, r)
  }

  lemma {:induction false} FlagsAreHistory(states: seq<Queue>, steps: seq<Step>, i: nat, r: Id)
    requires IsRun(states, steps) && i < |states|
    ensures FlagsTell(states, steps, i, r)
  {
    if i > 0 {
      var q, step := states[i - 1], steps[i - 1];
      FlagsAreHistory(states, steps, i - 1, r);
      RunKeepsInv(states, steps, i - 1);
      StepProgresses(q, step);
      MountOwns(q, step);
      HistoryNext(states, steps, i - 1, r);
      hide Inv, Retires, Enabled, After, WasRetired, WasGivenUp, HasReported;
      if r < |q.requests| {
        StepFlags(q, step, r);
      } else {
        NobodyYet(q, step, r);
        if r < |states[i].requests| {
          EntersClean(q, step, r);
        }
      }
    }
  }

  /**
   A report reaches the host exactly when nothing before has retired its request while it
   held the slot, and no microtask has found it disposed without a report. While another
   request holds the slot, that leaves only requests that had let go of the slot themselves
   before; and past a holder that entered after a disposal, only one that had reported before.
   */
  lemma ReportReachesHost(states: seq<Queue>, steps: seq<Step>, i: nat, r: Id)
    requires IsRun(states, steps) && i < |steps| && steps[i] == Report(r)
    ensures r < |states[i].requests| && r < |states[i + 1].requests|
    ensures var before, after := states[i].requests[r], states[i + 1].requests[r];
            && (after.dones > before.dones <==> !WasRetired(states, steps, i, r) && !WasGivenUp(steps, i, r))
            && (after.dones > before.dones && states[i].holder != Some(r) ==> before.released)
            && (after.dones > before.dones && before.disposed
                  && states[i].holder.Some? && states[i].holder.value >= before.dueAt ==>
                HasReported(steps, i, r))
  {
    RunKeepsInv(states, steps, i);
    FlagsAreHistory(states, steps, i, r);
    ReportSpeaks(states[i], r);
    hide Inv, WasRetired, WasGivenUp, HasReported;
  }

  lemma ReportSpeaks(q: Queue, r: Id)
    requires Inv(q) && Enabled(q, Report(r))
    ensures r < |AfterReport(q, r).requests|
    ensures var before, after := q.requests[r], AfterReport(q, r).requests[r];
            && (after.dones > before.dones <==> !before.retired && !before.abandoned)
            && (after.dones > before.dones && q.holder != Some(r) ==> before.released)
            && (after.dones > before.dones && before.disposed && q.holder.Some? && q.holder.value >= before.dueAt ==>
                  before.reported)
  {
    assert Fits(q, r);
    if q.holder.Some? {
      assert Fits(q, q.holder.value);
    }
  }

  /**
   Such a late report does happen. A component disposes itself and reports at once, so its
   microtask finds a report and gives nothing up; a newer request takes the slot; and a
   second report of the first one still reaches the host.
   */
  lemma LateReportReachesHost() returns (states: seq<Queue>, steps: seq<Step>)
    ensures IsRun(states, steps) && steps != []
    ensures var q, p := states[|steps| - 1], states[|steps|];
            && steps[|steps| - 1] == Report(0) && q.holder == Some(1)
            && |q.requests| == 2 && |p.requests| == 2
            && q.requests[0].dones == 1 && p.requests[0].dones == 2
  {
    steps := LateSteps();
    states := seq(|steps| + 1, i requires 0 <= i => LateState(i));
    forall i | 0 <= i < |steps|
      ensures Held(states[i]) && Enabled(states[i], steps[i]) && states[i + 1] == After(states[i], steps[i])
    {
      LateStep(i);
    }
    assert steps[10] == Report(0);
  }

  /** The queue after the first `i` steps of that run. */
  function LateState(i: nat): Queue {
    var w := NewRequest(false);
    var m := w.(phase := Mounted, hasComponent := true);
    var d := m.(released := true, disposed := true, abandonDue := true, dueAt := 1);
    var r := d.(reported := true, dones := 1);
    var s := r.(abandonDue := false, phase := Settled);
    match i
    case 0 => EMPTY
    case 1 => Queue([w], 1, None, 0)
    case 2 => Queue([w.(phase := Calling)], 1, None, 0)
    case 3 => Queue([m], 1, Some(0), 1)
    case 4 => Queue([d], 0, None, 1)
    case 5 => Queue([r], 0, None, 1)
    case 6 => Queue([r.(abandonDue := false)], 0, None, 1)
    case 7 => Queue([s], 0, None, 1)
    case 8 => Queue([s, w], 1, None, 1)
    case 9 => Queue([s, w.(phase := Calling)], 1, None, 1)
    case 10 => Queue([s, m.(mountedAt := 1)], 1, Some(1), 2)
    case _ => Queue([s.(dones := 2), m.(mountedAt := 1)], 1, Some(1), 2)
  }

  function LateSteps(): seq<Step> {
    [Enter, Admit(0, false, true), Mount(0), DisposeComponent(0), Report(0), AbandonSilent(0), Settle(0),
     Enter, Admit(1, false, true), Mount(1), Report(0)]
  }

  lemma LateStart(i: nat)
    requires i < 4
    ensures var q, step := LateState(i), LateSteps()[i];
            Held(q) && Enabled(q, step) && LateState(i + 1) == After(q, step)
  {
    assert i == 0 || i == 1 || i == 2 || i == 3;
  }

  lemma LateEnd(i: nat)
    requires 8 <= i < 11
    ensures var q, step := LateState(i), LateSteps()[i];
            Held(q) && Enabled(q, step) && LateState(i + 1) == After(q, step)
  {
    assert i == 8 || i == 9 || i == 10;
  }

  lemma LateStep(i: nat)
    requires i < |LateSteps()|
    ensures var q, step := LateState(i), LateSteps()[i];
            Held(q) && Enabled(q, step) && LateState(i + 1) == After(q, step)
  {
    if i < 4 {
      LateStart(i);
    } else if i < 8 {
      assert i == 4 || i == 5 || i == 6 || i == 7;
    } else {
      LateEnd(i);
    }
  }

  // ---- waiting ----

  lemma {:induction false} NoneUnreleased(requests: seq<Request>, r: Id)
    requires Unreleased(requests) == 0 && r < |requests|
    ensures requests[r].released
  {
    if r < |requests| - 1 {
      NoneUnreleased(requests[..|requests| - 1], r);
    }
  }

  /** A request that entered alone finds the slot free: it never waits. */
  lemma {:induction false} AloneNeverWaits(states: seq<Queue>, steps: seq<Step>, i: nat, r: Id)
    requires IsRun(states, steps) && i < |states| && r < |states[i].requests| && !states[i].requests[r].contended
    ensures AheadReleased(states[i], r)
  {
    if i > 0 {
      var q, step := states[i - 1], steps[i - 1];
      RunKeepsInv(states, steps, i - 1);
      StepProgresses(q, step);
      hide Inv, Unreleased, Enabled, After, Held;
      if r < |q.requests| {
        assert Progresses(q.requests[r], states[i].requests[r]);
        AloneNeverWaits(states, steps, i - 1, r);
        AheadStays(q, states[i], r);
      } else {
        AloneAtEntry(q, step, r);
      }
    }
  }

  lemma AheadStays(q: Queue, p: Queue, r: Id)
    requires QueueProgresses(q, p) && r < |q.requests| && AheadReleased(q, r)
    ensures AheadReleased(p, r)
  {
    if r > 0 {
      assert Progresses(q.requests[r - 1], p.requests[r - 1]);
    }
  }

  lemma AloneAtEntry(q: Queue, step: Step, r: Id)
    requires Inv(q) && Enabled(q, step) && |q.requests| <= r < |After(q, step).requests|
    requires !After(q, step).requests[r].contended
    ensures AheadReleased(After(q, step), r)
  {
    if step.Enter? {
      EnteredAlone(q, r);
      if r > 0 {
        NoneUnreleased(q.requests, r - 1);
      }
    } else {
      OnlyEnterAdds(q, step);
    }
  }

  /** Only entering adds a request. */
  lemma OnlyEnterAdds(q: Queue, step: Step)
    requires Held(q) && Enabled(q, step) && !step.Enter?
    ensures |After(q, step).requests| == |q.requests|
  {
    hide Release, RetireIncumbent, Settling, Dispose;
    match step
    case Admit(r, _, mountable) => SameLengths(q, r);
    case Mount(r) =>
      var request := q.requests[r].(phase := Mounted, hasComponent := true, mountedAt := q.mounts);
      SameLength(Set(q, r, request).(mounts := q.mounts + 1), r, Some(r));
    case FactoryFails(r) =>
    case LearnFailure(r) =>
      SameLength(q, r, None);
      SameLengths(RetireIncumbent(q, r, None), r);
    case Report(r) => SameLengths(Set(q, r, q.requests[r].(reported := true)), r);
    case DisposeComponent(r) => SameLengths(q, r);
    case AbandonSilent(r) =>
    case Settle(r) => SameLengths(q, r);
    case HostRejects(r) => SameLengths(q, r);
  }

  lemma SameLengths(q: Queue, r: Id)
    requires r < |q.requests|
    ensures |Settling(q, r).requests| == |q.requests| && |Dispose(q, r).requests| == |q.requests|
  {}

  lemma EnteredAlone(q: Queue, r: Id)
    requires Inv(q) && r == |q.requests| && !Entered(q).requests[r].contended
    ensures q.pending == 0
  {}

  // ---- the queue in place ----

  class InteractionQueue {
    var requests: seq<Request>
    var pending: int
    var current: Option<Id>
    var mounts: nat

    function State(): Queue
      reads this
    {
      Queue(requests, pending, current, mounts)
    }

    constructor ()
      ensures State() == EMPTY && Inv(State())
    {
      requests, pending, current, mounts := [], 0, None, 0;
    }

    method EnterQueue() returns (r: Id)
      requires Inv(State())
      modifies this
      ensures Inv(State()) && State() == After(old(State()), Enter) && r == |old(requests)|
    {
      StepKeepsInv(State(), Enter);
      r := |requests|;
      requests := requests + [NewRequest(pending > 0)];
      pending := pending + 1;
    }

    method ReleaseSlot(r: Id)
      requires r < |requests|
      modifies this
      ensures State() == Release(old(State()), r)
    {
      if requests[r].released {
        return;
      }
      requests := requests[r := requests[r].(released := true)];
      pending := pending - 1;
      if current == Some(r) {
        current := None;
      }
    }

    method RetireHolder(r: Id, next: Option<Id>)
      requires Held(State())
      modifies this
      ensures State() == RetireIncumbent(old(State()), r, next)
    {
      var previous := current;
      if previous == Some(r) {
        return;
      }
      current := next;
      if previous.Some? {
        ReleaseSlot(previous.value);
        requests := requests[previous.value := requests[previous.value].(owns := false, retired := true)];
      }
    }

    method FactoryFulfilled(r: Id)
      requires Inv(State()) && Enabled(State(), Mount(r))
      modifies this
      ensures Inv(State()) && State() == After(old(State()), Mount(r))
    {
      StepKeepsInv(State(), Mount(r));
      hide Inv, Unreleased;
      requests := requests[r := requests[r].(phase := Mounted, hasComponent := true, mountedAt := mounts)];
      mounts := mounts + 1;
      if requests[r].owns {
        RetireHolder(r, Some(r));
      }
    }

    method FactoryRejected(r: Id)
      requires Inv(State()) && Enabled(State(), LearnFailure(r))
      modifies this
      ensures Inv(State()) && State() == After(old(State()), LearnFailure(r))
    {
      StepKeepsInv(State(), LearnFailure(r));
      hide Inv, Unreleased;
      RetireHolder(r, None);
      requests := requests[r := requests[r].(phase := Settled)];
      ReleaseSlot(r);
    }

    method FencedDone(r: Id)
      requires Inv(State()) && Enabled(State(), Report(r))
      modifies this
      ensures Inv(State()) && State() == After(old(State()), Report(r))
    {
      StepKeepsInv(State(), Report(r));
      hide Inv, Unreleased;
      requests := requests[r := requests[r].(reported := true)];
      if !requests[r].owns {
        DisposeOwn(r);
        return;
      }
      requests := requests[r := requests[r].(dones := requests[r].dones + 1)];
      assert requests == old(requests)[r := requests[r]];
    }

    method DisposeOwn(r: Id)
      requires r < |requests|
      modifies this
      ensures State() == Dispose(old(State()), r)
    {
      if requests[r].disposed {
        return;
      }
      requests := requests[r := requests[r].(disposed := true, abandonDue := true, dueAt := |requests|)];
      ReleaseSlot(r);
    }
  }
}
