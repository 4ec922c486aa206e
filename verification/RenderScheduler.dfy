/**
 Render coalescing (render-scheduler.ts): a leading render, then one trailing render per
 window. Every call of the render callback is the last thing its caller does, so calls
 made from inside the callback are simply the events that follow.
 */
module RenderScheduler {
  import opened Wrappers

  /** `flushed` says that `flush` asked for it. */
  datatype Render = Render(at: int, flushed: bool)

  /** `due` is when the armed timer may fire; `last` opens the current window. */
  datatype Schedule = Schedule(due: Option<int>, last: Option<int>, renders: seq<Render>)

  datatype Op = Request | Flush | Cancel | Fire

  datatype Event = Event(op: Op, now: int)

  const IDLE := Schedule(None, None, [])

  function Rendered(s: Schedule, now: int, flushed: bool): Schedule {
    s.(last := Some(now), renders := s.renders + [Render(now, flushed)])
  }

  function After(interval: nat, s: Schedule, e: Event): Schedule {
    match e.op
    case Request =>
      if interval == 0 then Rendered(s, e.now, false)
      else if s.due.Some? then s
      else if s.last.None? || e.now - s.last.value >= interval then Rendered(s, e.now, false)
      else s.(due := Some(e.now + (interval - (e.now - s.last.value))))
    case Flush => Rendered(s.(due := None), e.now, true)
    case Cancel => s.(due := None)
    case Fire => if s.due.Some? then Rendered(s.(due := None), e.now, false) else s
  }

  class RenderScheduler {
    const minIntervalMs: nat
    var timer: Option<int>
    var lastRenderAt: Option<int>
    ghost var renders: seq<Render>

    ghost function State(): Schedule
      reads this
    {
      Schedule(timer, lastRenderAt, renders)
    }

    constructor (minIntervalMs: int)
      ensures State() == IDLE && this.minIntervalMs == if minIntervalMs < 0 then 0 else minIntervalMs
    {
      this.minIntervalMs := if minIntervalMs < 0 then 0 else minIntervalMs;
      timer, lastRenderAt, renders := None, None, [];
    }

    method RequestRender(now: int)
      modifies this
      ensures State() == After(minIntervalMs, old(State()), Event(Request, now))
    {
      if minIntervalMs == 0 {
        RenderNow(now, false);
        return;
      }
      if timer.Some? {
        return;
      }
      if lastRenderAt.Some? {
        var waited := now - lastRenderAt.value;
        if waited < minIntervalMs {
          Arm(now, minIntervalMs - waited);
          return;
        }
      }
      RenderNow(now, false);
    }

    method FlushRender(now: int)
      modifies this
      ensures State() == After(minIntervalMs, old(State()), Event(Flush, now))
    {
      ClearTimer();
      RenderNow(now, true);
    }

    method CancelRender(now: int)
      modifies this
      ensures State() == After(minIntervalMs, old(State()), Event(Cancel, now))
    {
      ClearTimer();
    }

    /** The armed timer goes off. */
    method TimerFired(now: int)
      requires timer.Some?
      modifies this
      ensures State() == After(minIntervalMs, old(State()), Event(Fire, now))
    {
      timer := None;
      RenderNow(now, false);
    }

    method Arm(now: int, delay: int)
      modifies this`timer
      ensures timer == Some(now + if delay < 0 then 0 else delay)
    {
      timer := Some(now + if delay < 0 then 0 else delay);
    }

    method RenderNow(now: int, ghost flushed: bool)
      modifies this
      ensures State() == Rendered(old(State()), now, flushed)
    {
      lastRenderAt := Some(now);
      renders := renders + [Render(now, flushed)];
    }

    method ClearTimer()
      modifies this`timer
      ensures timer == None
    {
      if timer.Some? {
        timer := None;
      }
    }
  }

  // ---- histories ----

  function Run(interval: nat, events: seq<Event>): Schedule {
    if events == [] then IDLE
    else After(interval, Run(interval, events[..|events| - 1]), events[|events| - 1])
  }

  /** Before event `i`. */
  function Before(interval: nat, events: seq<Event>, i: nat): Schedule
    requires i <= |events|
  {
    Run(interval, events[..i])
  }

  /** The clock does not run backwards, and a timer fires when armed and not before it is due. */
  ghost predicate Timely(interval: nat, events: seq<Event>) {
    && (forall i, j :: 0 <= i < j < |events| ==> events[i].now <= events[j].now)
    && (forall i :: 0 <= i < |events| && events[i].op == Fire ==>
          Before(interval, events, i).due.Some? && Before(interval, events, i).due.value <= events[i].now)
  }

  /** Nothing happens more than `late` after an armed timer is due, but its firing. */
  ghost predicate Prompt(interval: nat, events: seq<Event>, late: nat) {
    forall i :: 0 <= i < |events| && Before(interval, events, i).due.Some? ==>
      events[i].now <= Before(interval, events, i).due.value + late
  }

  lemma TimelyPrefix(interval: nat, events: seq<Event>)
    requires Timely(interval, events) && events != []
    ensures Timely(interval, events[..|events| - 1])
  {
    var shorter := events[..|events| - 1];
    forall i | 0 <= i < |shorter|
      ensures Before(interval, shorter, i) == Before(interval, events, i)
    {
      assert shorter[..i] == events[..i];
    }
  }

  ghost predicate Spaced(interval: nat, renders: seq<Render>) {
    forall i :: 0 < i < |renders| ==> renders[i].flushed || renders[i].at - renders[i - 1].at >= interval
  }

  /** The window opened with the last render, and an armed timer is due exactly when it closes. */
  ghost predicate Windowed(interval: nat, s: Schedule) {
    && s.last == (if s.renders == [] then None else Some(s.renders[|s.renders| - 1].at))
    && (s.due.Some? ==> interval > 0 && s.last.Some? && s.due.value == s.last.value + interval)
  }

  /** Over any timely history, renders that nobody flushed are at least the interval apart. */
  lemma {:induction false} RendersAreSpaced(interval: nat, events: seq<Event>)
    requires Timely(interval, events)
    ensures Windowed(interval, Run(interval, events)) && Spaced(interval, Run(interval, events).renders)
    ensures events != [] && Run(interval, events).last.Some? ==>
              Run(interval, events).last.value <= events[|events| - 1].now
  {
    if events != [] {
      var n := |events| - 1;
      TimelyPrefix(interval, events);
      RendersAreSpaced(interval, events[..n]);
      assert Before(interval, events, n) == Run(interval, events[..n]);
    }
  }

  /** `renders` got one at a time from `from` to `to` since `count`. */
  ghost predicate RenderedWithin(s: Schedule, count: nat, from: int, to: int) {
    exists k :: count <= k < |s.renders| && from <= s.renders[k].at <= to
  }

  /** A render answered the request, or its timer is armed for within the interval. */
  ghost predicate Served(s: Schedule, count: nat, r: int, interval: nat, late: nat) {
    RenderedWithin(s, count, r, r + interval + late) || (s.due.Some? && s.due.value <= r + interval)
  }

  lemma RenderCountGrows(interval: nat, s: Schedule, e: Event)
    ensures s.renders <= After(interval, s, e).renders
  {}

  /**
   A request at `i` is followed by a render within the interval (plus the timer's lateness),
   unless `cancel` comes first or, so far, its timer is still running.
   */
  lemma {:induction false} RequestIsServed(interval: nat, events: seq<Event>, late: nat, i: nat, j: nat)
    requires Timely(interval, events) && Prompt(interval, events, late)
    requires i < j <= |events| && events[i].op == Request
    requires forall m :: i < m < j ==> events[m].op != Cancel
    ensures Served(Before(interval, events, j), |Before(interval, events, i).renders|, events[i].now, interval, late)
    decreases j
  {
    hide *;
    var r, count := events[i].now, |Before(interval, events, i).renders|;
    var s, e := Before(interval, events, j - 1), events[j - 1];
    BeforeNext(interval, events, j - 1);
    BeforeIsWindowed(interval, events, j - 1);
    if j == i + 1 {
      RequestStarts(interval, s, r, late);
    } else {
      RequestIsServed(interval, events, late, i, j - 1);
      CountNeverShrinks(interval, events, i, j - 1);
      OnTime(interval, events, late, i, j - 1);
      RequestWaits(interval, s, e, count, r, late);
    }
  }

  /** So once the interval and the timer's lateness have passed, the render has happened. */
  lemma RequestIsRendered(interval: nat, events: seq<Event>, late: nat, i: nat, j: nat)
    requires Timely(interval, events) && Prompt(interval, events, late)
    requires i < j < |events| && events[i].op == Request && events[j].now > events[i].now + interval + late
    requires forall m :: i < m < j ==> events[m].op != Cancel
    ensures RenderedWithin(Before(interval, events, j), |Before(interval, events, i).renders|,
                           events[i].now, events[i].now + interval + late)
  {
    RequestIsServed(interval, events, late, i, j);
    hide Before, Timely, RenderedWithin;
  }

  lemma BeforeNext(interval: nat, events: seq<Event>, j: nat)
    requires j < |events|
    ensures Before(interval, events, j + 1) == After(interval, Before(interval, events, j), events[j])
  {
    assert events[..j + 1][..j] == events[..j];
  }

  lemma BeforeIsWindowed(interval: nat, events: seq<Event>, j: nat)
    requires Timely(interval, events) && j < |events|
    ensures var s := Before(interval, events, j);
            Windowed(interval, s) && (s.last.Some? ==> s.last.value <= events[j].now)
  {
    PrefixTimely(interval, events, j);
    RendersAreSpaced(interval, events[..j]);
    assert j > 0 ==> events[..j][j - 1].now == events[j - 1].now <= events[j].now;
    hide Windowed, Timely, Spaced;
    assert j == 0 ==> Run(interval, events[..j]) == IDLE;
  }

  lemma OnTime(interval: nat, events: seq<Event>, late: nat, i: nat, j: nat)
    requires Timely(interval, events) && Prompt(interval, events, late) && i <= j < |events|
    ensures events[i].now <= events[j].now
    ensures var s := Before(interval, events, j); s.due.Some? ==> events[j].now <= s.due.value + late
  {}

  lemma RequestStarts(interval: nat, s: Schedule, r: int, late: nat)
    requires Windowed(interval, s) && (s.last.Some? ==> s.last.value <= r)
    ensures Served(After(interval, s, Event(Request, r)), |s.renders|, r, interval, late)
  {
    var t := After(interval, s, Event(Request, r));
    if |t.renders| > |s.renders| {
      assert t.renders[|s.renders|].at == r;
    }
  }

  lemma RequestWaits(interval: nat, s: Schedule, e: Event, count: nat, r: int, late: nat)
    requires Served(s, count, r, interval, late) && count <= |s.renders| && e.op != Cancel
    requires r <= e.now && (s.due.Some? ==> e.now <= s.due.value + late)
    ensures Served(After(interval, s, e), count, r, interval, late)
  {
    var t := After(interval, s, e);
    if RenderedWithin(s, count, r, r + interval + late) {
      var k :| count <= k < |s.renders| && r <= s.renders[k].at <= r + interval + late;
      assert t.renders[k] == s.renders[k];
    } else if |t.renders| > |s.renders| {
      assert t.renders[|s.renders|].at == e.now;
    }
  }

  lemma {:induction false} PrefixTimely(interval: nat, events: seq<Event>, j: nat)
    requires Timely(interval, events) && j <= |events|
    ensures Timely(interval, events[..j])
    decreases |events| - j
  {
    if j < |events| {
      PrefixTimely(interval, events, j + 1);
      TimelyPrefix(interval, events[..j + 1]);
      assert events[..j + 1][..j] == events[..j];
    } else {
      assert events[..j] == events;
    }
  }

  lemma {:induction false} CountNeverShrinks(interval: nat, events: seq<Event>, i: nat, j: nat)
    requires i <= j <= |events|
    ensures |Before(interval, events, i).renders| <= |Before(interval, events, j).renders|
    decreases j
  {
    if i < j {
      CountNeverShrinks(interval, events, i, j - 1);
      assert events[..j][..j - 1] == events[..j - 1];
      RenderCountGrows(interval, Before(interval, events, j - 1), events[j - 1]);
    }
  }

  // ---- what each event does ----

  /** When the last render happened. */
  function LastAt(s: Schedule): Option<int> {
    if s.renders == [] then None else Some(s.renders[|s.renders| - 1].at)
  }

  /** The window is over, or there has been no render to open one. */
  predicate MayRender(interval: nat, s: Schedule, now: int) {
    LastAt(s).None? || now - LastAt(s).value >= interval
  }

  /**
   A request renders at once if no timer is armed and the window is over. Within it, the
   first request arms the timer for its end, and later ones change nothing.
   */
  lemma RequestSays(interval: nat, events: seq<Event>, i: nat)
    requires Timely(interval, events) && i < |events| && events[i].op == Request
    ensures var s, t, now := Before(interval, events, i), Before(interval, events, i + 1), events[i].now;
            && (s.due.Some? ==> t.due == s.due && t.renders == s.renders)
            && (s.due.None? && MayRender(interval, s, now) ==>
                  t.due == None && t.renders == s.renders + [Render(now, false)])
            && (s.due.None? && !MayRender(interval, s, now) ==>
                  t.due == Some(LastAt(s).value + interval) && t.renders == s.renders)
  {
    BeforeNext(interval, events, i);
    BeforeIsWindowed(interval, events, i);
    hide Before, Timely;
  }

  /** Without an interval every request renders, whatever the clock says, and no timer is armed. */
  lemma {:induction false} NoIntervalNoWait(events: seq<Event>, i: nat)
    requires i <= |events|
    ensures Before(0, events, i).due == None
    ensures i < |events| && events[i].op == Request ==>
              Before(0, events, i + 1).renders == Before(0, events, i).renders + [Render(events[i].now, false)]
  {
    if i > 0 {
      NoIntervalNoWait(events, i - 1);
      BeforeNext(0, events, i - 1);
    }
    if i < |events| {
      BeforeNext(0, events, i);
    }
  }

  /** A flush renders at once, window or not, and leaves no timer behind. */
  lemma FlushSays(interval: nat, events: seq<Event>, i: nat)
    requires i < |events| && events[i].op == Flush
    ensures var s, t := Before(interval, events, i), Before(interval, events, i + 1);
            t.due == None && t.renders == s.renders + [Render(events[i].now, true)]
  {
    BeforeNext(interval, events, i);
    hide Before;
  }

  /** The timer going off is the trailing render, and the window starts anew. */
  lemma FireSays(interval: nat, events: seq<Event>, i: nat)
    requires Timely(interval, events) && i < |events| && events[i].op == Fire
    ensures var s, t := Before(interval, events, i), Before(interval, events, i + 1);
            t.due == None && t.renders == s.renders + [Render(events[i].now, false)]
  {
    BeforeNext(interval, events, i);
    hide Before;
  }

  /** After a cancellation nothing renders until somebody asks for it again. */
  lemma {:induction false} CancelSays(interval: nat, events: seq<Event>, i: nat, j: nat)
    requires Timely(interval, events) && i < j <= |events| && events[i].op == Cancel
    requires forall m :: i < m < j ==> events[m].op != Request && events[m].op != Flush
    ensures Before(interval, events, j).renders == Before(interval, events, i).renders
    ensures Before(interval, events, j).due == None
    decreases j
  {
    BeforeNext(interval, events, j - 1);
    if j > i + 1 {
      CancelSays(interval, events, i, j - 1);
    }
    hide Before;
  }
}
