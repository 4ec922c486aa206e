/**
 FIFO permits with one owner and cancellable admission (execution-scheduler.ts).

 `Sched` is the state the closures share: the two counters, the queue, the state of
 every permit promise handed out so far (its ticket), and which abort signals have
 fired. Tickets are numbered in the order `acquire` was called, so "first in, first
 out" is a statement about ticket numbers.
 */
module ExecutionScheduler {

  datatype Waiter<S> = Waiter(ticket: nat, signal: S)

  /** The life of one acquired permit; `Rejected` is the promise refused by an abort. */
  datatype Ticket<E> = Waiting | Rejected(reason: E) | Granted | Executing | Released

  datatype Sched<S(==), E> = Sched(
    concurrency: nat,
    inUse: nat,
    active: nat,
    peak: nat,
    waiters: seq<Waiter<S>>,
    tickets: seq<Ticket<E>>,
    aborted: map<S, E>)

  predicate Held<E>(t: Ticket<E>) {
    t.Granted? || t.Executing?
  }

  predicate WasGranted<E>(t: Ticket<E>) {
    Held(t) || t.Released?
  }

  function CountHeld<E>(tickets: seq<Ticket<E>>): nat {
    if tickets == [] then 0
    else CountHeld(tickets[..|tickets| - 1]) + if Held(tickets[|tickets| - 1]) then 1 else 0
  }

  function CountExecuting<E>(tickets: seq<Ticket<E>>): nat {
    if tickets == [] then 0
    else CountExecuting(tickets[..|tickets| - 1]) + if tickets[|tickets| - 1].Executing? then 1 else 0
  }

  // ---- operations ----

  function Initial<S(==), E>(concurrency: nat): Sched<S, E> {
    Sched(concurrency, 0, 0, 0, [], [], map[])
  }

  function SetTicket<S, E>(q: Sched<S, E>, t: nat, ticket: Ticket<E>): Sched<S, E> {
    if t < |q.tickets| then q.(tickets := q.tickets[t := ticket]) else q
  }

  /** Shift the head of the queue: a permit, or a rejection when its signal has fired meanwhile. */
  function AdmitHead<S, E>(q: Sched<S, E>): Sched<S, E>
    requires q.waiters != []
  {
    var head := q.waiters[0];
    var q1 := q.(waiters := q.waiters[1..]);
    if head.signal in q.aborted then SetTicket(q1, head.ticket, Rejected(q.aborted[head.signal]))
    else SetTicket(q1.(inUse := q.inUse + 1), head.ticket, Granted)
  }

  function Dispatch<S, E>(q: Sched<S, E>): Sched<S, E>
    decreases |q.waiters|
  {
    if q.inUse < q.concurrency && q.waiters != [] then Dispatch(AdmitHead(q)) else q
  }

  /** The queue right after a new waiter joined it, before anybody is admitted. */
  function Enqueue<S, E>(q: Sched<S, E>, signal: S): Sched<S, E> {
    q.(tickets := q.tickets + [Waiting], waiters := q.waiters + [Waiter(|q.tickets|, signal)])
  }

  /** The new ticket is always `|q.tickets|`. */
  function Acquire<S, E>(q: Sched<S, E>, signal: S): Sched<S, E> {
    if signal in q.aborted then q.(tickets := q.tickets + [Rejected(q.aborted[signal])])
    else
      Dispatch(Enqueue(q, signal))
  }

  function Max(a: nat, b: nat): nat {
    if a < b then b else a
  }

  predicate CanActivate<S, E>(q: Sched<S, E>, t: nat) {
    t < |q.tickets| && Held(q.tickets[t])
  }

  function Activate<S, E>(q: Sched<S, E>, t: nat): Sched<S, E> {
    if t < |q.tickets| && q.tickets[t].Granted?
    then q.(tickets := q.tickets[t := Executing], active := q.active + 1, peak := Max(q.peak, q.active + 1))
    else q
  }

  /** The scheduler with one permit given back, before the head of the queue gets it. */
  function GiveBack<S, E>(q: Sched<S, E>, t: nat): Sched<S, E>
    requires t < |q.tickets| && Held(q.tickets[t]) && q.inUse > 0
  {
    q.(tickets := q.tickets[t := Released],
       inUse := q.inUse - 1,
       active := if q.tickets[t].Executing? && q.active > 0 then q.active - 1 else q.active)
  }

  function Release<S, E>(q: Sched<S, E>, t: nat): Sched<S, E> {
    if t < |q.tickets| && Held(q.tickets[t]) && q.inUse > 0 then
      Dispatch(GiveBack(q, t))
    else q
  }

  /** Reject every waiter whose signal has fired, keeping the others in order. */
  function Flush<S, E>(q: Sched<S, E>, done: nat): Sched<S, E>
    requires done <= |q.waiters|
    decreases |q.waiters| - done
  {
    if done == |q.waiters| then q
    else if q.waiters[done].signal in q.aborted then Flush(RejectAt(q, done), done)
    else Flush(q, done + 1)
  }

  function RejectAt<S, E>(q: Sched<S, E>, at: nat): Sched<S, E>
    requires at < |q.waiters| && q.waiters[at].signal in q.aborted
  {
    SetTicket(q.(waiters := q.waiters[..at] + q.waiters[at + 1..]),
              q.waiters[at].ticket, Rejected(q.aborted[q.waiters[at].signal]))
  }

  /** A signal that fired keeps its first reason. */
  function Mark<S, E>(q: Sched<S, E>, signals: set<S>, reason: E): Sched<S, E> {
    q.(aborted := (map s | s in signals :: reason) + q.aborted)
  }

  /** Fire a family of signals together, as one controller and everything that depends on it does. */
  function Abort<S, E>(q: Sched<S, E>, signals: set<S>, reason: E): Sched<S, E> {
    Dispatch(Flush(Mark(q, signals, reason), 0))
  }

  // ---- what the scheduler keeps ----

  /** The queue holds exactly the waiting tickets, in the order they were taken. */
  ghost predicate QueueOrdered<S, E>(q: Sched<S, E>) {
    && (forall a :: 0 <= a < |q.waiters| ==>
          q.waiters[a].ticket < |q.tickets| && q.tickets[q.waiters[a].ticket].Waiting?)
    && (forall a, b :: 0 <= a < b < |q.waiters| ==> q.waiters[a].ticket < q.waiters[b].ticket)
    && (forall t :: 0 <= t < |q.tickets| && q.tickets[t].Waiting? ==> Queued(q.waiters, t))
  }

  ghost predicate Queued<S>(waiters: seq<Waiter<S>>, t: nat) {
    exists a :: 0 <= a < |waiters| && waiters[a].ticket == t
  }

  /** Nobody overtakes: a ticket that was ever granted is older than every one still waiting. */
  ghost predicate FirstInFirstOut<S, E>(q: Sched<S, E>) {
    q.waiters != [] ==>
      forall t :: 0 <= t < |q.tickets| && WasGranted(q.tickets[t]) ==> t < q.waiters[0].ticket
  }

  /** `inUse` counts granted permits not yet released, `active` the activated ones among them. */
  ghost predicate Conserved<S, E>(q: Sched<S, E>) {
    && q.inUse == CountHeld(q.tickets)
    && q.active == CountExecuting(q.tickets)
    && q.inUse <= q.concurrency
    && q.active <= q.peak <= q.concurrency
  }

  ghost predicate NoAbortedWaiter<S, E>(q: Sched<S, E>) {
    forall a :: 0 <= a < |q.waiters| ==> q.waiters[a].signal !in q.aborted
  }

  /** No permit lies idle while somebody waits. */
  ghost predicate WorkConserving<S, E>(q: Sched<S, E>) {
    q.waiters == [] || q.inUse == q.concurrency
  }

  ghost predicate Coherent<S, E>(q: Sched<S, E>) {
    && 1 <= q.concurrency
    && QueueOrdered(q)
    && FirstInFirstOut(q)
    && Conserved(q)
  }

  /** Everything but the last promise, which holds again once `Dispatch` has run. */
  ghost predicate Undispatched<S, E>(q: Sched<S, E>) {
    Coherent(q) && NoAbortedWaiter(q)
  }

  ghost predicate Valid<S, E>(q: Sched<S, E>) {
    Undispatched(q) && WorkConserving(q)
  }

  /** A queue may lose waiters, and gain none but the newest ticket's. */
  ghost predicate WaitersKept<S, E>(q: Sched<S, E>, q': Sched<S, E>) {
    forall a :: 0 <= a < |q'.waiters| ==> q'.waiters[a] in q.waiters || q'.waiters[a].ticket >= |q.tickets|
  }

  /** What an operation may do to a ticket it was not about: grant it or reject it while it waits. */
  ghost predicate OnlyWaitingMoves<S, E>(q: Sched<S, E>, q': Sched<S, E>) {
    && |q.tickets| <= |q'.tickets|
    && q.concurrency == q'.concurrency
    && WaitersKept(q, q')
    && (forall t :: 0 <= t < |q.tickets| ==>
          || q'.tickets[t] == q.tickets[t]
          || (q.tickets[t].Waiting? && (q'.tickets[t].Granted? || q'.tickets[t].Rejected?)))
  }

  /** The same for an operation that rejects nobody. */
  ghost predicate OnlyGrants<S, E>(q: Sched<S, E>, q': Sched<S, E>) {
    && OnlyWaitingMoves(q, q')
    && (forall t :: 0 <= t < |q.tickets| && q.tickets[t].Waiting? ==> !q'.tickets[t].Rejected?)
  }

  // ---- counting ----

  lemma {:induction false} CountUpdate<E>(tickets: seq<Ticket<E>>, t: nat, ticket: Ticket<E>)
    requires t < |tickets|
    ensures CountHeld(tickets[t := ticket]) ==
            CountHeld(tickets) - (if Held(tickets[t]) then 1 else 0) + (if Held(ticket) then 1 else 0)
    ensures CountExecuting(tickets[t := ticket]) ==
            CountExecuting(tickets) - (if tickets[t].Executing? then 1 else 0) + (if ticket.Executing? then 1 else 0)
  {
    var last := |tickets| - 1;
    if t == last {
      assert tickets[t := ticket][..last] == tickets[..last];
    } else {
      assert tickets[t := ticket][..last] == tickets[..last][t := ticket];
      CountUpdate(tickets[..last], t, ticket);
    }
  }

  lemma CountAppend<E>(tickets: seq<Ticket<E>>, ticket: Ticket<E>)
    ensures CountHeld(tickets + [ticket]) == CountHeld(tickets) + (if Held(ticket) then 1 else 0)
    ensures CountExecuting(tickets + [ticket]) == CountExecuting(tickets) + (if ticket.Executing? then 1 else 0)
  {
    assert (tickets + [ticket])[..|tickets|] == tickets;
  }

  lemma {:induction false} ExecutingAreHeld<E>(tickets: seq<Ticket<E>>)
    ensures CountExecuting(tickets) <= CountHeld(tickets)
  {
    if tickets != [] {
      ExecutingAreHeld(tickets[..|tickets| - 1]);
    }
  }

  /** Somebody holds a permit whenever one is in use. */
  lemma {:induction false} HolderExists<E>(tickets: seq<Ticket<E>>) returns (t: nat)
    requires CountHeld(tickets) > 0
    ensures t < |tickets| && Held(tickets[t])
  {
    var last := |tickets| - 1;
    if Held(tickets[last]) {
      t := last;
    } else {
      t := HolderExists(tickets[..last]);
    }
  }

  lemma {:induction false} HeldCounts<E>(tickets: seq<Ticket<E>>, t: nat)
    requires t < |tickets| && Held(tickets[t])
    ensures CountHeld(tickets) > 0
    ensures tickets[t].Executing? ==> CountExecuting(tickets) > 0
  {
    var last := |tickets| - 1;
    if t != last {
      HeldCounts(tickets[..last], t);
    }
  }

  lemma {:induction false} NoneHeld<E>(tickets: seq<Ticket<E>>)
    requires forall t :: 0 <= t < |tickets| ==> !Held(tickets[t])
    ensures CountHeld(tickets) == 0
  {
    if tickets != [] {
      NoneHeld(tickets[..|tickets| - 1]);
    }
  }

  // ---- each operation keeps the scheduler valid ----

  lemma InitialValid<S, E>(concurrency: nat)
    requires 1 <= concurrency
    ensures Valid<S, E>(Initial(concurrency))
  {}

  lemma QueuedTail<S>(waiters: seq<Waiter<S>>, t: nat)
    requires Queued(waiters, t) && waiters[0].ticket != t
    ensures Queued(waiters[1..], t)
  {
    var a :| 0 <= a < |waiters| && waiters[a].ticket == t;
    assert waiters[1..][a - 1].ticket == t;
  }

  lemma QueuedAppend<S>(waiters: seq<Waiter<S>>, w: Waiter<S>, t: nat)
    requires Queued(waiters, t) || w.ticket == t
    ensures Queued(waiters + [w], t)
  {
    if w.ticket == t {
      assert (waiters + [w])[|waiters|].ticket == t;
    } else {
      var a :| 0 <= a < |waiters| && waiters[a].ticket == t;
      assert (waiters + [w])[a].ticket == t;
    }
  }

  lemma AdmitHeadKeepsQueue<S, E>(q: Sched<S, E>)
    requires Undispatched(q) && q.inUse < q.concurrency && q.waiters != []
    ensures QueueOrdered(AdmitHead(q))
    ensures FirstInFirstOut(AdmitHead(q))
    ensures NoAbortedWaiter(AdmitHead(q))
  {
    var head := q.waiters[0];
    var q' := AdmitHead(q);
    assert q'.waiters == q.waiters[1..] && q'.tickets == q.tickets[head.ticket := Granted];
    forall t | 0 <= t < |q'.tickets| && q'.tickets[t].Waiting?
      ensures Queued(q'.waiters, t)
    {
      QueuedTail(q.waiters, t);
    }
  }

  lemma AdmitHeadKeeps<S, E>(q: Sched<S, E>)
    requires Undispatched(q) && q.inUse < q.concurrency && q.waiters != []
    ensures Undispatched(AdmitHead(q))
    ensures OnlyGrants(q, AdmitHead(q))
    ensures AdmitHead(q).aborted == q.aborted
  {
    AdmitHeadKeepsQueue(q);
    CountUpdate(q.tickets, q.waiters[0].ticket, Granted);
  }

  lemma GrantsCompose<S, E>(q: Sched<S, E>, q1: Sched<S, E>, q2: Sched<S, E>)
    requires OnlyGrants(q, q1) && OnlyGrants(q1, q2)
    ensures OnlyGrants(q, q2)
  {}

  /** Admission never meets a fired signal: aborted waiters have left the queue before anybody is admitted. */
  lemma {:induction false} DispatchKeeps<S, E>(q: Sched<S, E>)
    requires Undispatched(q)
    ensures Valid(Dispatch(q))
    ensures OnlyGrants(q, Dispatch(q))
    ensures Dispatch(q).aborted == q.aborted
    ensures |Dispatch(q).tickets| == |q.tickets|
    decreases |q.waiters|
  {
    if q.inUse < q.concurrency && q.waiters != [] {
      AdmitHeadKeeps(q);
      DispatchKeeps(AdmitHead(q));
      GrantsCompose(q, AdmitHead(q), Dispatch(AdmitHead(q)));
    }
  }

  lemma EnqueueKeeps<S, E>(q: Sched<S, E>, signal: S)
    requires Undispatched(q) && signal !in q.aborted
    ensures Undispatched(Enqueue(q, signal))
    ensures OnlyGrants(q, Enqueue(q, signal))
  {
    hide QueueOrdered, FirstInFirstOut, OnlyGrants;
    CountAppend(q.tickets, Waiting);
    EnqueueKeepsQueue(q, signal);
    EnqueueKeepsFairness(q, signal);
    EnqueueGrantsNothing(q, signal);
  }

  lemma EnqueueGrantsNothing<S, E>(q: Sched<S, E>, signal: S)
    ensures OnlyGrants(q, Enqueue(q, signal))
  {}

  lemma EnqueueKeepsFairness<S, E>(q: Sched<S, E>, signal: S)
    requires FirstInFirstOut(q)
    ensures FirstInFirstOut(Enqueue(q, signal))
  {}

  lemma EnqueueKeepsQueue<S, E>(q: Sched<S, E>, signal: S)
    requires QueueOrdered(q)
    ensures QueueOrdered(Enqueue(q, signal))
  {
    var q1 := Enqueue(q, signal);
    forall t | 0 <= t < |q1.tickets| && q1.tickets[t].Waiting?
      ensures Queued(q1.waiters, t)
    {
      QueuedAppend(q.waiters, Waiter(|q.tickets|, signal), t);
    }
  }

  lemma RefuseKeeps<S, E>(q: Sched<S, E>, signal: S)
    requires Valid(q) && signal in q.aborted
    ensures Valid(Acquire(q, signal))
    ensures OnlyGrants(q, Acquire(q, signal))
  {
    hide QueueOrdered, FirstInFirstOut, OnlyGrants;
    CountAppend(q.tickets, Rejected(q.aborted[signal]));
    RefuseKeepsQueue(q, signal);
  }

  lemma RefuseKeepsQueue<S, E>(q: Sched<S, E>, signal: S)
    requires QueueOrdered(q) && FirstInFirstOut(q) && signal in q.aborted
    ensures QueueOrdered(Acquire(q, signal)) && FirstInFirstOut(Acquire(q, signal))
    ensures OnlyGrants(q, Acquire(q, signal))
  {}

  lemma AcquireKeeps<S, E>(q: Sched<S, E>, signal: S)
    requires Valid(q)
    ensures Valid(Acquire(q, signal))
    ensures OnlyGrants(q, Acquire(q, signal))
    ensures |Acquire(q, signal).tickets| == |q.tickets| + 1
    ensures Acquire(q, signal).aborted == q.aborted
    ensures var last := Acquire(q, signal).tickets[|q.tickets|];
            if signal in q.aborted then last == Rejected(q.aborted[signal]) else last.Waiting? || last.Granted?
  {
    if signal in q.aborted {
      RefuseKeeps(q, signal);
    } else {
      var q1 := Enqueue(q, signal);
      EnqueueKeeps(q, signal);
      DispatchKeeps(q1);
      GrantsCompose(q, q1, Dispatch(q1));
      assert q1.tickets[|q.tickets|].Waiting?;
    }
  }

  /** The newest waiter waits on the signal it was given. */
  lemma AcquireWaiters<S, E>(q: Sched<S, E>, signal: S, a: nat)
    requires Valid(q) && a < |Acquire(q, signal).waiters|
    ensures var w := Acquire(q, signal).waiters[a]; w in q.waiters || w == Waiter(|q.tickets|, signal)
  {
    if signal !in q.aborted {
      EnqueueKeeps(q, signal);
      DispatchKeeps(Enqueue(q, signal));
    }
  }

  lemma ActivateKeeps<S, E>(q: Sched<S, E>, t: nat)
    requires Valid(q) && CanActivate(q, t)
    ensures Valid(Activate(q, t))
    ensures Activate(q, t).tickets == q.tickets[t := Executing]
    ensures Activate(q, t).aborted == q.aborted
  {
    CountUpdate(q.tickets, t, Executing);
    ExecutingAreHeld(Activate(q, t).tickets);
  }

  lemma GiveBackKeeps<S, E>(q: Sched<S, E>, t: nat)
    requires Valid(q) && t < |q.tickets| && Held(q.tickets[t])
    ensures q.inUse > 0
    ensures q.tickets[t].Executing? ==> q.active > 0
    ensures Undispatched(GiveBack(q, t))
  {
    HeldCounts(q.tickets, t);
    CountUpdate(q.tickets, t, Released);
    ExecutingAreHeld(q.tickets);
    var q1 := GiveBack(q, t);
    assert QueueOrdered(q1) by {
      forall u | 0 <= u < |q1.tickets| && q1.tickets[u].Waiting?
        ensures Queued(q1.waiters, u)
      {
        assert q.tickets[u].Waiting?;
      }
    }
  }

  lemma ReleaseKeeps<S, E>(q: Sched<S, E>, t: nat)
    requires Valid(q) && t < |q.tickets| && Held(q.tickets[t])
    ensures Valid(Release(q, t))
    ensures OnlyGrants(q.(tickets := q.tickets[t := Released]), Release(q, t))
    ensures Release(q, t).tickets[t] == Released
    ensures |Release(q, t).tickets| == |q.tickets|
    ensures Release(q, t).aborted == q.aborted
  {
    GiveBackKeeps(q, t);
    DispatchKeeps(GiveBack(q, t));
  }

  // ---- cancellation ----

  /** The waiters an abort leaves, in their order. */
  function Surviving<S, E>(waiters: seq<Waiter<S>>, aborted: map<S, E>): seq<Waiter<S>> {
    if waiters == [] then []
    else (if waiters[0].signal in aborted then [] else [waiters[0]]) + Surviving(waiters[1..], aborted)
  }

  lemma QueuedWithout<S>(waiters: seq<Waiter<S>>, at: nat, t: nat)
    requires at < |waiters| && Queued(waiters, t) && waiters[at].ticket != t
    ensures Queued(waiters[..at] + waiters[at + 1..], t)
  {
    var a :| 0 <= a < |waiters| && waiters[a].ticket == t;
    assert (waiters[..at] + waiters[at + 1..])[if a < at then a else a - 1].ticket == t;
  }

  lemma RejectAtKeepsQueue<S, E>(q: Sched<S, E>, at: nat)
    requires at < |q.waiters| && q.waiters[at].signal in q.aborted
    requires QueueOrdered(q)
    ensures QueueOrdered(RejectAt(q, at))
  {
    var q' := RejectAt(q, at);
    var ws := q'.waiters;
    assert forall a :: 0 <= a < |ws| ==> ws[a] == q.waiters[if a < at then a else a + 1];
    forall t | 0 <= t < |q'.tickets| && q'.tickets[t].Waiting?
      ensures Queued(ws, t)
    {
      QueuedWithout(q.waiters, at, t);
    }
  }

  lemma RejectAtKeeps<S, E>(q: Sched<S, E>, at: nat)
    requires at < |q.waiters| && q.waiters[at].signal in q.aborted
    requires Coherent(q)
    ensures Coherent(RejectAt(q, at))
    ensures OnlyWaitingMoves(q, RejectAt(q, at))
    ensures |RejectAt(q, at).tickets| == |q.tickets|
  {
    RejectAtKeepsQueue(q, at);
    RejectAtKeepsFairness(q, at);
    RejectAtMoves(q, at);
    CountUpdate(q.tickets, q.waiters[at].ticket, Rejected(q.aborted[q.waiters[at].signal]));
    hide QueueOrdered, FirstInFirstOut, OnlyWaitingMoves;
  }

  lemma RejectAtKeepsFairness<S, E>(q: Sched<S, E>, at: nat)
    requires at < |q.waiters| && q.waiters[at].signal in q.aborted
    requires QueueOrdered(q) && FirstInFirstOut(q)
    ensures FirstInFirstOut(RejectAt(q, at))
  {
    var q' := RejectAt(q, at);
    assert q'.waiters != [] ==> q.waiters[0].ticket <= q'.waiters[0].ticket;
    assert q.waiters[at].ticket < |q.tickets| && q.tickets[q.waiters[at].ticket].Waiting?;
    hide QueueOrdered;
  }

  lemma RejectAtMoves<S, E>(q: Sched<S, E>, at: nat)
    requires at < |q.waiters| && q.waiters[at].signal in q.aborted
    requires QueueOrdered(q)
    ensures OnlyWaitingMoves(q, RejectAt(q, at)) && |RejectAt(q, at).tickets| == |q.tickets|
    ensures q.waiters[at].ticket < |q.tickets| && q.tickets[q.waiters[at].ticket].Waiting?
  {
    assert q.waiters[at].ticket < |q.tickets| && q.tickets[q.waiters[at].ticket].Waiting?;
    hide QueueOrdered;
  }

  lemma {:induction false} FlushShape<S, E>(q: Sched<S, E>, done: nat)
    requires done <= |q.waiters|
    ensures Flush(q, done) == q.(waiters := Flush(q, done).waiters, tickets := Flush(q, done).tickets)
    ensures |Flush(q, done).tickets| == |q.tickets|
    ensures Flush(q, done).waiters == q.waiters[..done] + Surviving(q.waiters[done..], q.aborted)
    decreases |q.waiters| - done
  {
    if done == |q.waiters| {
    } else if q.waiters[done].signal in q.aborted {
      var q' := RejectAt(q, done);
      FlushShape(q', done);
      assert q'.waiters[..done] == q.waiters[..done];
      assert q'.waiters[done..] == q.waiters[done..][1..];
    } else {
      FlushShape(q, done + 1);
      assert q.waiters[done + 1..] == q.waiters[done..][1..];
    }
  }

  lemma MovesCompose<S, E>(q: Sched<S, E>, q1: Sched<S, E>, q2: Sched<S, E>)
    requires OnlyWaitingMoves(q, q1) && OnlyWaitingMoves(q1, q2)
    ensures OnlyWaitingMoves(q, q2)
  {}

  lemma {:induction false} FlushKeeps<S, E>(q: Sched<S, E>, done: nat)
    requires done <= |q.waiters| && Coherent(q)
    ensures Coherent(Flush(q, done))
    ensures OnlyWaitingMoves(q, Flush(q, done))
    decreases |q.waiters| - done
  {
    if done == |q.waiters| {
    } else if q.waiters[done].signal in q.aborted {
      var q' := RejectAt(q, done);
      RejectAtKeeps(q, done);
      FlushKeeps(q', done);
      MovesCompose(q, q', Flush(q', done));
    } else {
      FlushKeeps(q, done + 1);
    }
  }

  lemma {:induction false} FlushRejects<S, E>(q: Sched<S, E>, done: nat, a: nat)
    requires done <= a < |q.waiters| && q.waiters[a].signal in q.aborted
    requires Coherent(q)
    ensures |Flush(q, done).tickets| == |q.tickets|
    ensures Flush(q, done).tickets[q.waiters[a].ticket] == Rejected(q.aborted[q.waiters[a].signal])
    decreases |q.waiters| - done
  {
    FlushShape(q, done);
    if q.waiters[done].signal in q.aborted {
      var q' := RejectAt(q, done);
      RejectAtKeeps(q, done);
      FlushShape(q', done);
      if a == done {
        FlushKeeps(q', done);
      } else {
        assert q'.waiters[a - 1] == q.waiters[a];
        FlushRejects(q', done, a - 1);
      }
    } else {
      FlushRejects(q, done + 1, a);
    }
  }

  lemma {:induction false} SurvivorsLive<S, E>(waiters: seq<Waiter<S>>, aborted: map<S, E>)
    ensures forall a :: 0 <= a < |Surviving(waiters, aborted)| ==> Surviving(waiters, aborted)[a].signal !in aborted
  {
    if waiters != [] {
      SurvivorsLive(waiters[1..], aborted);
    }
  }

  /** Dispatching after a cancellation finds nothing to do: if anybody waits, every permit is in use. */
  lemma AbortGrantsNothing<S, E>(q: Sched<S, E>, signals: set<S>, reason: E)
    requires WorkConserving(q)
    ensures Abort(q, signals, reason) == Flush(Mark(q, signals, reason), 0)
    ensures Abort(q, signals, reason).waiters == Surviving(q.waiters, Abort(q, signals, reason).aborted)
    ensures Abort(q, signals, reason).inUse == q.inUse
    ensures WorkConserving(Abort(q, signals, reason))
  {
    var m := Mark(q, signals, reason);
    FlushShape(m, 0);
    assert m.waiters[0..] == m.waiters && m.waiters[..0] == [];
  }

  /**
   Cancellation is exact and grants nothing: every waiter of a fired signal is rejected
   with that signal's reason, the rest keep their places, and no counter moves.
   */
  lemma AbortKeeps<S, E>(q: Sched<S, E>, signals: set<S>, reason: E)
    requires Valid(q)
    ensures var q' := Abort(q, signals, reason);
            && Valid(q')
            && OnlyWaitingMoves(q, q')
            && q' == q.(waiters := Surviving(q.waiters, q'.aborted), tickets := q'.tickets, aborted := q'.aborted)
            && |q'.tickets| == |q.tickets|
            && q'.aborted == Mark(q, signals, reason).aborted
  {
    var m := Mark(q, signals, reason);
    AbortGrantsNothing(q, signals, reason);
    FlushShape(m, 0);
    SurvivorsLive(m.waiters, m.aborted);
    FlushKeeps(m, 0);
  }

  lemma {:induction false} SurvivorStays<S, E>(waiters: seq<Waiter<S>>, aborted: map<S, E>, a: nat)
    requires a < |waiters| && waiters[a].signal !in aborted
    ensures waiters[a] in Surviving(waiters, aborted)
  {
    if a > 0 {
      SurvivorStays(waiters[1..], aborted, a - 1);
    }
  }

  /** Nobody is rejected but waiters of a fired signal. */
  lemma AbortRejectsOnly<S, E>(q: Sched<S, E>, signals: set<S>, reason: E, t: nat) returns (a: nat)
    requires Valid(q) && t < |q.tickets| && q.tickets[t].Waiting?
    ensures a < |q.waiters| && q.waiters[a].ticket == t
    ensures |Abort(q, signals, reason).tickets| == |q.tickets|
    ensures Abort(q, signals, reason).tickets[t] ==
            if q.waiters[a].signal in Abort(q, signals, reason).aborted
            then Rejected(Abort(q, signals, reason).aborted[q.waiters[a].signal])
            else Waiting
  {
    assert Queued(q.waiters, t);
    a :| 0 <= a < |q.waiters| && q.waiters[a].ticket == t;
    AbortKeeps(q, signals, reason);
    var q' := Abort(q, signals, reason);
    if q.waiters[a].signal in q'.aborted {
      AbortRejects(q, signals, reason, a);
    } else {
      SurvivorStays(q.waiters, q'.aborted, a);
      var b :| 0 <= b < |q'.waiters| && q'.waiters[b] == q.waiters[a];
    }
  }

  lemma AbortRejects<S, E>(q: Sched<S, E>, signals: set<S>, reason: E, a: nat)
    requires Valid(q) && a < |q.waiters|
    requires q.waiters[a].signal in Mark(q, signals, reason).aborted
    ensures |Abort(q, signals, reason).tickets| == |q.tickets|
    ensures Abort(q, signals, reason).tickets[q.waiters[a].ticket]
            == Rejected(Mark(q, signals, reason).aborted[q.waiters[a].signal])
  {
    AbortGrantsNothing(q, signals, reason);
    FlushRejects(Mark(q, signals, reason), 0, a);
  }

  // ---- whole histories ----

  datatype Op<S, E> =
    | DoAcquire(signal: S)
    | DoActivate(t: nat)
    | DoRelease(t: nat)
    | DoAbort(signals: set<S>, reason: E)

  function Apply<S, E>(q: Sched<S, E>, op: Op<S, E>): Sched<S, E> {
    match op
    case DoAcquire(signal) => Acquire(q, signal)
    case DoActivate(t) => Activate(q, t)
    case DoRelease(t) => Release(q, t)
    case DoAbort(signals, reason) => Abort(q, signals, reason)
  }

  function ApplyAll<S, E>(q: Sched<S, E>, ops: seq<Op<S, E>>): Sched<S, E>
    decreases |ops|
  {
    if ops == [] then q else ApplyAll(Apply(q, ops[0]), ops[1..])
  }

  /** The most permits that were active at once, at any moment of a history. */
  function MostActive<S, E>(q: Sched<S, E>, ops: seq<Op<S, E>>): nat
    decreases |ops|
  {
    if ops == [] then q.active else Max(q.active, MostActive(Apply(q, ops[0]), ops[1..]))
  }

  lemma {:induction false} DispatchKeepsPeak<S, E>(q: Sched<S, E>)
    ensures Dispatch(q).peak == q.peak && Dispatch(q).active == q.active
    decreases |q.waiters|
  {
    if q.inUse < q.concurrency && q.waiters != [] {
      DispatchKeepsPeak(AdmitHead(q));
    }
  }

  lemma ApplyRaisesPeak<S, E>(q: Sched<S, E>, op: Op<S, E>)
    requires q.active <= q.peak
    ensures Apply(q, op).peak == Max(q.peak, Apply(q, op).active)
  {
    hide Dispatch, Flush;
    match op
    case DoAcquire(signal) => DispatchKeepsPeak(Enqueue(q, signal));
    case DoActivate(t) =>
    case DoRelease(t) =>
      if t < |q.tickets| && Held(q.tickets[t]) && q.inUse > 0 {
        DispatchKeepsPeak(GiveBack(q, t));
      }
    case DoAbort(signals, reason) =>
      FlushShape(Mark(q, signals, reason), 0);
      DispatchKeepsPeak(Flush(Mark(q, signals, reason), 0));
  }

  /** The reported peak is the most callbacks that ever ran at once. */
  lemma {:induction false} PeakIsMostActive<S, E>(q: Sched<S, E>, ops: seq<Op<S, E>>)
    requires q.active <= q.peak
    ensures ApplyAll(q, ops).peak == Max(q.peak, MostActive(q, ops))
    decreases |ops|
  {
    hide Apply;
    if ops != [] {
      ApplyRaisesPeak(q, ops[0]);
      PeakIsMostActive(Apply(q, ops[0]), ops[1..]);
    }
  }

  /**
   A request is answered at once: granted if a permit is free, refused with the reason if its
   signal has fired, and queued otherwise; no other ticket changes.
   */
  lemma AcquireSays<S, E>(q: Sched<S, E>, signal: S)
    requires Valid(q)
    ensures var q' := Acquire(q, signal);
            && |q'.tickets| == |q.tickets| + 1 && q'.tickets[..|q.tickets|] == q.tickets
            && q'.tickets[|q.tickets|] ==
               (if signal in q.aborted then Rejected(q.aborted[signal])
                else if q.inUse < q.concurrency then Granted
                else Waiting)
  {
    if signal !in q.aborted && q.inUse < q.concurrency {
      assert q.waiters == [];
      var q1 := Enqueue(q, signal);
      assert Dispatch(AdmitHead(q1)) == AdmitHead(q1);
    }
  }

  /** Permit conservation, FIFO order and work conservation hold after every history. */
  lemma {:induction false} HistoryKeepsSchedulerValid<S, E>(q: Sched<S, E>, ops: seq<Op<S, E>>)
    requires Valid(q)
    ensures Valid(ApplyAll(q, ops))
    decreases |ops|
  {
    if ops != [] {
      match ops[0] {
        case DoAcquire(signal) => AcquireKeeps(q, signal);
        case DoActivate(t) => if CanActivate(q, t) { ActivateKeeps(q, t); }
        case DoRelease(t) => if t < |q.tickets| && Held(q.tickets[t]) { ReleaseKeeps(q, t); }
        case DoAbort(signals, reason) => AbortKeeps(q, signals, reason);
      }
      HistoryKeepsSchedulerValid(Apply(q, ops[0]), ops[1..]);
    }
  }

  /** In every reachable state, no ticket waits behind a granted younger one, nor beside a free permit. */
  lemma NobodyOvertakes<S, E>(concurrency: nat, ops: seq<Op<S, E>>, older: nat, younger: nat)
    requires 1 <= concurrency
    requires var q := ApplyAll(Initial(concurrency), ops);
             older < younger < |q.tickets| && !q.tickets[younger].Waiting? && !q.tickets[younger].Rejected?
    ensures var q := ApplyAll(Initial(concurrency), ops);
            && !q.tickets[older].Waiting?
            && (q.inUse < concurrency ==> forall t :: 0 <= t < |q.tickets| ==> !q.tickets[t].Waiting?)
  {
    HistoryKeepsSchedulerValid(Initial(concurrency), ops);
    HistoryKeepsConcurrency<S, E>(Initial(concurrency), ops);
    var q := ApplyAll(Initial(concurrency), ops);
    assert q.tickets[older].Waiting? ==> Queued(q.waiters, older);
    assert forall t :: 0 <= t < |q.tickets| && q.tickets[t].Waiting? ==> Queued(q.waiters, t);
  }

  lemma {:induction false} HistoryKeepsConcurrency<S, E>(q: Sched<S, E>, ops: seq<Op<S, E>>)
    requires Valid(q)
    ensures ApplyAll(q, ops).concurrency == q.concurrency
    decreases |ops|
  {
    if ops != [] {
      HistoryKeepsSchedulerValid(q, ops[..1]);
      assert ApplyAll(q, ops[..1]) == Apply(q, ops[0]) by { assert ops[..1][1..] == []; }
      match ops[0] {
        case DoAcquire(signal) => AcquireKeeps(q, signal);
        case DoActivate(t) =>
        case DoRelease(t) => if t < |q.tickets| && Held(q.tickets[t]) { ReleaseKeeps(q, t); }
        case DoAbort(signals, reason) => AbortKeeps(q, signals, reason);
      }
      HistoryKeepsConcurrency(Apply(q, ops[0]), ops[1..]);
    }
  }

  // ---- the imperative scheduler ----

  lemma MarkKeeps<S, E>(q: Sched<S, E>, signals: set<S>, reason: E)
    requires Valid(q)
    ensures Coherent(Mark(q, signals, reason)) && WorkConserving(Mark(q, signals, reason))
  {}

  lemma FlushStep<S, E>(q: Sched<S, E>, done: nat)
    requires done <= |q.waiters|
    ensures done == |q.waiters| ==> Flush(q, done) == q
    ensures done < |q.waiters| && q.waiters[done].signal in q.aborted ==>
              |RejectAt(q, done).waiters| == |q.waiters| - 1 && Flush(q, done) == Flush(RejectAt(q, done), done)
    ensures done < |q.waiters| && q.waiters[done].signal !in q.aborted ==> Flush(q, done) == Flush(q, done + 1)
  {}

  /** Rejecting a waiter frees no permit, so the dispatch after it grants nothing. */
  lemma RejectedDispatchesNothing<S, E>(q: Sched<S, E>, at: nat)
    requires at < |q.waiters| && q.waiters[at].signal in q.aborted && WorkConserving(q)
    ensures WorkConserving(RejectAt(q, at)) && Dispatch(RejectAt(q, at)) == RejectAt(q, at)
  {}

  lemma CoherentIsOrdered<S, E>(q: Sched<S, E>)
    requires Coherent(q)
    ensures QueueOrdered(q)
  {}

  /** A cancellation marks its signals and flushes; nothing is granted on the way. */
  lemma AbortStarts<S, E>(q: Sched<S, E>, signals: set<S>, reason: E)
    requires Valid(q)
    ensures var m := Mark(q, signals, reason);
            Coherent(m) && WorkConserving(m) && Flush(m, 0) == Abort(q, signals, reason)
    ensures Valid(Abort(q, signals, reason))
  {
    AbortKeeps(q, signals, reason);
    AbortGrantsNothing(q, signals, reason);
    MarkKeeps(q, signals, reason);
  }

  class PermitScheduler<S(==), E> {
    const concurrency: nat
    var inUse: nat
    var active: nat
    var peak: nat
    var waiters: seq<Waiter<S>>
    var tickets: seq<Ticket<E>>
    var aborted: map<S, E>

    ghost function View(): Sched<S, E>
      reads this
    {
      Sched(concurrency, inUse, active, peak, waiters, tickets, aborted)
    }

    constructor (concurrency: nat)
      requires 1 <= concurrency
      ensures View() == Initial(concurrency) && Valid(View())
    {
      this.concurrency := concurrency;
      inUse, active, peak, waiters, tickets, aborted := 0, 0, 0, [], [], map[];
    }

    /** Admits from the head while a permit is free. */
    method DispatchWaiters()
      requires QueueOrdered(View())
      modifies `inUse, `waiters, `tickets
      ensures View() == Dispatch(old(View()))
    {
      ghost var goal := Dispatch(View());
      while inUse < concurrency && waiters != []
        invariant Dispatch(View()) == goal
        invariant forall a :: 0 <= a < |waiters| ==> waiters[a].ticket < |tickets|
        decreases |waiters|
      {
        hide SetTicket;
        AdmitFirst();
      }
    }

    method AdmitFirst()
      requires waiters != [] && waiters[0].ticket < |tickets|
      modifies `inUse, `waiters, `tickets
      ensures View() == AdmitHead(old(View()))
      ensures waiters == old(waiters)[1..] && |tickets| == |old(tickets)|
    {
      var head := waiters[0];
      waiters := waiters[1..];
      if head.signal in aborted {
        tickets := tickets[head.ticket := Rejected(aborted[head.signal])];
      } else {
        inUse := inUse + 1;
        tickets := tickets[head.ticket := Granted];
      }
    }

    method AcquirePermit(signal: S) returns (ticket: nat)
      requires Valid(View())
      modifies `inUse, `waiters, `tickets
      ensures Valid(View())
      ensures View() == Acquire(old(View()), signal) && ticket == |old(tickets)|
    {
      AcquireKeeps(View(), signal);
      ticket := |tickets|;
      if signal in aborted {
        tickets := tickets + [Rejected(aborted[signal])];
        return;
      }
      EnqueueKeeps(View(), signal);
      tickets := tickets + [Waiting];
      waiters := waiters + [Waiter(ticket, signal)];
      DispatchWaiters();
    }

    /** Refused on a released permit; activating twice changes nothing. */
    method ActivatePermit(ticket: nat) returns (ok: bool)
      requires Valid(View())
      requires ticket < |tickets| && WasGranted(tickets[ticket])
      modifies `active, `peak, `tickets
      ensures Valid(View())
      ensures ok <==> !old(tickets)[ticket].Released?
      ensures View() == Activate(old(View()), ticket)
    {
      if tickets[ticket].Released? {
        return false;
      }
      ActivateKeeps(View(), ticket);
      if tickets[ticket].Executing? {
        assert tickets == tickets[ticket := Executing];
        return true;
      }
      tickets := tickets[ticket := Executing];
      active := active + 1;
      peak := Max(peak, active);
      return true;
    }

    /** Releasing twice changes nothing; releasing hands the permit to the head of the queue. */
    method ReleasePermit(ticket: nat)
      requires Valid(View())
      requires ticket < |tickets| && WasGranted(tickets[ticket])
      modifies `inUse, `active, `waiters, `tickets
      ensures Valid(View())
      ensures View() == Release(old(View()), ticket)
    {
      if tickets[ticket].Released? {
        return;
      }
      ReleaseKeeps(View(), ticket);
      GiveBackKeeps(View(), ticket);
      CoherentIsOrdered(GiveBack(View(), ticket));
      hide Valid, Undispatched, Coherent, QueueOrdered, Dispatch, OnlyGrants, OnlyWaitingMoves;
      var executing := tickets[ticket].Executing?;
      tickets := tickets[ticket := Released];
      inUse := inUse - 1;
      if executing {
        active := active - 1;
      }
      assert View() == GiveBack(old(View()), ticket);
      DispatchWaiters();
    }

    /** What one abort listener does to its own waiter before it dispatches. */
    method RejectWaiter(at: nat)
      requires at < |waiters| && waiters[at].signal in aborted
      requires QueueOrdered(View())
      modifies `waiters, `tickets
      ensures View() == RejectAt(old(View()), at)
    {
      var gone := waiters[at];
      waiters := waiters[..at] + waiters[at + 1..];
      tickets := tickets[gone.ticket := Rejected(aborted[gone.signal])];
    }

    /**
     Fires signals together. As in the source, every abort listener removes its own
     waiter and then dispatches, in the middle of the other listeners; the outcome is
     the simple one: reject all of them, keep the rest.
     */
    method AbortSignals(signals: set<S>, reason: E)
      requires Valid(View())
      modifies `inUse, `waiters, `tickets, `aborted
      ensures Valid(View())
      ensures View() == Abort(old(View()), signals, reason)
    {
      hide Coherent, WorkConserving, Abort, Flush, RejectAt, Dispatch, Valid, QueueOrdered, OnlyWaitingMoves;
      AbortStarts(View(), signals, reason);
      ghost var goal := Abort(View(), signals, reason);
      ghost var marked := Mark(View(), signals, reason);
      aborted := (map s | s in signals :: reason) + aborted;
      assert View() == marked;
      hide Mark;
      var next := 0;
      while next < |waiters|
        invariant next <= |View().waiters| && View().waiters == waiters && View().aborted == aborted
        invariant Coherent(View()) && WorkConserving(View())
        invariant Flush(View(), next) == goal
        decreases |waiters| - next
      {
        FlushStep(View(), next);
        if waiters[next].signal in aborted {
          RejectAtKeeps(View(), next);
          RejectedDispatchesNothing(View(), next);
          CoherentIsOrdered(View());
          RejectWaiter(next);
          CoherentIsOrdered(View());
          DispatchWaiters();
        } else {
          next := next + 1;
        }
      }
      FlushStep(View(), next);
    }
  }
}
