/**
 The launch ledger of one execution root (execution-budget.ts).

 `Ledger` is the value the closures of the source share. The functions on it say
 what each operation does; the class updates the same fields in place and is proved
 against those functions. The lemmas state what the ledger is for: the cap is never
 exceeded, and an unreleased reservation can always be spent.
 */
module ExecutionBudget {
  import opened Wrappers

  /** The largest safe integer of the host language. */
  const MAX_SAFE_INTEGER: int := 9007199254740991

  /** A reservation handed to a caller: a record of this root, or of some other one. */
  datatype Reservation = Owned(id: nat) | Foreign

  /** Fresh work is launched and charged; a replayed invocation only projects evidence. */
  datatype Kind = Fresh | Replayed

  datatype Account = Account(remaining: nat, active: bool)

  datatype BudgetError =
    | CapExceeded
    | ForeignReservation
    | BadCount
    | DeadlinePassed

  datatype Ledger = Ledger(
    totalAgents: Option<nat>,
    sequence: nat,
    charged: nat,
    replayed: nat,
    reserved: int,
    accounts: seq<Account>)

  /** What every active account still holds, together. */
  function Held(accounts: seq<Account>): (held: nat)
  {
    if accounts == [] then 0
    else Held(accounts[..|accounts| - 1])
         + if accounts[|accounts| - 1].active then accounts[|accounts| - 1].remaining else 0
  }

  /** `reserved` is exactly what the active accounts hold, and the cap covers everything spent or promised. */
  ghost predicate Valid(l: Ledger) {
    && l.reserved == Held(l.accounts)
    && (forall k :: 0 <= k < |l.accounts| && !l.accounts[k].active ==> l.accounts[k].remaining == 0)
    && (l.totalAgents.Some? ==> l.charged + l.reserved <= l.totalAgents.value)
  }

  function Initial(totalAgents: Option<nat>): Ledger {
    Ledger(totalAgents, 0, 0, 0, 0, [])
  }

  function Remaining(l: Ledger): Option<int> {
    match l.totalAgents
    case None => None
    case Some(total) => Some(total - l.charged - l.reserved)
  }

  function Consume(l: Ledger, r: Reservation): Result<Ledger, BudgetError> {
    match r
    case Foreign => Failure(ForeignReservation)
    case Owned(id) =>
      if id >= |l.accounts| then Failure(ForeignReservation)
      else if !l.accounts[id].active || l.accounts[id].remaining < 1 then Failure(CapExceeded)
      else
        Success(l.(accounts := l.accounts[id := l.accounts[id].(remaining := l.accounts[id].remaining - 1)],
                   reserved := l.reserved - 1))
  }

  /** A new reservation is always the next account. */
  function Reserve(l: Ledger, count: int): Result<Ledger, BudgetError> {
    if count < 1 || count > MAX_SAFE_INTEGER then Failure(BadCount)
    else
      var left := Remaining(l);
      if left.Some? && count > left.value then Failure(CapExceeded)
      else Success(l.(accounts := l.accounts + [Account(count, true)], reserved := l.reserved + count))
  }

  function Release(l: Ledger, r: Reservation): Result<Ledger, BudgetError> {
    match r
    case Foreign => Failure(ForeignReservation)
    case Owned(id) =>
      if id >= |l.accounts| then Failure(ForeignReservation)
      else if !l.accounts[id].active then Success(l)
      else Success(l.(accounts := l.accounts[id := Account(0, false)],
                      reserved := l.reserved - l.accounts[id].remaining))
  }

  /** Hands out the next sequence number; a replayed invocation spends its reservation here. */
  function Allocate(l: Ledger, kind: Kind, r: Option<Reservation>): Result<Ledger, BudgetError> {
    if kind.Fresh? then Success(l.(sequence := l.sequence + 1))
    else
      match r
      case None => Success(l.(replayed := l.replayed + 1, sequence := l.sequence + 1))
      case Some(reservation) =>
        match Consume(l, reservation)
        case Failure(e) => Failure(e)
        case Success(l') => Success(l'.(replayed := l'.replayed + 1, sequence := l'.sequence + 1))
  }

  function Charge(l: Ledger, r: Option<Reservation>): Result<Ledger, BudgetError> {
    match r
    case Some(reservation) =>
      (match Consume(l, reservation)
       case Failure(e) => Failure(e)
       case Success(l') => Success(l'.(charged := l'.charged + 1)))
    case None =>
      if l.totalAgents.Some? && l.charged + l.reserved >= l.totalAgents.value then Failure(CapExceeded)
      else Success(l.(charged := l.charged + 1))
  }

  // ---- one account changes: what all of them hold together changes by as much ----

  lemma {:induction false} HeldUpdate(accounts: seq<Account>, id: nat, a: Account)
    requires id < |accounts|
    ensures Held(accounts[id := a]) ==
            Held(accounts)
            - (if accounts[id].active then accounts[id].remaining else 0)
            + (if a.active then a.remaining else 0)
  {
    var last := |accounts| - 1;
    if id == last {
      assert accounts[id := a][..last] == accounts[..last];
    } else {
      assert accounts[id := a][..last] == accounts[..last][id := a];
      HeldUpdate(accounts[..last], id, a);
    }
  }

  lemma HeldAppend(accounts: seq<Account>, a: Account)
    ensures Held(accounts + [a]) == Held(accounts) + if a.active then a.remaining else 0
  {
    assert (accounts + [a])[..|accounts|] == accounts;
  }

  // ---- every operation keeps the ledger valid ----

  lemma ConsumeValid(l: Ledger, r: Reservation)
    requires Valid(l) && Consume(l, r).Success?
    ensures var l' := Consume(l, r).value;
            && l'.reserved == Held(l'.accounts) == l.reserved - 1
            && (forall k :: 0 <= k < |l'.accounts| && !l'.accounts[k].active ==> l'.accounts[k].remaining == 0)
            && l' == l.(accounts := l'.accounts, reserved := l'.reserved)
  {
    HeldUpdate(l.accounts, r.id, l.accounts[r.id].(remaining := l.accounts[r.id].remaining - 1));
  }

  lemma ReserveValid(l: Ledger, count: int)
    requires Valid(l) && Reserve(l, count).Success?
    ensures Valid(Reserve(l, count).value)
  {
    HeldAppend(l.accounts, Account(count, true));
  }

  lemma ReleaseValid(l: Ledger, r: Reservation)
    requires Valid(l) && Release(l, r).Success?
    ensures Valid(Release(l, r).value)
  {
    HeldUpdate(l.accounts, r.id, Account(0, false));
  }

  lemma AllocateValid(l: Ledger, kind: Kind, r: Option<Reservation>)
    requires Valid(l) && Allocate(l, kind, r).Success?
    ensures Valid(Allocate(l, kind, r).value)
  {
    if kind.Replayed? && r.Some? {
      ConsumeValid(l, r.value);
    }
  }

  lemma ChargeValid(l: Ledger, r: Option<Reservation>)
    requires Valid(l) && Charge(l, r).Success?
    ensures Valid(Charge(l, r).value)
  {
    if r.Some? {
      ConsumeValid(l, r.value);
    }
  }

  // ---- whole histories of one ledger ----

  datatype Op =
    | DoReserve(count: int)
    | DoRelease(r: Reservation)
    | DoAllocate(kind: Kind, account: Option<Reservation>)
    | DoCharge(account: Option<Reservation>)

  function Attempt(l: Ledger, op: Op): Result<Ledger, BudgetError> {
    match op
    case DoReserve(count) => Reserve(l, count)
    case DoRelease(r) => Release(l, r)
    case DoAllocate(kind, a) => Allocate(l, kind, a)
    case DoCharge(a) => Charge(l, a)
  }

  /** A refused operation throws and leaves the ledger as it was. */
  function Apply(l: Ledger, op: Op): Ledger {
    match Attempt(l, op)
    case Success(l') => l'
    case Failure(_) => l
  }

  function ApplyAll(l: Ledger, ops: seq<Op>): Ledger
    decreases |ops|
  {
    if ops == [] then l else ApplyAll(Apply(l, ops[0]), ops[1..])
  }

  /** Cap safety over every history: spent plus promised never passes the cap, and `reserved` stays the exact sum. */
  lemma {:induction false} HistoryKeepsLedgerValid(l: Ledger, ops: seq<Op>)
    requires Valid(l)
    ensures Valid(ApplyAll(l, ops))
    decreases |ops|
  {
    if ops != [] {
      match ops[0] {
        case DoReserve(count) => if Reserve(l, count).Success? { ReserveValid(l, count); }
        case DoRelease(r) => if Release(l, r).Success? { ReleaseValid(l, r); }
        case DoAllocate(kind, a) => if Allocate(l, kind, a).Success? { AllocateValid(l, kind, a); }
        case DoCharge(a) => if Charge(l, a).Success? { ChargeValid(l, a); }
      }
      HistoryKeepsLedgerValid(Apply(l, ops[0]), ops[1..]);
    }
  }

  // ---- the numbers of the ledger as the host's numbers ----

  lemma {:induction false} HeldAtLeast(accounts: seq<Account>, id: nat)
    requires id < |accounts| && accounts[id].active
    ensures accounts[id].remaining <= Held(accounts)
  {
    var last := |accounts| - 1;
    if id != last {
      HeldAtLeast(accounts[..last], id);
    }
  }

  /** Under a cap no number ever leaves the safe integers, so the host's arithmetic is exact. */
  lemma CappedStaysSafe(totalAgents: nat, ops: seq<Op>, id: nat)
    requires 1 <= totalAgents <= MAX_SAFE_INTEGER
    ensures var l := ApplyAll(Initial(Some(totalAgents)), ops);
            && 0 <= l.reserved && l.charged + l.reserved <= totalAgents <= MAX_SAFE_INTEGER
            && (id < |l.accounts| ==> l.accounts[id].remaining <= totalAgents)
  {
    HistoryKeepsLedgerValid(Initial(Some(totalAgents)), ops);
    CapStays(Initial(Some(totalAgents)), ops);
    var l := ApplyAll(Initial(Some(totalAgents)), ops);
    if id < |l.accounts| && l.accounts[id].active {
      HeldAtLeast(l.accounts, id);
    }
  }

  lemma {:induction false} CapStays(l: Ledger, ops: seq<Op>)
    ensures ApplyAll(l, ops).totalAgents == l.totalAgents
    decreases |ops|
  {
    if ops != [] {
      CapStays(Apply(l, ops[0]), ops[1..]);
    }
  }

  /**
   Without a cap `reserved` may leave them, and rounding then makes it another number. No
   operation tells: whatever it is, each is accepted and refused alike, with the same effect
   on everything else.
   */
  lemma UncappedIgnoresReserved(l: Ledger, op: Op, other: int)
    requires l.totalAgents.None?
    ensures Remaining(l.(reserved := other)) == Remaining(l) == None
    ensures var a, b := Attempt(l, op), Attempt(l.(reserved := other), op);
            match a
            case Success(l') => b.Success? && b.value.(reserved := l'.reserved) == l'
            case Failure(e) => b == Failure(e)
  {}

  // ---- what is accepted, and what it leaves ----

  predicate Accepted(l: Ledger, op: Op) {
    Attempt(l, op).Success?
  }

  predicate HasLeft(l: Ledger, r: Reservation) {
    r.Owned? && r.id < |l.accounts| && l.accounts[r.id].active && l.accounts[r.id].remaining >= 1
  }

  /**
   An operation is accepted exactly when the cap, if there is one, covers it beside all that
   is charged and all that reservations still hold; a spend, exactly when its own reservation
   is active and has something left; and a release, when the reservation is of this root.
   */
  lemma AcceptedExactly(l: Ledger, op: Op)
    requires Valid(l)
    ensures Accepted(l, op) <==>
            match op
            case DoReserve(count) =>
              && 1 <= count <= 9_007_199_254_740_991
              && (l.totalAgents.Some? ==> l.charged + Held(l.accounts) + count <= l.totalAgents.value)
            case DoRelease(r) => r.Owned? && r.id < |l.accounts|
            case DoAllocate(kind, r) => kind.Fresh? || r.None? || HasLeft(l, r.value)
            case DoCharge(r) =>
              if r.Some? then HasLeft(l, r.value)
              else l.totalAgents.Some? ==> l.charged + Held(l.accounts) < l.totalAgents.value
  {}

  /** The accounts an accepted operation leaves: a new one, an emptied one, or one with one launch less. */
  lemma AccountsAfter(l: Ledger, op: Op)
    requires Accepted(l, op)
    ensures var accounts := Apply(l, op).accounts;
            match op
            case DoReserve(count) => accounts == l.accounts + [Account(count, true)]
            case DoRelease(r) =>
              |accounts| == |l.accounts| && !accounts[r.id].active && accounts[r.id].remaining == (
                if l.accounts[r.id].active then 0 else l.accounts[r.id].remaining)
              && forall k :: 0 <= k < |accounts| && k != r.id ==> accounts[k] == l.accounts[k]
            case DoAllocate(kind, r) =>
              if kind.Fresh? || r.None? then accounts == l.accounts else OneLess(l.accounts, accounts, r.value.id)
            case DoCharge(r) => if r.None? then accounts == l.accounts else OneLess(l.accounts, accounts, r.value.id)
  {}

  predicate OneLess(before: seq<Account>, after: seq<Account>, id: nat) {
    && id < |before| == |after| && before[id].active && after[id].active
    && after[id].remaining == before[id].remaining - 1
    && forall k :: 0 <= k < |after| && k != id ==> after[k] == before[k]
  }

  /** How many of the operations of a history that `counts` names are accepted. */
  function CountAccepted(l: Ledger, ops: seq<Op>, counts: Op -> bool): nat
    decreases |ops|
  {
    if ops == [] then 0
    else (if counts(ops[0]) && Accepted(l, ops[0]) then 1 else 0) + CountAccepted(Apply(l, ops[0]), ops[1..], counts)
  }

  /** After any history: fresh counts accepted charges, replayed and the sequence number accepted invocations. */
  lemma {:induction false} HistoryCounts(l: Ledger, ops: seq<Op>)
    ensures var l' := ApplyAll(l, ops);
            && l'.charged == l.charged + CountAccepted(l, ops, (op: Op) => op.DoCharge?)
            && l'.replayed == l.replayed + CountAccepted(l, ops, (op: Op) => op.DoAllocate? && op.kind.Replayed?)
            && l'.sequence == l.sequence + CountAccepted(l, ops, (op: Op) => op.DoAllocate?)
    decreases |ops|
  {
    if ops != [] {
      OneCounts(l, ops[0]);
      hide Apply, Accepted;
      HistoryCounts(Apply(l, ops[0]), ops[1..]);
    }
  }

  lemma OneCounts(l: Ledger, op: Op)
    ensures var l' := Apply(l, op);
            && l'.charged == l.charged + (if op.DoCharge? && Accepted(l, op) then 1 else 0)
            && l'.replayed == l.replayed + (if op.DoAllocate? && op.kind.Replayed? && Accepted(l, op) then 1 else 0)
            && l'.sequence == l.sequence + (if op.DoAllocate? && Accepted(l, op) then 1 else 0)
  {}

  /** Why an operation is refused. */
  lemma RefusalSays(l: Ledger, op: Op)
    requires !Accepted(l, op)
    ensures Apply(l, op) == l
    ensures Attempt(l, op).error ==
            match op
            case DoReserve(count) => if 1 <= count <= 9_007_199_254_740_991 then CapExceeded else BadCount
            case DoRelease(_) => ForeignReservation
            case DoAllocate(_, r) =>
              if r.Some? && r.value.Owned? && r.value.id < |l.accounts| then CapExceeded else ForeignReservation
            case DoCharge(r) =>
              if r.Some? && (r.value.Foreign? || r.value.id >= |l.accounts|) then ForeignReservation else CapExceeded
  {}

  predicate Spends(op: Op, id: nat) {
    || op == DoCharge(Some(Owned(id)))
    || op == DoAllocate(Replayed, Some(Owned(id)))
  }

  function SpendCount(ops: seq<Op>, id: nat): nat {
    if ops == [] then 0 else (if Spends(ops[0], id) then 1 else 0) + SpendCount(ops[1..], id)
  }

  /** Whether every operation of a history that spends account `id` is accepted. */
  predicate EverySpendAccepted(l: Ledger, ops: seq<Op>, id: nat)
    decreases |ops|
  {
    ops == []
    || ((Spends(ops[0], id) ==> Attempt(l, ops[0]).Success?) && EverySpendAccepted(Apply(l, ops[0]), ops[1..], id))
  }

  /**
   A reservation funds exactly what it promised. Until it is released, whatever
   anybody else reserves, releases, allocates or charges in between, its spends are
   all accepted if and only if there are no more of them than it holds.
   */
  lemma {:induction false} ReservationFundsItsCharges(l: Ledger, ops: seq<Op>, id: nat)
    requires id < |l.accounts| && l.accounts[id].active
    requires DoRelease(Owned(id)) !in ops
    ensures EverySpendAccepted(l, ops, id) <==> SpendCount(ops, id) <= l.accounts[id].remaining
    decreases |ops|
  {
    if ops != [] {
      var l' := Apply(l, ops[0]);
      assert ops[0] in ops;
      assert l'.accounts[id] ==
             if Spends(ops[0], id) && l.accounts[id].remaining > 0
             then Account(l.accounts[id].remaining - 1, true) else l.accounts[id];
      if !(Spends(ops[0], id) && l.accounts[id].remaining == 0) {
        ReservationFundsItsCharges(l', ops[1..], id);
      }
    }
  }

  // ---- the imperative ledger ----

  class BudgetLedger {
    const totalAgents: Option<nat>
    const runtimeMs: Option<nat>
    const started: int
    var sequence: nat
    var charged: nat
    var replayed: nat
    var reserved: int
    var accounts: seq<Account>

    ghost function View(): Ledger
      reads this
    {
      Ledger(totalAgents, sequence, charged, replayed, reserved, accounts)
    }

    constructor (totalAgents: Option<nat>, runtimeMs: Option<nat>, now: int)
      requires totalAgents.Some? ==> 1 <= totalAgents.value <= MAX_SAFE_INTEGER
      requires runtimeMs.Some? ==> 1 <= runtimeMs.value <= MAX_SAFE_INTEGER
      ensures View() == Initial(totalAgents) && Valid(View())
      ensures this.runtimeMs == runtimeMs && this.started == now
    {
      this.totalAgents, this.runtimeMs, this.started := totalAgents, runtimeMs, now;
      sequence, charged, replayed, reserved, accounts := 0, 0, 0, 0, [];
    }

    method ConsumeReservation(r: Reservation) returns (failure: Option<BudgetError>)
      requires Valid(View())
      modifies `accounts, `reserved
      ensures match Consume(old(View()), r)
              case Failure(e) => failure == Some(e) && View() == old(View())
              case Success(l) => failure == None && View() == l
    {
      if r.Foreign? || r.id >= |accounts| {
        return Some(ForeignReservation);
      }
      var account := accounts[r.id];
      if !account.active || account.remaining < 1 {
        return Some(CapExceeded);
      }
      accounts := accounts[r.id := account.(remaining := account.remaining - 1)];
      reserved := reserved - 1;
      return None;
    }

    method ReserveAgents(count: int) returns (result: Result<Reservation, BudgetError>)
      requires Valid(View())
      modifies `accounts, `reserved
      ensures Valid(View())
      ensures match Reserve(old(View()), count)
              case Failure(e) => result == Failure(e) && View() == old(View())
              case Success(l) => result == Success(Owned(|old(accounts)|)) && View() == l
    {
      hide Held, Valid;
      if count < 1 || count > MAX_SAFE_INTEGER {
        return Failure(BadCount);
      }
      if totalAgents.Some? && count > totalAgents.value - charged - reserved {
        return Failure(CapExceeded);
      }
      ReserveValid(View(), count);
      accounts := accounts + [Account(count, true)];
      reserved := reserved + count;
      return Success(Owned(|accounts| - 1));
    }

    method ReleaseReservation(r: Reservation) returns (failure: Option<BudgetError>)
      requires Valid(View())
      modifies `accounts, `reserved
      ensures Valid(View())
      ensures match Release(old(View()), r)
              case Failure(e) => failure == Some(e) && View() == old(View())
              case Success(l) => failure == None && View() == l
    {
      if r.Foreign? || r.id >= |accounts| {
        return Some(ForeignReservation);
      }
      if !accounts[r.id].active {
        return None;
      }
      ReleaseValid(View(), r);
      reserved := reserved - accounts[r.id].remaining;
      accounts := accounts[r.id := Account(0, false)];
      return None;
    }

    method AllocateSequence(kind: Kind, r: Option<Reservation>) returns (result: Result<nat, BudgetError>)
      requires Valid(View())
      modifies `accounts, `reserved, `replayed, `sequence
      ensures Valid(View())
      ensures match Allocate(old(View()), kind, r)
              case Failure(e) => result == Failure(e) && View() == old(View())
              case Success(l) => result == Success(l.sequence) && View() == l
    {
      ghost var was := View();
      if Allocate(was, kind, r).Success? { AllocateValid(was, kind, r); }
      if kind.Replayed? {
        if r.Some? {
          var failure := ConsumeReservation(r.value);
          if failure.Some? {
            return Failure(failure.value);
          }
        }
        replayed := replayed + 1;
      }
      sequence := sequence + 1;
      return Success(sequence);
    }

    method ChargeLaunch(r: Option<Reservation>) returns (failure: Option<BudgetError>)
      requires Valid(View())
      modifies `accounts, `reserved, `charged
      ensures Valid(View())
      ensures match Charge(old(View()), r)
              case Failure(e) => failure == Some(e) && View() == old(View())
              case Success(l) => failure == None && View() == l
    {
      ghost var was := View();
      if Charge(was, r).Success? { ChargeValid(was, r); }
      if r.Some? {
        failure := ConsumeReservation(r.value);
        if failure.Some? {
          return;
        }
      } else if totalAgents.Some? && charged + reserved >= totalAgents.value {
        return Some(CapExceeded);
      }
      charged := charged + 1;
      return None;
    }

    /** The deadline is inclusive: exactly `runtimeMs` after the start is still in time. */
    method AssertDeadline(now: int) returns (failure: Option<BudgetError>)
      ensures failure == None <==> runtimeMs == None || now <= started + runtimeMs.value
      ensures failure != None ==> failure == Some(DeadlinePassed)
    {
      if runtimeMs.Some? && now - started > runtimeMs.value {
        return Some(DeadlinePassed);
      }
      return None;
    }
  }

  predicate PositiveAxis(value: Option<int>) {
    value.Some? ==> 1 <= value.value <= MAX_SAFE_INTEGER
  }

  function Axis(value: Option<int>): Option<nat>
    requires PositiveAxis(value)
  {
    match value
    case Some(v) => Some(v)
    case None => None
  }

  /** A ledger is made only for axes that are absent or positive safe integers. */
  method CreateExecutionBudget(totalAgents: Option<int>, runtimeMs: Option<int>, now: int)
      returns (result: Result<BudgetLedger, string>)
    ensures result.Success? <==>
              && (totalAgents.Some? ==> 1 <= totalAgents.value <= 9_007_199_254_740_991)
              && (runtimeMs.Some? ==> 1 <= runtimeMs.value <= 9_007_199_254_740_991)
    ensures result.Success? ==>
              && fresh(result.value) && Valid(result.value.View())
              && result.value.View() == Ledger(result.value.totalAgents, 0, 0, 0, 0, []) && result.value.started == now
              && (if totalAgents.None? then result.value.totalAgents == None
                  else result.value.totalAgents.Some? && result.value.totalAgents.value == totalAgents.value)
              && (if runtimeMs.None? then result.value.runtimeMs == None
                  else result.value.runtimeMs.Some? && result.value.runtimeMs.value == runtimeMs.value)
  {
    if totalAgents.Some? && (totalAgents.value < 1 || totalAgents.value > MAX_SAFE_INTEGER) {
      return Failure("totalAgents must be a positive safe integer");
    }
    if runtimeMs.Some? && (runtimeMs.value < 1 || runtimeMs.value > MAX_SAFE_INTEGER) {
      return Failure("runtimeMs must be a positive safe integer");
    }
    var ledger := new BudgetLedger(Axis(totalAgents), Axis(runtimeMs), now);
    return Success(ledger);
  }
}
