/**
 Version order of the release policy (check-pull-request-policy.ts), against
 sections 9 and 11 of Semantic Versioning 2.0.0. Numbers are compared as doubles.
 */
module Semver {
  import opened Wrappers
  import opened Numerals
  import opened Doubles
  import TextOrder

  /** `core` are the numbers as written, before any rounding. */
  datatype Version = Version(core: seq<nat>, prerelease: seq<string>)

  predicate HasCore(v: Version) {
    |v.core| == 3
  }

  function Sign(delta: int): int {
    if delta < 0 then -1 else if delta > 0 then 1 else 0
  }

  // ---- the comparison as the code makes it ----

  /** A comparison's answer; `None` is NaN. */
  type Order = Option<int>

  /** The sign of a difference of two doubles. */
  function Minus(left: Double, right: Double): Order {
    if left.Infinite? && right.Infinite? then None
    else if left.Infinite? then Some(1)
    else if right.Infinite? then Some(-1)
    else Some(Sign(left.value - right.value))
  }

  function CompareParts(left: string, right: string): Order {
    if IsNumeric(left) && IsNumeric(right) then Minus(Number(Value(left)), Number(Value(right)))
    else if IsNumeric(left) then Some(-1)
    else if IsNumeric(right) then Some(1)
    else if TextOrder.Before(left, right) then Some(-1) else Some(1)
  }

  function ComparePrerelease(left: seq<string>, right: seq<string>): Order {
    if left == [] && right == [] then Some(0)
    else if left == [] then Some(-1)
    else if right == [] then Some(1)
    else if left[0] == right[0] then ComparePrerelease(left[1..], right[1..])
    else CompareParts(left[0], right[0])
  }

  function CompareCore(left: seq<nat>, right: seq<nat>): Order
    requires |left| == |right|
  {
    if left == [] then Some(0)
    else
      var delta := Minus(Number(left[0]), Number(right[0]));
      if delta != Some(0) then delta else CompareCore(left[1..], right[1..])
  }

  function Compare(left: Version, right: Version): Order
    requires HasCore(left) && HasCore(right)
  {
    var core := CompareCore(left.core, right.core);
    if core != Some(0) then core
    else if left.prerelease == [] && right.prerelease != [] then Some(1)
    else if left.prerelease != [] && right.prerelease == [] then Some(-1)
    else ComparePrerelease(left.prerelease, right.prerelease)
  }

  method CompareSemver(left: Version, right: Version) returns (order: Order)
    requires HasCore(left) && HasCore(right)
    ensures order == Compare(left, right)
  {
    hide Number, TextOrder.Before, IsNumeric;
    var index := 0;
    while index < 3
      invariant index <= 3
      invariant CompareCore(left.core, right.core) == CompareCore(left.core[index..], right.core[index..])
    {
      var delta := Minus(Number(left.core[index]), Number(right.core[index]));
      if delta != Some(0) {
        return delta;
      }
      index := index + 1;
    }
    if |left.prerelease| == 0 && |right.prerelease| > 0 {
      return Some(1);
    }
    if |left.prerelease| > 0 && |right.prerelease| == 0 {
      return Some(-1);
    }
    var l, r := left.prerelease, right.prerelease;
    var length := if |l| < |r| then |r| else |l|;
    index := 0;
    while index < length
      invariant index <= length && index <= |l| && index <= |r|
      invariant ComparePrerelease(l, r) == ComparePrerelease(l[index..], r[index..])
    {
      if index == |l| {
        return Some(-1);
      }
      if index == |r| {
        return Some(1);
      }
      if l[index] != r[index] {
        return CompareParts(l[index], r[index]);
      }
      index := index + 1;
    }
    return Some(0);
  }

  // ---- section 11: precedence ----

  /** 11.4.1 to 11.4.3: numbers by value, texts in ASCII order, numbers below texts. */
  predicate PartLower(left: string, right: string) {
    if IsNumeric(left) && IsNumeric(right) then Value(left) < Value(right)
    else if IsNumeric(left) || IsNumeric(right) then IsNumeric(left)
    else TextOrder.Before(left, right)
  }

  /** 11.4, 11.4.4: decided by the first identifiers that differ; a proper beginning is lower. */
  ghost predicate PrereleaseLower(left: seq<string>, right: seq<string>) {
    exists k :: DecidedAt(left, right, k)
  }

  predicate DecidedAt(left: seq<string>, right: seq<string>, k: int) {
    && 0 <= k <= |left| && k <= |right| && left[..k] == right[..k]
    && k < |right| && (k == |left| || PartLower(left[k], right[k]))
  }

  /** 11.2: decided by the first of major, minor and patch that differ. */
  ghost predicate CoreLower(left: seq<nat>, right: seq<nat>)
    requires |left| == |right|
  {
    exists k :: 0 <= k < |left| && left[..k] == right[..k] && left[k] < right[k]
  }

  /** 11.2 to 11.4: a pre-release is lower than its release. */
  ghost predicate Lower(left: Version, right: Version)
    requires HasCore(left) && HasCore(right)
  {
    || CoreLower(left.core, right.core)
    || (left.core == right.core && left.prerelease != [] && right.prerelease == [])
    || (left.core == right.core && left.prerelease != [] && right.prerelease != []
        && PrereleaseLower(left.prerelease, right.prerelease))
  }

  // ---- section 9: identifiers ----

  /** Numeric identifiers must not include leading zeroes. */
  predicate NoLeadingZeroes(part: string) {
    IsNumeric(part) && part[0] == '0' ==> |part| == 1
  }

  predicate WellFormed(v: Version) {
    HasCore(v) && forall i :: 0 <= i < |v.prerelease| ==> NoLeadingZeroes(v.prerelease[i])
  }

  lemma {:induction false} DecimalHasNoPadding(n: nat)
    requires n > 0
    ensures Decimal(n)[0] != '0'
  {
    if n >= 10 {
      DecimalHasNoPadding(n / 10);
    }
  }

  lemma DecimalSays(n: nat)
    requires n > 0
    ensures IsNumeric(Decimal(n)) && Value(Decimal(n)) == n && NoLeadingZeroes(Decimal(n))
  {
    DecimalHasNoPadding(n);
    hide Decimal, Value;
  }

  lemma {:induction false} ValueAtLeast(part: string)
    requires IsNumeric(part) && part[0] != '0'
    ensures Value(part) > 0 && (|part| > 1 ==> Value(part) >= 10)
  {
    if |part| > 1 {
      ValueAtLeast(part[..|part| - 1]);
    }
  }

  /** Without leading zeroes a number is written one way. */
  lemma {:induction false} ValueIsText(left: string, right: string)
    requires IsNumeric(left) && IsNumeric(right) && NoLeadingZeroes(left) && NoLeadingZeroes(right)
    requires Value(left) == Value(right)
    ensures left == right
  {
    var l, r := |left| - 1, |right| - 1;
    if |left| > 1 {
      ValueAtLeast(left);
    }
    if |right| > 1 {
      ValueAtLeast(right);
    }
    assert left == left[..l] + [left[l]] && right == right[..r] + [right[r]];
    assert l == 0 ==> Value(left[..l]) == 0;
    assert r == 0 ==> Value(right[..r]) == 0;
    if |left| > 1 && |right| > 1 {
      ValueIsText(left[..l], right[..r]);
    }
  }

  // ---- the comparison, on any version the code accepts ----

  /** The doubles the code sees where the versions first differ are equal. */
  predicate MergedAt(left: seq<string>, right: seq<string>, k: int) {
    && 0 <= k < |left| && k < |right| && left[..k] == right[..k] && left[k] != right[k]
    && IsNumeric(left[k]) && IsNumeric(right[k]) && Number(Value(left[k])) == Number(Value(right[k]))
  }

  /** Two numbers the code takes for one: two spellings of it, or numbers that round alike. */
  predicate SameNumberAt(left: seq<string>, right: seq<string>, k: int) {
    MergedAt(left, right, k) && Number(Value(left[k])).Finite?
  }

  predicate OverflowAt(left: seq<string>, right: seq<string>, k: int) {
    MergedAt(left, right, k) && Number(Value(left[k])).Infinite?
  }

  function Negated(order: Order): Order {
    match order
    case None => None
    case Some(sign) => Some(-sign)
  }

  predicate IsOrder(order: Order) {
    order.None? || -1 <= order.value <= 1
  }

  lemma MinusSays(m: nat, n: nat)
    ensures Minus(Number(n), Number(m)) == Negated(Minus(Number(m), Number(n))) && IsOrder(Minus(Number(m), Number(n)))
    ensures Minus(Number(m), Number(n)) == Some(0) <==> Number(m) == Number(n) && Number(m).Finite?
    ensures Minus(Number(m), Number(n)) == None <==> Number(m) == Number(n) == Infinite
    ensures Minus(Number(m), Number(n)) == Some(-1) <==> m < n && Number(m) != Number(n)
  {
    if Number(m).Finite? && (Number(n).Infinite? || Number(m).value < Number(n).value) {
      NumberReflects(m, n);
    }
    if Number(n).Finite? && (Number(m).Infinite? || Number(n).value < Number(m).value) {
      NumberReflects(n, m);
    }
    hide Number;
  }

  lemma PartsCompare(left: string, right: string)
    requires left != right
    ensures CompareParts(right, left) == Negated(CompareParts(left, right)) && IsOrder(CompareParts(left, right))
    ensures CompareParts(left, right) == Some(-1) <==> PartLower(left, right) && !MergedAt([left], [right], 0)
    ensures CompareParts(left, right) == Some(0) <==> SameNumberAt([left], [right], 0)
    ensures CompareParts(left, right) == None <==> OverflowAt([left], [right], 0)
  {
    hide Number;
    if IsNumeric(left) && IsNumeric(right) {
      MinusSays(Value(left), Value(right));
    } else {
      TextOrder.BeforeTotal(left, right);
      if TextOrder.Before(left, right) && TextOrder.Before(right, left) {
        TextOrder.BeforeTransitive(left, right, left);
        TextOrder.BeforeIrreflexive(left);
      }
    }
  }

  lemma DecidedLater(left: seq<string>, right: seq<string>)
    requires left != [] && right != [] && left[0] == right[0]
    ensures forall k :: DecidedAt(left, right, k) ==> DecidedAt(left[1..], right[1..], k - 1)
    ensures forall k :: DecidedAt(left[1..], right[1..], k) ==> DecidedAt(left, right, k + 1)
    ensures forall k :: MergedAt(left, right, k) ==> MergedAt(left[1..], right[1..], k - 1)
    ensures forall k :: MergedAt(left[1..], right[1..], k) ==> MergedAt(left, right, k + 1)
  {
    hide Number;
    var l, r := left[1..], right[1..];
    assert !PartLower(left[0], right[0]) by { TextOrder.BeforeIrreflexive(left[0]); }
    hide PartLower;
    forall k | DecidedAt(left, right, k) || MergedAt(left, right, k)
      ensures k > 0 && l[..k - 1] == r[..k - 1]
    {
      assert l[..k - 1] == left[..k][1..] && r[..k - 1] == right[..k][1..];
    }
    forall k | DecidedAt(l, r, k) || MergedAt(l, r, k)
      ensures left[..k + 1] == right[..k + 1]
    {
      assert left[..k + 1] == [left[0]] + l[..k] && right[..k + 1] == [right[0]] + r[..k];
    }
  }

  lemma DecidedNow(left: seq<string>, right: seq<string>, k: int)
    requires left == [] || right == [] || left[0] != right[0]
    ensures DecidedAt(left, right, k) || MergedAt(left, right, k) ==> k == 0
  {
    assert 0 < k <= |left| && k <= |right| ==> left[..k][0] == left[0] && right[..k][0] == right[0];
  }

  /** The comparison of pre-releases goes wrong nowhere but where two numbers have merged. */
  ghost predicate PrereleaseSays(left: seq<string>, right: seq<string>, order: Order) {
    && IsOrder(order)
    && (order == Some(-1) <==> PrereleaseLower(left, right) && !exists k :: MergedAt(left, right, k))
    && (order == Some(0) <==> left == right || exists k :: SameNumberAt(left, right, k))
    && (order == None <==> exists k :: OverflowAt(left, right, k))
  }

  lemma SaysLater(left: seq<string>, right: seq<string>, order: Order)
    requires left != [] && right != [] && left[0] == right[0]
    requires PrereleaseSays(left[1..], right[1..], order)
    ensures PrereleaseSays(left, right, order)
  {
    assert left == [left[0]] + left[1..] && right == [right[0]] + right[1..];
    DecidedLater(left, right);
    MergedLater(left, right);
    LowerLater(left, right);
    hide Number, DecidedAt, MergedAt, PrereleaseLower, SameNumberAt, OverflowAt;
  }

  lemma LowerLater(left: seq<string>, right: seq<string>)
    requires left != [] && right != [] && left[0] == right[0]
    ensures PrereleaseLower(left, right) <==> PrereleaseLower(left[1..], right[1..])
  {
    DecidedLater(left, right);
    hide DecidedAt;
    if k :| DecidedAt(left, right, k) {
      assert DecidedAt(left[1..], right[1..], k - 1);
    }
    if k :| DecidedAt(left[1..], right[1..], k) {
      assert DecidedAt(left, right, k + 1);
    }
  }

  lemma MergedLater(left: seq<string>, right: seq<string>)
    requires left != [] && right != [] && left[0] == right[0]
    ensures (exists k :: MergedAt(left, right, k)) <==> exists k :: MergedAt(left[1..], right[1..], k)
    ensures (exists k :: SameNumberAt(left, right, k)) <==> exists k :: SameNumberAt(left[1..], right[1..], k)
    ensures (exists k :: OverflowAt(left, right, k)) <==> exists k :: OverflowAt(left[1..], right[1..], k)
  {
    DecidedLater(left, right);
    hide Number, DecidedAt;
    var l, r := left[1..], right[1..];
    if k :| MergedAt(left, right, k) {
      assert MergedAt(l, r, k - 1) && (SameNumberAt(left, right, k) <==> SameNumberAt(l, r, k - 1));
      assert OverflowAt(left, right, k) <==> OverflowAt(l, r, k - 1);
      MergedOnce(left, right, k);
    }
    if k :| MergedAt(l, r, k) {
      assert MergedAt(left, right, k + 1) && (SameNumberAt(left, right, k + 1) <==> SameNumberAt(l, r, k));
      assert OverflowAt(left, right, k + 1) <==> OverflowAt(l, r, k);
      MergedOnce(l, r, k);
    }
  }

  /** There is one first difference. */
  lemma MergedOnce(left: seq<string>, right: seq<string>, k: int)
    requires MergedAt(left, right, k)
    ensures forall j :: MergedAt(left, right, j) ==> j == k
  {
    hide Number, IsNumeric, Value;
  }

  lemma SaysNow(left: seq<string>, right: seq<string>)
    requires left == [] || right == [] || left[0] != right[0]
    ensures PrereleaseSays(left, right, ComparePrerelease(left, right))
  {
    forall k
      ensures DecidedAt(left, right, k) || MergedAt(left, right, k) ==> k == 0
    {
      DecidedNow(left, right, k);
    }
    NowDecided(left, right);
    hide Number, DecidedAt, MergedAt, ComparePrerelease;
  }

  lemma NowDecided(left: seq<string>, right: seq<string>)
    requires left == [] || right == [] || left[0] != right[0]
    ensures var order := ComparePrerelease(left, right);
            && IsOrder(order)
            && (order == Some(-1) <==> DecidedAt(left, right, 0) && !MergedAt(left, right, 0))
            && (order == Some(0) <==> left == right || SameNumberAt(left, right, 0))
            && (order == None <==> OverflowAt(left, right, 0))
  {
    hide Number, PartLower, CompareParts, IsNumeric, Value;
    if left != [] && right != [] {
      PartsCompare(left[0], right[0]);
      assert MergedAt(left, right, 0) <==> MergedAt([left[0]], [right[0]], 0);
      assert DecidedAt(left, right, 0) <==> PartLower(left[0], right[0]);
    }
  }

  lemma {:induction false} PrereleaseCompares(left: seq<string>, right: seq<string>)
    ensures ComparePrerelease(right, left) == Negated(ComparePrerelease(left, right))
    ensures PrereleaseSays(left, right, ComparePrerelease(left, right))
  {
    hide PrereleaseSays, CompareParts;
    if left != [] && right != [] && left[0] == right[0] {
      PrereleaseCompares(left[1..], right[1..]);
      SaysLater(left, right, ComparePrerelease(left, right));
    } else {
      SaysNow(left, right);
      if left != [] && right != [] {
        PartsCompare(left[0], right[0]);
      }
    }
  }

  /** The first `k` numbers are pairwise the same to the code. */
  predicate CoreMerged(left: seq<nat>, right: seq<nat>, k: nat)
    requires k <= |left| == |right|
  {
    forall j :: 0 <= j < k ==> Number(left[j]) == Number(right[j]) && Number(left[j]).Finite?
  }

  /** The code subtracts infinity from infinity. */
  predicate CoreOverflowAt(left: seq<nat>, right: seq<nat>, k: nat)
    requires |left| == |right|
  {
    k < |left| && CoreMerged(left, right, k) && Number(left[k]) == Number(right[k]) == Infinite
  }

  lemma {:induction false} CoreCompares(left: seq<nat>, right: seq<nat>)
    requires |left| == |right|
    ensures CompareCore(right, left) == Negated(CompareCore(left, right)) && IsOrder(CompareCore(left, right))
    ensures CompareCore(left, right) == Some(0) <==> CoreMerged(left, right, |left|)
    ensures CompareCore(left, right) == None <==> exists k: nat :: CoreOverflowAt(left, right, k)
  {
    hide Number;
    if left != [] {
      var l, r := left[1..], right[1..];
      CoreCompares(l, r);
      MinusSays(left[0], right[0]);
      if Minus(Number(left[0]), Number(right[0])) == Some(0) {
        forall k: nat | k < |left|
          ensures CoreMerged(left, right, k + 1) <==> CoreMerged(l, r, k)
          ensures CoreOverflowAt(left, right, k + 1) <==> CoreOverflowAt(l, r, k)
        {
          CoreMergedLater(left, right, k);
        }
        if k: nat :| CoreOverflowAt(l, r, k) {
          assert CoreOverflowAt(left, right, k + 1);
        }
        if k: nat :| CoreOverflowAt(left, right, k) {
          assert CoreOverflowAt(l, r, k - 1);
        }
      } else {
        assert CoreOverflowAt(left, right, 0) <==> Minus(Number(left[0]), Number(right[0])) == None;
        assert forall k: nat :: k > 0 && k <= |left| ==> !CoreMerged(left, right, k);
      }
    }
  }

  lemma CoreMergedLater(left: seq<nat>, right: seq<nat>, k: nat)
    requires |left| == |right| > k && Number(left[0]) == Number(right[0]) && Number(left[0]).Finite?
    ensures CoreMerged(left, right, k + 1) <==> CoreMerged(left[1..], right[1..], k)
    ensures CoreOverflowAt(left, right, k + 1) <==> CoreOverflowAt(left[1..], right[1..], k)
  {
    hide Number;
    var l, r := left[1..], right[1..];
    assert forall j :: 0 <= j < |l| ==> l[j] == left[j + 1] && r[j] == right[j + 1];
    assert forall j :: 0 < j < |left| ==> left[j] == l[j - 1] && right[j] == r[j - 1];
  }

  /** Core numbers that doubles represent exactly are compared exactly. */
  /** The first core numbers that differ are different doubles, and no number up to the last equal pair is infinite. */
  predicate CoreTells(left: seq<nat>, right: seq<nat>)
    requires |left| == |right|
  {
    left == []
    || (if left[0] == right[0] then Number(left[0]).Finite? && CoreTells(left[1..], right[1..])
        else Number(left[0]) != Number(right[0]))
  }

  /** Core numbers that doubles tell apart are compared exactly. */
  lemma {:induction false} ToldCoreCompares(left: seq<nat>, right: seq<nat>)
    requires |left| == |right| && CoreTells(left, right)
    ensures CompareCore(left, right) == Some(-1) <==> CoreLower(left, right)
    ensures CompareCore(left, right) == Some(0) <==> left == right
    ensures CompareCore(left, right).Some?
  {
    hide Number;
    if left != [] {
      MinusSays(left[0], right[0]);
      if left[0] == right[0] {
        ToldCoreCompares(left[1..], right[1..]);
        CoreLowerLater(left, right);
        hide CoreLower;
        assert left == [left[0]] + left[1..] && right == [right[0]] + right[1..];
      } else {
        CoreLowerNow(left, right);
      }
    }
  }

  lemma CoreLowerNow(left: seq<nat>, right: seq<nat>)
    requires |left| == |right| && left != [] && left[0] != right[0]
    ensures CoreLower(left, right) <==> left[0] < right[0]
  {
    assert forall k :: 0 < k <= |left| ==> left[..k][0] == left[0] && right[..k][0] == right[0];
    assert left[..0] == right[..0];
  }

  lemma CoreLowerLater(left: seq<nat>, right: seq<nat>)
    requires |left| == |right| && left != [] && left[0] == right[0]
    ensures CoreLower(left, right) <==> CoreLower(left[1..], right[1..])
  {
    var l, r := left[1..], right[1..];
    if CoreLower(l, r) {
      var k :| 0 <= k < |l| && l[..k] == r[..k] && l[k] < r[k];
      assert left[..k + 1] == [left[0]] + l[..k] && right[..k + 1] == [right[0]] + r[..k];
    }
    if CoreLower(left, right) {
      var k :| 0 <= k < |left| && left[..k] == right[..k] && left[k] < right[k];
      assert l[..k - 1] == left[..k][1..] && r[..k - 1] == right[..k][1..];
    }
  }

  /** On all versions: what "equal" and NaN mean, and that the answer turns with its arguments. */
  lemma EqualExactly(left: Version, right: Version)
    requires HasCore(left) && HasCore(right)
    ensures Compare(right, left) == Negated(Compare(left, right)) && IsOrder(Compare(left, right))
    ensures Compare(left, right) == Some(0) <==>
            && CoreMerged(left.core, right.core, 3)
            && (left.prerelease == right.prerelease || exists k :: SameNumberAt(left.prerelease, right.prerelease, k))
    ensures Compare(left, right) == None <==>
            || (exists k: nat :: CoreOverflowAt(left.core, right.core, k))
            || (CoreMerged(left.core, right.core, 3)
                && exists k :: OverflowAt(left.prerelease, right.prerelease, k))
  {
    CoreCompares(left.core, right.core);
    PrereleaseCompares(left.prerelease, right.prerelease);
    hide CompareCore, ComparePrerelease, CoreMerged, CoreOverflowAt;
    assert left.prerelease == [] || right.prerelease == [] ==>
             forall k :: !MergedAt(left.prerelease, right.prerelease, k);
    hide MergedAt;
  }

  // ---- numbers that doubles tell apart ----

  /**
   Where the versions first differ they do not differ in two numbers of one double; and the
   core numbers before that are finite. Two spellings of one finite number are allowed.
   */
  ghost predicate Told(left: Version, right: Version)
    requires HasCore(left) && HasCore(right)
  {
    && CoreTells(left.core, right.core)
    && (left.core == right.core ==>
          forall k :: MergedAt(left.prerelease, right.prerelease, k) ==>
            SameNumberAt(left.prerelease, right.prerelease, k)
            && Value(left.prerelease[k]) == Value(right.prerelease[k]))
  }

  lemma ToldMerge(left: seq<string>, right: seq<string>, k: int)
    requires SameNumberAt(left, right, k) && Value(left[k]) == Value(right[k])
    ensures !PrereleaseLower(left, right)
  {
    hide Number;
    forall j | DecidedAt(left, right, j)
      ensures j == k
    {
      DecidedOnce(left, right, j, k);
    }
  }

  /** Both speak of the first identifiers that differ. */
  lemma DecidedOnce(left: seq<string>, right: seq<string>, j: int, k: int)
    requires DecidedAt(left, right, j) && MergedAt(left, right, k)
    ensures j == k
  {
    if j < k {
      assert left[..k][j] == right[..k][j];
      TextOrder.BeforeIrreflexive(left[j]);
    }
  }

  /** Wherever doubles tell the versions apart, the comparison is lower exactly as section 11 says, and never NaN. */
  lemma ComparesByPrecedence(left: Version, right: Version)
    requires HasCore(left) && HasCore(right) && Told(left, right)
    ensures Compare(left, right).Some? && -1 <= Compare(left, right).value <= 1
    ensures Compare(left, right) == Some(-1) <==> Lower(left, right)
    ensures Compare(left, right) == Some(1) <==> Lower(right, left)
  {
    hide Compare, Lower, Told, CoreMerged, CoreOverflowAt, SameNumberAt, OverflowAt;
    ToldTurns(left, right);
    ToldLower(left, right);
    ToldLower(right, left);
    CompareTurns(left, right);
  }

  lemma CompareTurns(left: Version, right: Version)
    requires HasCore(left) && HasCore(right)
    ensures Compare(right, left) == Negated(Compare(left, right)) && IsOrder(Compare(left, right))
  {
    hide *;
    EqualExactly(left, right);
  }

  lemma {:induction false} CoreTellsTurns(left: seq<nat>, right: seq<nat>)
    requires |left| == |right| && CoreTells(left, right)
    ensures CoreTells(right, left)
  {
    hide Number;
    if left != [] && left[0] == right[0] {
      CoreTellsTurns(left[1..], right[1..]);
    }
  }

  lemma ToldTurns(left: Version, right: Version)
    requires HasCore(left) && HasCore(right) && Told(left, right)
    ensures Told(right, left)
  {
    CoreTellsTurns(left.core, right.core);
    hide Number, CoreTells;
    var l, r := left.prerelease, right.prerelease;
    assert forall k :: MergedAt(r, l, k) ==> MergedAt(l, r, k);
  }

  lemma ToldLower(left: Version, right: Version)
    requires HasCore(left) && HasCore(right) && Told(left, right)
    ensures Compare(left, right).Some?
    ensures Compare(left, right) == Some(-1) <==> Lower(left, right)
  {
    ToldCoreCompares(left.core, right.core);
    PrereleaseCompares(left.prerelease, right.prerelease);
    if left.core == right.core {
      ToldPrerelease(left.prerelease, right.prerelease);
    }
    CoreLowerIsStrict(left.core, right.core);
    hide Number, CompareCore, ComparePrerelease, CoreLower, PrereleaseLower, Told;
  }

  lemma ToldPrerelease(left: seq<string>, right: seq<string>)
    requires forall k :: MergedAt(left, right, k) ==> SameNumberAt(left, right, k) && Value(left[k]) == Value(right[k])
    ensures ComparePrerelease(left, right).Some?
    ensures ComparePrerelease(left, right) == Some(-1) <==> PrereleaseLower(left, right)
  {
    PrereleaseCompares(left, right);
    hide Number, ComparePrerelease;
    if k :| MergedAt(left, right, k) {
      ToldMerge(left, right, k);
    }
    assert forall k :: OverflowAt(left, right, k) ==> MergedAt(left, right, k);
  }

  // ---- safe integers ----

  predicate SafeNumbers(numbers: seq<nat>) {
    forall i :: 0 <= i < |numbers| ==> numbers[i] <= MAX_SAFE
  }

  /** Every number of the version is a safe integer. */
  predicate Safe(v: Version) {
    SafeNumbers(v.core)
    && forall i :: 0 <= i < |v.prerelease| && IsNumeric(v.prerelease[i]) ==> Value(v.prerelease[i]) <= MAX_SAFE
  }

  lemma {:induction false} SafeCoreTells(left: seq<nat>, right: seq<nat>)
    requires |left| == |right| && SafeNumbers(left) && SafeNumbers(right)
    ensures CoreTells(left, right)
  {
    hide Number;
    if left != [] {
      NumberIsExact(left[0]);
      NumberIsExact(right[0]);
      SafeCoreTells(left[1..], right[1..]);
    }
  }

  /** Safe integers are told apart, so on them the comparison is right for every pair of versions. */
  lemma SafeIsTold(left: Version, right: Version)
    requires HasCore(left) && HasCore(right) && Safe(left) && Safe(right)
    ensures Told(left, right)
  {
    SafeCoreTells(left.core, right.core);
    hide Number, CoreTells;
    forall k | MergedAt(left.prerelease, right.prerelease, k)
      ensures SameNumberAt(left.prerelease, right.prerelease, k)
      ensures Value(left.prerelease[k]) == Value(right.prerelease[k])
    {
      NumberIsExact(Value(left.prerelease[k]));
      NumberIsExact(Value(right.prerelease[k]));
    }
  }

  lemma CoreLowerIsStrict(left: seq<nat>, right: seq<nat>)
    requires |left| == |right|
    ensures CoreLower(left, right) ==> left != right
  {}

  /** With section 9 kept and numbers safe, only a version equals itself. */
  lemma WellFormedEqual(left: Version, right: Version)
    requires WellFormed(left) && WellFormed(right) && Safe(left) && Safe(right)
    ensures Compare(left, right) == Some(0) <==> left == right
  {
    SafeIsTold(left, right);
    ToldCoreCompares(left.core, right.core);
    PrereleaseCompares(left.prerelease, right.prerelease);
    forall k | MergedAt(left.prerelease, right.prerelease, k)
      ensures left.core != right.core
    {
      if left.core == right.core {
        ValueIsText(left.prerelease[k], right.prerelease[k]);
      }
    }
    hide Number, CompareCore, ComparePrerelease, MergedAt;
  }

  // ---- transitivity ----

  lemma PartLowerTransitive(a: string, b: string, c: string)
    requires PartLower(a, b) && PartLower(b, c)
    ensures PartLower(a, c)
  {
    if !IsNumeric(a) {
      TextOrder.BeforeTransitive(a, b, c);
    }
  }

  lemma DecidedTransitive(a: seq<string>, b: seq<string>, c: seq<string>, i: int, j: int)
    requires DecidedAt(a, b, i) && DecidedAt(b, c, j)
    ensures PrereleaseLower(a, c)
  {
    var k := if i < j then i else j;
    assert a[..k] == a[..i][..k] && b[..k] == b[..i][..k] && b[..k] == b[..j][..k] && c[..k] == c[..j][..k];
    if i < j {
      assert b[i] == b[..j][i] && c[i] == c[..j][i];
    } else if j < i {
      assert a[j] == a[..i][j] && b[j] == b[..i][j];
    } else if i < |a| {
      PartLowerTransitive(a[i], b[i], c[i]);
    }
    assert DecidedAt(a, c, k);
  }

  /** Precedence is transitive on every version, padded numbers or not. */
  lemma LowerTransitive(a: Version, b: Version, c: Version)
    requires HasCore(a) && HasCore(b) && HasCore(c) && Lower(a, b) && Lower(b, c)
    ensures Lower(a, c)
  {
    if CoreLower(a.core, b.core) && CoreLower(b.core, c.core) {
      CoreLowerTransitive(a.core, b.core, c.core);
    } else if a.core == b.core == c.core && c.prerelease != [] && b.prerelease != [] {
      var i :| DecidedAt(a.prerelease, b.prerelease, i);
      var j :| DecidedAt(b.prerelease, c.prerelease, j);
      DecidedTransitive(a.prerelease, b.prerelease, c.prerelease, i, j);
    }
  }

  lemma CoreLowerTransitive(a: seq<nat>, b: seq<nat>, c: seq<nat>)
    requires |a| == |b| == |c| && CoreLower(a, b) && CoreLower(b, c)
    ensures CoreLower(a, c)
  {
    var i :| 0 <= i < |a| && a[..i] == b[..i] && a[i] < b[i];
    var j :| 0 <= j < |b| && b[..j] == c[..j] && b[j] < c[j];
    var k := if i < j then i else j;
    assert a[..k] == a[..i][..k] && b[..k] == b[..i][..k] && b[..k] == b[..j][..k] && c[..k] == c[..j][..k];
    if i < j {
      assert b[i] == b[..j][i] && c[i] == c[..j][i];
    } else if j < i {
      assert a[j] == a[..i][j] && b[j] == b[..i][j];
    }
    assert a[..k] == c[..k] && a[k] < c[k];
  }

  predicate NotAbove(order: Order) {
    order == Some(-1) || order == Some(0)
  }

  /** With section 9 kept and numbers safe, the comparison is a total order. */
  lemma WellFormedTotalOrder(a: Version, b: Version, c: Version)
    requires WellFormed(a) && WellFormed(b) && WellFormed(c) && Safe(a) && Safe(b) && Safe(c)
    ensures NotAbove(Compare(a, b)) || NotAbove(Compare(b, a))
    ensures NotAbove(Compare(a, b)) && NotAbove(Compare(b, a)) ==> a == b
    ensures NotAbove(Compare(a, b)) && NotAbove(Compare(b, c)) ==> NotAbove(Compare(a, c))
  {
    hide Compare, Lower, Safe, NotAbove;
    NotAboveSays(a, b);
    NotAboveSays(b, a);
    NotAboveSays(b, c);
    NotAboveSays(a, c);
    NotBothLower(a, b);
    if Lower(a, b) && Lower(b, c) {
      LowerTransitive(a, b, c);
    }
  }

  lemma NotAboveSays(a: Version, b: Version)
    requires WellFormed(a) && WellFormed(b) && Safe(a) && Safe(b)
    ensures NotAbove(Compare(a, b)) <==> Lower(a, b) || a == b
    ensures Lower(a, b) || Lower(b, a) || a == b
  {
    WellFormedEqual(a, b);
    SafeIsTold(a, b);
    ComparesByPrecedence(a, b);
    hide Compare, Lower, Safe, WellFormed;
  }

  lemma NotBothLower(a: Version, b: Version)
    requires WellFormed(a) && WellFormed(b) && Safe(a) && Safe(b)
    ensures !(Lower(a, b) && Lower(b, a))
  {
    SafeIsTold(a, b);
    ComparesByPrecedence(a, b);
    hide Compare, Lower, Safe, WellFormed;
  }

  // ---- where the order breaks ----

  /** With padded numbers "equal" is not transitive: 1.0.0-1.a and 1.0.0-1.y both equal 1.0.0-01.x. */
  lemma PaddedNumbersBreakTheOrder() returns (a: Version, b: Version, c: Version)
    ensures HasCore(a) && HasCore(b) && HasCore(c) && Safe(a) && Safe(b) && Safe(c)
    ensures Compare(b, a) == Some(0) && Compare(a, c) == Some(0) && Compare(b, c) == Some(1)
  {
    hide Number, Value, IsNumeric, Compare, CompareCore, ComparePrerelease;
    a, b, c := Version([1, 0, 0], ["01", "x"]), Version([1, 0, 0], ["1", "y"]), Version([1, 0, 0], ["1", "a"]);
    PaddedOne();
    SameCoreMerges(a.core);
    EqualExactly(b, a);
    EqualExactly(a, c);
    assert SameNumberAt(b.prerelease, a.prerelease, 0);
    assert SameNumberAt(a.prerelease, c.prerelease, 0);
    YIsAboveA();
    TailDecides(b, c);
  }

  lemma PaddedOne()
    ensures "01" != "1" && IsNumeric("01") && IsNumeric("1") && Value("01") == Value("1") == 1
    ensures Number(1) == Finite(1) && !IsNumeric("x") && !IsNumeric("y") && !IsNumeric("a")
  {
    NumberIsExact(1);
    hide Number;
    assert "01"[..1] == "0" && "0"[..0] == "" && "1"[..0] == "";
    assert Value("0") == 0;
    assert "01" != "1" by { assert |"01"| != |"1"|; }
    assert "x"[0] == 'x' && "y"[0] == 'y' && "a"[0] == 'a';
  }

  lemma YIsAboveA()
    ensures ComparePrerelease(["y"], ["a"]) == Some(1)
  {
    hide Number;
    assert "y"[0] == 'y' && "a"[0] == 'a';
    assert !TextOrder.Before("y", "a");
  }

  lemma TailDecides(left: Version, right: Version)
    requires HasCore(left) && left.core == right.core && CoreMerged(left.core, left.core, 3)
    requires |left.prerelease| == |right.prerelease| == 2 && left.prerelease[0] == right.prerelease[0]
    ensures Compare(left, right) == ComparePrerelease([left.prerelease[1]], [right.prerelease[1]])
  {
    hide Number, CompareParts;
    CoreCompares(left.core, right.core);
    hide CompareCore, CoreMerged;
    assert left.prerelease[1..] == [left.prerelease[1]] && right.prerelease[1..] == [right.prerelease[1]];
  }

  /** Beyond the safe integers well-formed versions merge: 1.0.0-9007199254740992 and 1.0.0-9007199254740993. */
  lemma LargeNumbersMerge() returns (a: Version, b: Version)
    ensures WellFormed(a) && WellFormed(b) && Lower(a, b) && Compare(a, b) == Some(0)
    ensures a == Version([1, 0, 0], [Decimal(9007199254740992)])
    ensures b == Version([1, 0, 0], [Decimal(9007199254740993)])
  {
    hide Number, Decimal, Value, IsNumeric, NoLeadingZeroes, Lower, CoreMerged, Compare;
    var x, y := Decimal(TWO53), Decimal(TWO53 + 1);
    a, b := Version([1, 0, 0], [x]), Version([1, 0, 0], [y]);
    FirstMerge();
    DecimalSays(TWO53);
    DecimalSays(TWO53 + 1);
    DifferentNumbers(x, y, TWO53, TWO53 + 1);
    SameCoreMerges(a.core);
    MergedNumbers(a, b);
  }

  lemma DifferentNumbers(left: string, right: string, m: nat, n: nat)
    requires IsNumeric(left) && IsNumeric(right) && Value(left) == m && Value(right) == n && m != n
    ensures left != right
  {}

  lemma SameCoreMerges(core: seq<nat>)
    requires SafeNumbers(core)
    ensures CoreMerged(core, core, |core|)
  {
    forall j | 0 <= j < |core|
      ensures Number(core[j]).Finite?
    {
      NumberIsExact(core[j]);
    }
  }

  lemma MergedNumbers(left: Version, right: Version)
    requires HasCore(left) && left.core == right.core && CoreMerged(left.core, left.core, 3)
    requires |left.prerelease| == |right.prerelease| == 1
    requires var x, y := left.prerelease[0], right.prerelease[0];
             && x != y && IsNumeric(x) && IsNumeric(y) && Value(x) < Value(y)
             && Number(Value(x)) == Number(Value(y)) && Number(Value(x)).Finite?
    ensures Compare(left, right) == Some(0) && Lower(left, right)
  {
    hide Number, Value, IsNumeric, Compare;
    assert SameNumberAt(left.prerelease, right.prerelease, 0);
    assert DecidedAt(left.prerelease, right.prerelease, 0);
    EqualExactly(left, right);
  }

  /** In the core they even turn the order round: the smaller major number is taken for equal. */
  lemma LargeCoreTurnsTheOrder() returns (a: Version, b: Version)
    ensures WellFormed(a) && WellFormed(b) && Lower(a, b) && Compare(a, b) == Some(1)
    ensures a == Version([9007199254740992, 1, 0], []) && b == Version([9007199254740993, 0, 0], [])
  {
    a, b := Version([TWO53, 1, 0], []), Version([TWO53 + 1, 0, 0], []);
    FirstMerge();
    NumberIsExact(1);
    NumberIsExact(0);
    hide Number;
    assert a.core[..0] == b.core[..0] && a.core[0] < b.core[0];
    assert a.core[1..] == [1, 0] && b.core[1..] == [0, 0];
    assert CompareCore([1, 0], [0, 0]) == Some(1);
  }

  /** A version whose major number overflows does not even equal itself. */
  lemma HugeMajorIsNaN(v: Version)
    requires HasCore(v) && v.core[0] >= Pow2(1024)
    ensures Compare(v, v) == None
  {
    HugeIsInfinite(v.core[0]);
    hide Number;
    assert CoreOverflowAt(v.core, v.core, 0);
    EqualExactly(v, v);
  }
}
