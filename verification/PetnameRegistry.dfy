/**
 Session-wide agent names (agent-names.ts): unique unless adopted, reserved until the
 last holder lets go. The dictionary name an id hashes to is a parameter, `base`.
 */
module PetnameRegistry {
  import opened Numerals
  import opened Sizes

  datatype Names = Names(byId: map<string, string>, holders: map<string, set<string>>)

  /** The two maps are inverses and no name is held by nobody. */
  ghost predicate Valid(s: Names) {
    && (forall id, name :: id in s.byId && s.byId[id] == name <==> name in s.holders && id in s.holders[name])
    && (forall name :: name in s.holders ==> s.holders[name] != {})
  }

  function HoldersOf(s: Names, name: string): set<string> {
    if name in s.holders then s.holders[name] else {}
  }

  function Hold(s: Names, id: string, name: string): Names {
    Names(s.byId[id := name], s.holders[name := HoldersOf(s, name) + {id}])
  }

  function Release(s: Names, id: string): Names {
    if id !in s.byId then s
    else
      var name := s.byId[id];
      var rest := HoldersOf(s, name) - {id};
      Names(s.byId - {id}, if rest == {} then s.holders - {name} else s.holders[name := rest])
  }

  /** The names tried for `base`: base, base-2, base-3, and so on. */
  function Candidate(base: string, k: nat): string
    requires k > 0
  {
    if k == 1 then base else base + "-" + Decimal(k)
  }

  lemma CandidatesDiffer(base: string, j: nat, k: nat)
    requires 0 < j < k
    ensures Candidate(base, j) != Candidate(base, k)
  {
    if j == 1 {
      assert |Candidate(base, k)| > |base|;
    } else {
      var cut := |base + "-"|;
      assert Candidate(base, j)[cut..] == Decimal(j) && Candidate(base, k)[cut..] == Decimal(k);
      if Decimal(j) == Decimal(k) {
        DecimalInjective(j, k);
      }
    }
  }

  /** `k` is the first of them that nobody holds. */
  ghost predicate FirstFree(s: Names, base: string, k: nat) {
    && k > 0 && Candidate(base, k) !in s.holders
    && forall j :: 0 < j < k ==> Candidate(base, j) in s.holders
  }

  function Tried(base: string, n: nat): (tried: set<string>)
    ensures forall name :: name in tried <==> exists k :: 0 < k <= n && Candidate(base, k) == name
  {
    if n == 0 then {} else Tried(base, n - 1) + {Candidate(base, n)}
  }

  lemma {:induction false} TriedCount(base: string, n: nat)
    ensures |Tried(base, n)| == n
  {
    if n > 0 {
      TriedCount(base, n - 1);
      forall k | 0 < k <= n - 1
        ensures Candidate(base, k) != Candidate(base, n)
      {
        CandidatesDiffer(base, k, n);
      }
      assert Candidate(base, n) !in Tried(base, n - 1);
    }
  }

  /** Names in use bound the search: it succeeds within one try more than there are names. */
  lemma SearchIsBounded(s: Names, base: string, n: nat)
    requires forall j :: 0 < j <= n ==> Candidate(base, j) in s.holders
    ensures n <= |s.holders.Keys|
  {
    TriedCount(base, n);
    assert Tried(base, n) <= s.holders.Keys;
    SubsetSize(Tried(base, n), s.holders.Keys);
  }

  // ---- the registry ----

  datatype Op = DoAssign(id: string, base: string) | DoAdopt(id: string, name: string) | DoRelease(id: string) | DoReset

  ghost predicate Step(s: Names, op: Op, t: Names) {
    match op
    case DoAssign(id, base) =>
      if id in s.byId then t == s
      else exists k :: FirstFree(s, base, k) && t == Hold(s, id, Candidate(base, k))
    case DoAdopt(id, name) => t == if id in s.byId then s else Hold(s, id, name)
    case DoRelease(id) => t == Release(s, id)
    case DoReset => t == Names(map[], map[])
  }

  class PetnameRegistry {
    var byId: map<string, string>
    var holdersByName: map<string, set<string>>

    function State(): Names
      reads this
    {
      Names(byId, holdersByName)
    }

    constructor ()
      ensures State() == Names(map[], map[]) && Valid(State())
    {
      byId, holdersByName := map[], map[];
    }

    method Assign(id: string, base: string) returns (name: string)
      requires Valid(State())
      modifies this
      ensures Valid(State()) && Step(old(State()), DoAssign(id, base), State())
      ensures id in byId && byId[id] == name
      ensures id !in old(byId) ==>
                exists k :: && 0 < k <= |old(holdersByName).Keys| + 1
                            && FirstFree(old(State()), base, k) && name == Candidate(base, k)
    {
      if id in byId {
        return byId[id];
      }
      ghost var k;
      name, k := FirstFreeName(base);
      HoldKeeps(State(), id, name);
      HoldName(id, name);
    }

    /** Tries the candidates in turn. */
    method FirstFreeName(base: string) returns (name: string, ghost k: nat)
      ensures 0 < k <= |holdersByName.Keys| + 1 && FirstFree(State(), base, k) && name == Candidate(base, k)
    {
      name, k := base, 1;
      var suffix := 2;
      while name in holdersByName
        invariant k > 0 && suffix == k + 1 && name == Candidate(base, k)
        invariant forall j :: 0 < j < k ==> Candidate(base, j) in holdersByName
        invariant k - 1 <= |holdersByName.Keys|
        decreases |holdersByName.Keys| + 1 - k
      {
        SearchIsBounded(State(), base, k);
        name := base + "-" + Decimal(suffix);
        k := k + 1;
        suffix := suffix + 1;
      }
    }

    method Adopt(id: string, name: string) returns (held: string)
      requires Valid(State())
      modifies this
      ensures Valid(State()) && Step(old(State()), DoAdopt(id, name), State())
      ensures id in byId && byId[id] == held
    {
      if id in byId {
        return byId[id];
      }
      HoldKeeps(State(), id, name);
      HoldName(id, name);
      return name;
    }

    method ReleaseName(id: string) returns (released: bool)
      requires Valid(State())
      modifies this
      ensures Valid(State()) && Step(old(State()), DoRelease(id), State())
      ensures released <==> id in old(byId)
    {
      ReleaseKeeps(State(), id);
      if id !in byId {
        return false;
      }
      var held := byId[id];
      var holders := HoldersOf(State(), held) - {id};
      byId := byId - {id};
      if |holders| == 0 {
        holdersByName := holdersByName - {held};
      } else {
        holdersByName := holdersByName[held := holders];
      }
      return true;
    }

    method Reset()
      modifies this
      ensures Valid(State()) && Step(old(State()), DoReset, State())
    {
      byId, holdersByName := map[], map[];
    }

    method HoldName(id: string, name: string)
      modifies this
      ensures State() == Hold(old(State()), id, name)
    {
      var holders := HoldersOf(State(), name);
      byId := byId[id := name];
      holdersByName := holdersByName[name := holders + {id}];
    }
  }

  lemma HoldKeeps(s: Names, id: string, name: string)
    requires Valid(s) && id !in s.byId
    ensures Valid(Hold(s, id, name))
  {}

  lemma ReleaseKeeps(s: Names, id: string)
    requires Valid(s)
    ensures Valid(Release(s, id))
  {}

  // ---- what one operation leaves ----

  /** Everyone but `id` shows what it showed. */
  ghost predicate OthersKeep(s: Names, t: Names, id: string) {
    forall other :: other != id ==>
      && (other in t.byId <==> other in s.byId)
      && (other in s.byId ==> t.byId[other] == s.byId[other])
  }

  /** The id is forgotten, and its name with it unless somebody else shows it. */
  lemma ReleaseSays(s: Names, id: string, t: Names)
    requires Valid(s) && Step(s, DoRelease(id), t)
    ensures id !in t.byId && OthersKeep(s, t, id)
    ensures forall name :: name in t.holders <==>
              exists other :: other != id && other in s.byId && s.byId[other] == name
  {
    ReleaseKeeps(s, id);
    forall name
      ensures name in t.holders <==> exists other :: other != id && other in s.byId && s.byId[other] == name
    {
      TakenIsShown(t, name);
      assert forall other :: other in t.byId <==> other != id && other in s.byId;
    }
  }

  /** In use is what somebody shows. */
  lemma TakenIsShown(s: Names, name: string)
    requires Valid(s)
    ensures name in s.holders <==> exists id :: id in s.byId && s.byId[id] == name
  {
    if name in s.holders {
      var id :| id in s.holders[name];
      assert id in s.byId && s.byId[id] == name;
    }
  }

  /** A name once shown is kept; otherwise the adopted one is taken, though others may show it too. */
  lemma AdoptSays(s: Names, id: string, name: string, t: Names)
    requires Valid(s) && Step(s, DoAdopt(id, name), t)
    ensures id in t.byId && t.byId[id] == (if id in s.byId then s.byId[id] else name) && OthersKeep(s, t, id)
    ensures forall other :: other in t.holders <==> other in s.holders || other == t.byId[id]
  {}

  /**
   A name once shown is kept. Otherwise it is the base name if nobody shows that, and else
   the base with the least number from 2 on that makes it a name nobody shows.
   */
  lemma AssignSays(s: Names, id: string, base: string, t: Names)
    requires Valid(s) && Step(s, DoAssign(id, base), t)
    ensures id in t.byId && OthersKeep(s, t, id)
    ensures id in s.byId ==> t.byId[id] == s.byId[id]
    ensures id !in s.byId ==> forall other :: other in s.byId ==> s.byId[other] != t.byId[id]
    ensures id !in s.byId && base !in s.holders ==> t.byId[id] == base
    ensures id !in s.byId && base in s.holders ==>
              exists k :: && k >= 2 && t.byId[id] == base + "-" + Decimal(k)
                          && forall j :: 2 <= j < k ==> base + "-" + Decimal(j) in s.holders
  {
    if id !in s.byId {
      var k: nat :| FirstFree(s, base, k) && t == Hold(s, id, Candidate(base, k));
      assert Candidate(base, 1) == base;
      if base in s.holders {
        forall j | 2 <= j < k
          ensures base + "-" + Decimal(j) in s.holders
        {
          assert Candidate(base, j) in s.holders;
        }
        assert k >= 2 && t.byId[id] == base + "-" + Decimal(k);
      }
    }
  }

  // ---- over whole histories ----

  /** The states a history passes through. */
  ghost predicate IsRun(states: seq<Names>, ops: seq<Op>) {
    && |states| == |ops| + 1 && states[0] == Names(map[], map[])
    && forall i :: 0 <= i < |ops| ==> Step(states[i], ops[i], states[i + 1])
  }

  lemma {:induction false} RunIsValid(states: seq<Names>, ops: seq<Op>, i: nat)
    requires IsRun(states, ops) && i < |states|
    ensures Valid(states[i])
  {
    if i > 0 {
      RunIsValid(states, ops, i - 1);
      StepKeepsValid(states[i - 1], ops[i - 1], states[i]);
    }
  }

  lemma StepKeepsValid(s: Names, op: Op, t: Names)
    requires Valid(s) && Step(s, op, t)
    ensures Valid(t)
  {
    match op
    case DoAssign(id, base) =>
      if id !in s.byId {
        var k :| FirstFree(s, base, k) && t == Hold(s, id, Candidate(base, k));
        HoldKeeps(s, id, Candidate(base, k));
      }
    case DoAdopt(id, name) =>
      if id !in s.byId {
        HoldKeeps(s, id, name);
      }
    case DoRelease(id) => ReleaseKeeps(s, id);
    case DoReset =>
  }

  /** A held name stays with its holder, and so stays taken, until that holder lets go or all is reset. */
  lemma {:induction false} HeldUntilReleased(states: seq<Names>, ops: seq<Op>, i: nat, j: nat, id: string)
    requires IsRun(states, ops) && i <= j < |states| && id in states[i].byId
    requires forall k :: i <= k < j ==> ops[k] != DoRelease(id) && ops[k] != DoReset
    ensures id in states[j].byId && states[j].byId[id] == states[i].byId[id]
    ensures states[i].byId[id] in states[j].holders && id in states[j].holders[states[i].byId[id]]
    decreases j
  {
    RunIsValid(states, ops, j);
    if i < j {
      HeldUntilReleased(states, ops, i, j - 1, id);
      StaysHeld(states[j - 1], ops[j - 1], states[j], id);
    }
  }

  lemma StaysHeld(s: Names, op: Op, t: Names, id: string)
    requires Step(s, op, t) && id in s.byId && op != DoRelease(id) && op != DoReset
    ensures id in t.byId && t.byId[id] == s.byId[id]
  {}

  /** A minted name is nobody else's. */
  lemma MintedAlone(s: Names, op: Op, t: Names)
    requires Valid(s) && Step(s, op, t)
    ensures op.DoAssign? && op.id !in s.byId ==>
              op.id in t.byId && forall other :: other in s.byId ==> s.byId[other] != t.byId[op.id]
  {
    if op.DoAssign? && op.id !in s.byId {
      var k :| FirstFree(s, op.base, k) && t == Hold(s, op.id, Candidate(op.base, k));
    }
  }

  /** `id` came by its name through the adoption at `i` and has held it since. */
  ghost predicate Adopted(states: seq<Names>, ops: seq<Op>, id: string, name: string, now: nat) {
    exists i :: 0 <= i < now <= |ops| && now < |states| && ops[i] == DoAdopt(id, name) && id !in states[i].byId
      && forall j :: i < j <= now ==> id in states[j].byId && states[j].byId[id] == name
  }

  /** Two agents show one name only where one of them adopted it. */
  lemma {:induction false} SharedOnlyByAdoption(states: seq<Names>, ops: seq<Op>, now: nat, a: string, b: string)
    requires IsRun(states, ops) && now < |states| && a != b
    requires a in states[now].byId && b in states[now].byId && states[now].byId[a] == states[now].byId[b]
    ensures Adopted(states, ops, a, states[now].byId[a], now) || Adopted(states, ops, b, states[now].byId[a], now)
  {
    var op, s, t := ops[now - 1], states[now - 1], states[now];
    var name := t.byId[a];
    RunIsValid(states, ops, now - 1);
    assert Step(s, op, t);
    if a in s.byId && b in s.byId {
      assert s.byId[a] == name && s.byId[b] == name;
      SharedOnlyByAdoption(states, ops, now - 1, a, b);
      if Adopted(states, ops, a, name, now - 1) {
        AdoptedLonger(states, ops, a, name, now);
      } else {
        AdoptedLonger(states, ops, b, name, now);
      }
    } else {
      MintedAlone(s, op, t);
      if op.DoAdopt? {
        assert Adopted(states, ops, op.id, name, now);
      }
    }
  }

  lemma AdoptedLonger(states: seq<Names>, ops: seq<Op>, id: string, name: string, now: nat)
    requires 0 < now < |states| == |ops| + 1 && Adopted(states, ops, id, name, now - 1)
    requires id in states[now].byId && states[now].byId[id] == name
    ensures Adopted(states, ops, id, name, now)
  {
    var i :| 0 <= i < now - 1 && ops[i] == DoAdopt(id, name) && id !in states[i].byId
      && forall j :: i < j <= now - 1 ==> id in states[j].byId && states[j].byId[id] == name;
    assert forall j :: i < j <= now ==> id in states[j].byId && states[j].byId[id] == name;
  }
}
