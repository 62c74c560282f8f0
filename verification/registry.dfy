/** internal/migration/registry.go: which migrations may be registered, and the one chain between two versions. */
module Registries {
  import opened Wrappers
  import opened Text
  import opened Sorting

  // ----- Versions -----

  const MAX_INT64: nat := 0x7FFF_FFFF_FFFF_FFFF

  /** strconv.Atoi, which takes a sign. */
  function Atoi(s: string): Option<int> {
    var digits := if s != "" && s[0] in {'+', '-'} then s[1..] else s;
    if digits == "" || !AllDigits(digits) then None
    else
      var magnitude: int := DigitsValue(digits);
      var value := if s[0] == '-' then -magnitude else magnitude;
      if -(MAX_INT64 as int) - 1 <= value <= MAX_INT64 then Some(value) else None
  }

  /** One component: no leading zero, not negative. */
  function Component(part: string): Option<nat> {
    if part == "" || (|part| > 1 && part[0] == '0') then None
    else
      var parsed := Atoi(part);
      if parsed.None? || parsed.value < 0 then None else Some(parsed.value)
  }

  datatype Version = Version(major: nat, minor: nat, patch: nat)

  function ParseVersion(value: string): Option<Version> {
    var i := IndexByte(value, '.');
    if i == |value| then None
    else
      var rest := value[i + 1..];
      var k := IndexByte(rest, '.');
      if k == |rest| || '.' in rest[k + 1..] then None
      else
        var major, minor, patch := Component(value[..i]), Component(rest[..k]), Component(rest[k + 1..]);
        if major.None? || minor.None? || patch.None? then None
        else Some(Version(major.value, minor.value, patch.value))
  }

  /** Numeric precedence, as in section 11 of Semantic Versioning 2.0.0. */
  predicate Precedes(a: Version, b: Version) {
    a.major < b.major || (a.major == b.major && (a.minor < b.minor || (a.minor == b.minor && a.patch < b.patch)))
  }

  // ----- Registration -----

  datatype Step = Step(source: string, target: string)

  type Registry = map<string, Step>

  predicate Forward(s: Step) {
    var a, b := ParseVersion(s.source), ParseVersion(s.target);
    a.Some? && b.Some? && Precedes(a.value, b.value)
  }

  /** Every step goes up, and no two share a source. */
  ghost predicate Registrable(steps: seq<Step>) {
    && (forall s :: s in steps ==> Forward(s) && multiset(steps)[s] == 1)
    && (forall a, b :: a in steps && b in steps && a.source == b.source ==> a == b)
  }

  function Registered(steps: seq<Step>): Registry {
    if steps == [] then map[] else Registered(steps[..|steps| - 1])[steps[|steps| - 1].source := steps[|steps| - 1]]
  }

  predicate ValidRegistry(r: Registry) {
    forall source :: source in r ==> r[source].source == source && Forward(r[source])
  }

  datatype RegistryFault = BadVersion | NotForward | Ambiguous | Cycle | Downgrade | NoPath | SkipsTarget

  predicate StepLess(a: Step, b: Step) {
    if a.source == b.source then LexLess(a.target, b.target) else LexLess(a.source, b.source)
  }

  /** The walk from one source: it ends, because every step goes up. */
  method FollowsToEnd(r: Registry, source: string) returns (cyclic: bool)
    requires ValidRegistry(r) && source in r
    ensures !cyclic
  {
    hide ParseVersion;
    var seen: set<string> := {};
    var current := source;
    while true
      invariant ParseVersion(current).Some? && seen <= r.Keys
      invariant forall s :: s in seen ==> ParseVersion(s).Some? && Precedes(ParseVersion(s).value, ParseVersion(current).value)
      decreases |r.Keys - seen|
    {
      if current in seen {
        return true;
      }
      if current !in r {
        return false;
      }
      assert current in r.Keys - seen;
      seen := seen + {current};
      current := r[current].target;
    }
  }

  /** The registration loop over the sorted steps. */
  method Register(ordered: seq<Step>) returns (result: Result<Registry, RegistryFault>)
    ensures result.Ok? <==> Registrable(ordered)
    ensures result.Ok? ==> ValidRegistry(result.value) && forall s :: s in ordered <==> s.source in result.value && result.value[s.source] == s
    ensures result.Err? ==> result.error in {BadVersion, NotForward, Ambiguous}
  {
    hide ParseVersion, Precedes, Forward, Registrable, RegisteredTo;
    var r: Registry := map[];
    NothingRegistered(ordered);
    for i := 0 to |ordered|
      invariant RegisteredTo(ordered, r, i)
    {
      var step := ordered[i];
      ForwardIsNeeded(ordered, i);
      if ParseVersion(step.source).None? || ParseVersion(step.target).None? {
        return Err(BadVersion);
      }
      if !Precedes(ParseVersion(step.source).value, ParseVersion(step.target).value) {
        return Err(NotForward);
      }
      if step.source in r {
        RegisteredSource(ordered, r, i);
        SharedSourceIsRefused(ordered, r, i);
        return Err(Ambiguous);
      }
      RegisterNext(ordered, r, i);
      r := r[step.source := step];
    }
    AllRegistered(ordered, r);
    return Ok(r);
  }

  /** The first i steps, all of them forward and of distinct sources, are what r holds. */
  ghost predicate RegisteredTo(ordered: seq<Step>, r: Registry, i: nat) {
    && i <= |ordered|
    && (forall k :: 0 <= k < i ==> Forward(ordered[k]) && ordered[k].source in r && r[ordered[k].source] == ordered[k])
    && (forall source :: source in r ==> r[source].source == source && r[source] in ordered[..i])
    && (forall k, l :: 0 <= k < l < i ==> ordered[k].source != ordered[l].source)
  }

  lemma NothingRegistered(ordered: seq<Step>)
    ensures RegisteredTo(ordered, map[], 0)
  {
  }

  lemma RegisteredSource(ordered: seq<Step>, r: Registry, i: nat)
    requires RegisteredTo(ordered, r, i) && i < |ordered| && ordered[i].source in r
    ensures r[ordered[i].source] in ordered[..i] && r[ordered[i].source].source == ordered[i].source
  {
    hide Forward;
  }

  lemma RegisterNext(ordered: seq<Step>, r: Registry, i: nat)
    requires RegisteredTo(ordered, r, i) && i < |ordered| && ordered[i].source !in r && Forward(ordered[i])
    ensures RegisteredTo(ordered, r[ordered[i].source := ordered[i]], i + 1)
  {
    hide Forward;
    assert ordered[..i + 1] == ordered[..i] + [ordered[i]];
  }

  lemma AllRegistered(ordered: seq<Step>, r: Registry)
    requires RegisteredTo(ordered, r, |ordered|)
    ensures Registrable(ordered) && ValidRegistry(r)
    ensures forall s :: s in ordered <==> s.source in r && r[s.source] == s
  {
    hide Forward, Registrable;
    assert ordered[..|ordered|] == ordered;
    DistinctSourcesRegister(ordered);
    forall source | source in r
      ensures Forward(r[source])
    {
      var k :| 0 <= k < |ordered| && ordered[k] == r[source];
    }
  }

  /** NewRegistry: it accepts exactly the registrable steps; its cycle check never fires. */
  method NewRegistry(steps: seq<Step>) returns (result: Result<Registry, RegistryFault>)
    ensures result.Ok? <==> Registrable(steps)
    ensures result.Ok? ==> ValidRegistry(result.value) && forall s :: s in steps <==> s.source in result.value && result.value[s.source] == s
    ensures result.Err? ==> result.error in {BadVersion, NotForward, Ambiguous}
  {
    hide ParseVersion, StepLess, Sort, Registrable, ValidRegistry;
    var ordered := Sort(steps, StepLess);
    OrderNeverMatters(steps, ordered);
    result := Register(ordered);
    if result.Err? {
      return;
    }
    var r := result.value;
    var sources := r.Keys;
    while sources != {}
      invariant sources <= r.Keys
      decreases |sources|
    {
      var source :| source in sources;
      var cyclic := FollowsToEnd(r, source);
      if cyclic {
        return Err(Cycle);
      }
      sources := sources - {source};
    }
  }

  lemma ForwardIsNeeded(ordered: seq<Step>, i: nat)
    requires i < |ordered|
    ensures var a, b := ParseVersion(ordered[i].source), ParseVersion(ordered[i].target);
      Forward(ordered[i]) <==> a.Some? && b.Some? && Precedes(a.value, b.value)
    ensures !Forward(ordered[i]) ==> !Registrable(ordered)
  {
  }

  lemma SharedSourceIsRefused(ordered: seq<Step>, r: Registry, i: nat)
    requires i < |ordered| && ordered[i].source in r
    requires r[ordered[i].source] in ordered[..i] && r[ordered[i].source].source == ordered[i].source
    ensures !Registrable(ordered)
  {
    hide Forward;
    var step, other := ordered[i], r[ordered[i].source];
    if other == step {
      assert ordered == ordered[..i] + [step] + ordered[i + 1..];
      assert multiset(ordered)[step] >= multiset(ordered[..i])[step] + 1;
    }
  }

  lemma {:induction false} DistinctSourcesCount(s: seq<Step>, x: Step)
    requires forall k, l :: 0 <= k < l < |s| ==> s[k].source != s[l].source
    ensures multiset(s)[x] <= 1
  {
    if s != [] {
      var front, last := s[..|s| - 1], s[|s| - 1];
      assert s == front + [last];
      DistinctSourcesCount(front, x);
      forall k | 0 <= k < |front| && x == last
        ensures front[k] != x
      {
        assert s[k].source != s[|s| - 1].source;
      }
    }
  }

  lemma DistinctSourcesRegister(ordered: seq<Step>)
    requires forall k, l :: 0 <= k < l < |ordered| ==> ordered[k].source != ordered[l].source
    requires forall k :: 0 <= k < |ordered| ==> Forward(ordered[k])
    ensures Registrable(ordered)
  {
    hide Forward;
    forall s | s in ordered
      ensures multiset(ordered)[s] == 1
    {
      DistinctSourcesCount(ordered, s);
    }
  }

  /** The order in which the steps are given makes no difference. */
  lemma OrderNeverMatters(steps: seq<Step>, steps': seq<Step>)
    requires multiset(steps) == multiset(steps')
    ensures Registrable(steps) <==> Registrable(steps')
    ensures forall s :: s in steps <==> s in steps'
  {
    hide Forward;
    forall s
      ensures s in steps <==> s in steps'
    {
      assert s in steps <==> s in multiset(steps);
    }
  }

  /** What NewRegistry says of its result leaves no choice, so the registry is the same for every order. */
  lemma RegistryIsDetermined(steps: seq<Step>, steps': seq<Step>, r: Registry, r': Registry)
    requires multiset(steps) == multiset(steps') && ValidRegistry(r) && ValidRegistry(r')
    requires forall s :: s in steps <==> s.source in r && r[s.source] == s
    requires forall s :: s in steps' <==> s.source in r' && r'[s.source] == s
    ensures r == r'
  {
    hide Forward;
    OrderNeverMatters(steps, steps');
    forall source
      ensures source in r <==> source in r'
      ensures source in r ==> r[source] == r'[source]
    {
      if source in r {
        assert r[source] in steps';
      }
      if source in r' {
        assert r'[source] in steps;
      }
    }
  }

  // ----- Resolution -----

  /** The steps lead from one version to the other through the registry. */
  predicate IsChain(r: Registry, source: string, target: string, chain: seq<Step>)
    decreases |chain|
  {
    if chain == [] then source == target
    else source in r && r[source] == chain[0] && IsChain(r, chain[0].target, target, chain[1..])
  }

  ghost predicate HasPath(r: Registry, source: string, target: string) {
    exists chain :: IsChain(r, source, target, chain)
  }

  lemma {:induction false} ChainClimbs(r: Registry, source: string, target: string, chain: seq<Step>)
    requires ValidRegistry(r) && IsChain(r, source, target, chain) && ParseVersion(source).Some?
    ensures ParseVersion(target).Some?
    ensures chain != [] ==> Precedes(ParseVersion(source).value, ParseVersion(target).value)
    ensures forall i :: 0 <= i < |chain| ==> Forward(chain[i])
    ensures forall i :: 0 < i < |chain| ==> chain[i].source == chain[i - 1].target
    decreases |chain|
  {
    hide ParseVersion;
    if chain != [] {
      ChainClimbs(r, chain[0].target, target, chain[1..]);
    }
  }

  lemma {:induction false} ChainIsUnique(r: Registry, source: string, target: string, a: seq<Step>, b: seq<Step>)
    requires ValidRegistry(r) && ParseVersion(source).Some?
    requires IsChain(r, source, target, a) && IsChain(r, source, target, b)
    ensures a == b
    decreases |a|
  {
    hide ParseVersion;
    if a == [] {
      ChainClimbs(r, source, target, b);
    } else if b == [] {
      ChainClimbs(r, source, target, a);
    } else {
      ChainIsUnique(r, a[0].target, target, a[1..], b[1..]);
    }
  }

  lemma {:induction false} ChainGrows(r: Registry, source: string, middle: string, chain: seq<Step>)
    requires IsChain(r, source, middle, chain) && middle in r
    ensures IsChain(r, source, r[middle].target, chain + [r[middle]])
    decreases |chain|
  {
    if chain == [] {
      assert ([] + [r[middle]])[1..] == [];
    } else {
      ChainGrows(r, chain[0].target, middle, chain[1..]);
      assert (chain + [r[middle]])[1..] == chain[1..] + [r[middle]];
    }
  }

  lemma PathStep(r: Registry, current: string, target: string)
    requires current != target
    ensures HasPath(r, current, target) <==> current in r && HasPath(r, r[current].target, target)
  {
    if HasPath(r, current, target) {
      var chain: seq<Step> :| IsChain(r, current, target, chain);
      assert IsChain(r, chain[0].target, target, chain[1..]);
    }
    if current in r && HasPath(r, r[current].target, target) {
      var chain: seq<Step> :| IsChain(r, r[current].target, target, chain);
      assert ([r[current]] + chain)[1..] == chain;
      assert IsChain(r, current, target, [r[current]] + chain);
    }
  }

  lemma PathsGoUp(r: Registry, source: string, target: string)
    requires ValidRegistry(r) && ParseVersion(source).Some? && ParseVersion(target).Some?
    requires Precedes(ParseVersion(target).value, ParseVersion(source).value)
    ensures !HasPath(r, source, target)
  {
    hide ParseVersion;
    if HasPath(r, source, target) {
      var chain: seq<Step> :| IsChain(r, source, target, chain);
      ChainClimbs(r, source, target, chain);
    }
  }

  /** Resolve: it ends, its cycle check never fires, and it finds the chain exactly when there is one. */
  method Resolve(r: Registry, source: string, target: string) returns (result: Result<seq<Step>, RegistryFault>)
    requires ValidRegistry(r)
    ensures result.Ok? <==> ParseVersion(source).Some? && ParseVersion(target).Some? && HasPath(r, source, target)
    ensures result.Ok? ==> IsChain(r, source, target, result.value)
    ensures result.Err? ==> result.error != Cycle
  {
    hide ParseVersion;
    if ParseVersion(source).None? || ParseVersion(target).None? {
      return Err(BadVersion);
    }
    var goal := ParseVersion(target).value;
    if Precedes(goal, ParseVersion(source).value) {
      PathsGoUp(r, source, target);
      return Err(Downgrade);
    }
    if source == target {
      assert IsChain(r, source, target, []);
      return Ok([]);
    }
    var chain: seq<Step> := [];
    var current := source;
    var seen: set<string> := {};
    while current != target
      invariant ParseVersion(current).Some? && seen <= r.Keys && IsChain(r, source, current, chain)
      invariant HasPath(r, source, target) <==> HasPath(r, current, target)
      invariant forall s :: s in seen ==> ParseVersion(s).Some? && Precedes(ParseVersion(s).value, ParseVersion(current).value)
      decreases |r.Keys - seen|
    {
      PathStep(r, current, target);
      if current in seen {
        return Err(Cycle);
      }
      if current !in r {
        return Err(NoPath);
      }
      assert current in r.Keys - seen;
      seen := seen + {current};
      var step := r[current];
      assert Forward(step);
      if Precedes(goal, ParseVersion(step.target).value) {
        PathsGoUp(r, step.target, target);
        return Err(SkipsTarget);
      }
      ChainGrows(r, source, current, chain);
      chain := chain + [step];
      current := step.target;
    }
    return Ok(chain);
  }
}
