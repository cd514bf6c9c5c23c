/** From a change to the verification it needs, and from verification results to whether the task is
    complete. The planner picks profiles to run; the completion gate, written separately, judges
    their results. What the planner asks for is enough for the gate. */
module VerificationPlan {
  import opened Wrappers

  datatype ProofKind = Code | Contract | LiveE2E | RuntimeObservability | SimulatedFlow | StateRender

  datatype Coverage = Coverage(advisory: bool, kind: ProofKind, scenarios: seq<string>, boundaries: seq<string>)

  datatype Profile = Profile(id: string, coverage: Coverage, commands: nat)

  datatype Need = Need(kind: ProofKind, scenario: string, boundary: Option<string>)

  datatype Obligation = Obligation(id: string, need: Need, appliesTo: seq<string>)

  datatype Manifest = Manifest(id: string, profile: string, obligations: seq<Obligation>)

  datatype Resolved = Resolved(id: string, need: Need, acceptable: seq<string>, paths: seq<string>)

  datatype Plan = Plan(
    baseProfiles: seq<string>, obligationProfiles: seq<string>, requiredProfiles: seq<string>,
    obligations: seq<Resolved>)

  /** The comparisons strings are sorted by: the default one, and the locale's. */
  datatype Orders = Orders(byDefault: (string, string) -> int, byLocale: (string, string) -> int)

  // ---------------------------------------------------------------------------
  // Sequences

  function Filter<T(!new)>(s: seq<T>, keep: T -> bool): (r: seq<T>)
    ensures forall x :: x in r <==> x in s && keep(x)
    ensures |r| <= |s| && (|r| == |s| ==> r == s)
  {
    if s == [] then []
    else (if keep(s[0]) then [s[0]] else []) + Filter(s[1..], keep)
  }

  function Map<T, U>(s: seq<T>, f: T -> U): (r: seq<U>)
    ensures |r| == |s| && forall i | 0 <= i < |s| :: r[i] == f(s[i])
  {
    seq(|s|, i requires 0 <= i < |s| => f(s[i]))
  }

  function Flatten<T(!new)>(s: seq<seq<T>>): (r: seq<T>)
    ensures forall x :: x in r <==> exists part :: part in s && x in part
  {
    if s == [] then []
    else
      assert forall part :: part in s <==> part == s[0] || part in s[1..];
      s[0] + Flatten(s[1..])
  }

  function Distinct<T(==,!new)>(s: seq<T>): (r: seq<T>)
    ensures forall x :: x in r <==> x in s
    ensures forall i, j | 0 <= i < j < |r| :: r[i] != r[j]
  {
    if s == [] then []
    else
      var front := Distinct(s[..|s| - 1]);
      assert s == s[..|s| - 1] + [s[|s| - 1]];
      if s[|s| - 1] in front then front else front + [s[|s| - 1]]
  }

  /** Where a stable sort puts `x`, which came first, among the sorted rest. */
  function Insert<T>(x: T, s: seq<T>, compare: (T, T) -> int): (r: seq<T>)
    ensures multiset(r) == multiset([x]) + multiset(s)
  {
    if s == [] then [x]
    else if compare(x, s[0]) <= 0 then [x] + s
    else
      assert s == [s[0]] + s[1..];
      [s[0]] + Insert(x, s[1..], compare)
  }

  function Sort<T>(s: seq<T>, compare: (T, T) -> int): (r: seq<T>)
    ensures multiset(r) == multiset(s)
  {
    if s == [] then []
    else
      assert s == [s[0]] + s[1..];
      Insert(s[0], Sort(s[1..], compare), compare)
  }

  lemma SameElements<T(!new)>(s: seq<T>, compare: (T, T) -> int)
    ensures forall x :: x in Sort(s, compare) <==> x in s
    ensures |Sort(s, compare)| == |s|
  {
    assert multiset(Sort(s, compare)) == multiset(s);
    assert forall x :: x in Sort(s, compare) <==> x in multiset(Sort(s, compare));
    assert |multiset(Sort(s, compare))| == |Sort(s, compare)| && |multiset(s)| == |s|;
  }

  ghost predicate IsComparison<T(!new)>(compare: (T, T) -> int) {
    && (forall x, y :: compare(x, y) <= 0 || compare(y, x) <= 0)
    && (forall x, y, z | compare(x, y) <= 0 && compare(y, z) <= 0 :: compare(x, z) <= 0)
  }

  predicate Ascending<T>(s: seq<T>, compare: (T, T) -> int) {
    forall i, j | 0 <= i < j < |s| :: compare(s[i], s[j]) <= 0
  }

  lemma {:induction false} InsertKeepsOrder<T(!new)>(x: T, s: seq<T>, compare: (T, T) -> int)
    requires IsComparison(compare) && Ascending(s, compare)
    ensures Ascending(Insert(x, s, compare), compare)
    decreases |s|
  {
    if s != [] && compare(x, s[0]) > 0 {
      InsertKeepsOrder(x, s[1..], compare);
      var rest := Insert(x, s[1..], compare);
      forall y | y in rest ensures compare(s[0], y) <= 0 {
        InsertedElements(x, s[1..], compare, y);
      }
      PrependKeepsOrder(s[0], rest, compare);
    }
  }

  lemma InsertedElements<T(!new)>(x: T, s: seq<T>, compare: (T, T) -> int, y: T)
    ensures y in Insert(x, s, compare) <==> y == x || y in s
  {
    assert y in multiset(Insert(x, s, compare)) <==> y in multiset([x]) || y in multiset(s);
  }

  lemma PrependKeepsOrder<T(!new)>(x: T, s: seq<T>, compare: (T, T) -> int)
    requires Ascending(s, compare) && forall y | y in s :: compare(x, y) <= 0
    ensures Ascending([x] + s, compare)
  {
  }

  lemma {:induction false} SortSorts<T(!new)>(s: seq<T>, compare: (T, T) -> int)
    requires IsComparison(compare)
    ensures Ascending(Sort(s, compare), compare)
    decreases |s|
  {
    if s != [] {
      SortSorts(s[1..], compare);
      InsertKeepsOrder(s[0], Sort(s[1..], compare), compare);
    }
  }

  function UniqueSorted(values: seq<string>, orders: Orders): seq<string> {
    Sort(Distinct(values), orders.byDefault)
  }

  // ---------------------------------------------------------------------------
  // What satisfies what

  function Proves(candidate: ProofKind): set<ProofKind> {
    match candidate
    case Code => {Code}
    case Contract => {Contract}
    case LiveE2E => {LiveE2E, SimulatedFlow, StateRender}
    case RuntimeObservability => {RuntimeObservability}
    case SimulatedFlow => {SimulatedFlow, StateRender}
    case StateRender => {StateRender}
  }

  predicate CanSatisfy(need: Need, coverage: Coverage) {
    && !coverage.advisory
    && need.kind in Proves(coverage.kind)
    && (coverage.scenarios == [] || need.scenario in coverage.scenarios)
    && (need.boundary.None? || coverage.boundaries == [] || need.boundary.value in coverage.boundaries)
  }

  function ExplicitMatches(need: Need, coverage: Coverage): nat {
    (if need.scenario in coverage.scenarios then 1 else 0)
    + (if need.boundary.Some? && need.boundary.value in coverage.boundaries then 1 else 0)
  }

  // ---------------------------------------------------------------------------
  // The planner

  /** Negative when `left` is the better choice: more explicit matches, then a smaller scope, then
      fewer commands, then the locale's order of the names. */
  function Compare(need: Need, orders: Orders, left: Profile, right: Profile): int {
    var leftMatches, rightMatches := ExplicitMatches(need, left.coverage), ExplicitMatches(need, right.coverage);
    var leftScope, rightScope := Scope(left), Scope(right);
    if leftMatches != rightMatches then rightMatches - leftMatches
    else if leftScope != rightScope then leftScope - rightScope
    else if left.commands != right.commands then left.commands - right.commands
    else orders.byLocale(left.id, right.id)
  }

  function Scope(p: Profile): nat { |p.coverage.scenarios| + |p.coverage.boundaries| }

  /** The first profile of that name. */
  function Find(id: string, profiles: seq<Profile>): (p: Option<Profile>)
    ensures p.Some? ==> p.value in profiles && p.value.id == id
    ensures p.None? ==> forall other <- profiles :: other.id != id
  {
    if profiles == [] then None
    else if profiles[0].id == id then Some(profiles[0])
    else Find(id, profiles[1..])
  }

  function Usable(acceptable: seq<string>, profiles: seq<Profile>): (r: seq<Profile>) {
    if acceptable == [] then []
    else
      var found := Find(acceptable[0], profiles);
      (if found.Some? && !found.value.coverage.advisory then [found.value] else [])
      + Usable(acceptable[1..], profiles)
  }

  function Selected(need: Need, acceptable: seq<string>, base: seq<string>, profiles: seq<Profile>, orders: Orders)
    : seq<Profile>
  {
    var usable := Usable(acceptable, profiles);
    var explicit := Filter(usable, (p: Profile) => ExplicitMatches(need, p.coverage) > 0);
    var based := Filter(usable, (p: Profile) => p.id in base);
    if explicit != [] then explicit
    else if based != [] then based
    else if usable == [] then []
    else
      SameElements(usable, (l, r) => Compare(need, orders, l, r));
      [Sort(usable, (l, r) => Compare(need, orders, l, r))[0]]
  }

  function Acceptable(need: Need, profiles: seq<Profile>, orders: Orders): seq<string> {
    Sort(Map(Filter(profiles, (p: Profile) => CanSatisfy(need, p.coverage)), (p: Profile) => p.id), orders.byDefault)
  }

  function Matched(manifests: seq<Manifest>, matchedIds: seq<string>): seq<Manifest> {
    Filter(manifests, (m: Manifest) => m.id in matchedIds)
  }

  function Resolve(o: Obligation, paths: seq<string>, profiles: seq<Profile>, orders: Orders,
                   matches: (string, string) -> bool): seq<Resolved>
  {
    var matched := Filter(paths, path => exists pattern <- o.appliesTo :: matches(pattern, path));
    if matched == [] then []
    else [Resolved(o.id, o.need, Acceptable(o.need, profiles, orders), Sort(matched, orders.byDefault))]
  }

  function ResolveObligations(manifests: seq<Manifest>, matchedIds: seq<string>, paths: seq<string>,
                              profiles: seq<Profile>, orders: Orders, matches: (string, string) -> bool)
    : seq<Resolved>
  {
    Sort(Applying(Declared(Matched(manifests, matchedIds)), paths, profiles, orders, matches),
         (left: Resolved, right: Resolved) => orders.byLocale(left.id, right.id))
  }

  function Declared(manifests: seq<Manifest>): seq<Obligation> {
    Flatten(Map(manifests, (m: Manifest) => m.obligations))
  }

  function Applying(declared: seq<Obligation>, paths: seq<string>, profiles: seq<Profile>, orders: Orders,
                    matches: (string, string) -> bool): seq<Resolved>
  {
    Flatten(Map(declared, (o: Obligation) => Resolve(o, paths, profiles, orders, matches)))
  }

  function Extra(o: Resolved, base: seq<string>, profiles: seq<Profile>, orders: Orders): seq<string> {
    Filter(Map(Selected(o.need, o.acceptable, base, profiles, orders), (p: Profile) => p.id), id => id !in base)
  }

  function MakePlan(manifests: seq<Manifest>, matchedIds: seq<string>, paths: seq<string>,
                    profiles: seq<Profile>, orders: Orders, matches: (string, string) -> bool): Plan
  {
    var base := UniqueSorted(Map(Matched(manifests, matchedIds), (m: Manifest) => m.profile), orders);
    var obligations := ResolveObligations(manifests, matchedIds, paths, profiles, orders, matches);
    Choose(base, obligations, profiles, orders)
  }

  function Choose(base: seq<string>, obligations: seq<Resolved>, profiles: seq<Profile>, orders: Orders): Plan {
    var extra := UniqueSorted(Flatten(Map(obligations, (o: Resolved) => Extra(o, base, profiles, orders))), orders);
    Plan(base, extra, UniqueSorted(base + extra, orders), obligations)
  }

  // ---------------------------------------------------------------------------
  // Running a profile, and the completion gate

  datatype Result = Result(
    profileId: string, contract: Option<string>, fingerprint: Option<string>, passed: bool, coverage: Coverage)

  /** What running a profile records; an advisory profile always passes. */
  function Executed(p: Profile, contract: Option<string>, fingerprint: Option<string>, checksPassed: bool): Result {
    Result(p.id, contract, fingerprint, p.coverage.advisory || checksPassed, p.coverage)
  }

  predicate IsCurrent(r: Result, contract: string, fingerprint: string) {
    r.contract == Some(contract) && r.fingerprint == Some(fingerprint) && r.passed
  }

  /** Why a required profile is or is not satisfied. */
  datatype Finding = Satisfied | Missing | OtherContract | NoFingerprint | StaleTree | DidNotPass

  function ProfileFinding(contract: string, id: string, fingerprint: string, results: seq<Result>): Finding {
    var passing := Filter(results, (r: Result) => r.profileId == id && IsCurrent(r, contract, fingerprint));
    var mine := Filter(results, (r: Result) => r.profileId == id);
    var foreign := Filter(mine, (r: Result) => r.contract != Some(contract));
    var unmarked := Filter(mine, (r: Result) => r.contract == Some(contract) && r.fingerprint.None? && r.passed);
    var stale := Filter(mine, (r: Result) => r.contract == Some(contract) && r.passed && r.fingerprint.Some?
                                             && r.fingerprint != Some(fingerprint));
    if passing != [] then Satisfied
    else if |mine| == 0 then Missing
    else if |foreign| == |mine| then OtherContract
    else if |unmarked| > 0 then NoFingerprint
    else if |stale| > 0 then StaleTree
    else DidNotPass
  }

  predicate ObligationSatisfied(contract: string, o: Resolved, fingerprint: string, results: seq<Result>) {
    exists r <- results ::
      r.profileId in o.acceptable && IsCurrent(r, contract, fingerprint) && CanSatisfy(o.need, r.coverage)
  }

  datatype Status = Passed | Blocked | Failed

  function Completion(plan: Plan, contract: string, fingerprint: string, results: seq<Result>,
                      otherChecks: bool, blockers: nat): Status
  {
    if (forall id <- plan.requiredProfiles :: ProfileFinding(contract, id, fingerprint, results) == Satisfied)
       && (forall o <- plan.obligations :: ObligationSatisfied(contract, o, fingerprint, results))
       && otherChecks
    then Passed
    else if blockers > 0 then Blocked
    else Failed
  }

  /** The gate on the results themselves: a task is complete exactly when every required profile and
      every obligation has a result that passed for this contract and this tree, for an obligation of
      an acceptable profile and with coverage that suits it, and the other checks pass. */
  lemma CompletionIsExactly(plan: Plan, contract: string, fingerprint: string, results: seq<Result>,
                            otherChecks: bool, blockers: nat)
    ensures Completion(plan, contract, fingerprint, results, otherChecks, blockers) == Passed <==>
      && (forall id <- plan.requiredProfiles ::
            exists r :: r in results && r.profileId == id && r.passed
                        && r.contract == Some(contract) && r.fingerprint == Some(fingerprint))
      && (forall o <- plan.obligations ::
            exists r :: r in results && r.profileId in o.acceptable && r.passed
                        && r.contract == Some(contract) && r.fingerprint == Some(fingerprint)
                        && CanSatisfy(o.need, r.coverage))
      && otherChecks
    ensures Completion(plan, contract, fingerprint, results, otherChecks, blockers) == Blocked <==>
      Completion(plan, contract, fingerprint, results, otherChecks, blockers) != Passed && blockers > 0
  {
    forall id <- plan.requiredProfiles
      ensures ProfileFinding(contract, id, fingerprint, results) == Satisfied <==>
        exists r :: r in results && r.profileId == id && r.passed
                    && r.contract == Some(contract) && r.fingerprint == Some(fingerprint)
    {
      FindingMeans(contract, id, fingerprint, results);
    }
    hide ProfileFinding, CanSatisfy;
  }

  /** Coverage suits an obligation: it is not advisory, its kind of proof is as strong as needed, and
      what it is said to cover, if anything, includes the scenario and the boundary. */
  lemma CanSatisfyIsExactly(need: Need, coverage: Coverage)
    ensures CanSatisfy(need, coverage) <==>
      && coverage.advisory == false
      && (|| need.kind == coverage.kind
          || (coverage.kind == LiveE2E && (need.kind == SimulatedFlow || need.kind == StateRender))
          || (coverage.kind == SimulatedFlow && need.kind == StateRender))
      && (|coverage.scenarios| > 0 ==> exists i :: 0 <= i < |coverage.scenarios| && coverage.scenarios[i] == need.scenario)
      && (need.boundary != None && |coverage.boundaries| > 0 ==>
            exists i :: 0 <= i < |coverage.boundaries| && coverage.boundaries[i] == need.boundary.value)
  {
  }

  lemma ExplicitMatchesAre(need: Need, coverage: Coverage)
    ensures ExplicitMatches(need, coverage) == 0 <==>
      need.scenario !in coverage.scenarios && (need.boundary.None? || need.boundary.value !in coverage.boundaries)
    ensures ExplicitMatches(need, coverage) == 2 <==>
      need.scenario in coverage.scenarios && need.boundary.Some? && need.boundary.value in coverage.boundaries
    ensures ExplicitMatches(need, coverage) <= 2
  {
  }

  /** A result carries the profile's own name and coverage; an advisory profile passes regardless. */
  lemma ExecutedIsExactly(p: Profile, contract: Option<string>, fingerprint: Option<string>, checksPassed: bool)
    ensures var r := Executed(p, contract, fingerprint, checksPassed);
      && r.profileId == p.id && r.coverage == p.coverage && r.contract == contract && r.fingerprint == fingerprint
      && (r.passed == false <==> !checksPassed && !p.coverage.advisory)
  {
  }

  // ---------------------------------------------------------------------------
  // Choosing profiles

  ghost predicate UniqueIds(profiles: seq<Profile>) {
    forall i, j | 0 <= i < j < |profiles| :: profiles[i].id != profiles[j].id
  }

  /** The part of profile validation that tells whether names repeat. */
  method RepeatedIds(profiles: seq<Profile>) returns (repeated: seq<string>)
    ensures repeated == [] <==> UniqueIds(profiles)
    ensures forall id <- repeated :: exists i, j :: 0 <= i < j < |profiles| && profiles[i].id == profiles[j].id == id
  {
    repeated := [];
    var seen: set<string> := {};
    for k := 0 to |profiles|
      invariant seen == set i | 0 <= i < k :: profiles[i].id
      invariant repeated == [] <==> UniqueIds(profiles[..k])
      invariant forall id <- repeated :: exists i, j :: 0 <= i < j < k && profiles[i].id == profiles[j].id == id
    {
      if profiles[k].id in seen {
        var i :| 0 <= i < k && profiles[i].id == profiles[k].id;
        assert profiles[..k + 1][i].id == profiles[..k + 1][k].id;
        repeated := repeated + [profiles[k].id];
      } else if repeated != [] {
        assert forall i, j | 0 <= i < j < k :: profiles[..k][i] == profiles[..k + 1][i] && profiles[..k][j] == profiles[..k + 1][j];
      }
      seen := seen + {profiles[k].id};
    }
    assert profiles[..|profiles|] == profiles;
  }

  lemma {:induction false} FindsTheOnlyOne(p: Profile, profiles: seq<Profile>)
    requires UniqueIds(profiles) && p in profiles
    ensures Find(p.id, profiles) == Some(p)
    decreases |profiles|
  {
    if profiles[0] != p {
      assert p in profiles[1..];
      FindsTheOnlyOne(p, profiles[1..]);
    }
  }

  lemma AcceptableMeans(need: Need, profiles: seq<Profile>, orders: Orders, id: string)
    ensures id in Acceptable(need, profiles, orders) <==>
              exists p :: p in profiles && p.id == id && CanSatisfy(need, p.coverage)
  {
    var able := Filter(profiles, (p: Profile) => CanSatisfy(need, p.coverage));
    var ids := Map(able, (p: Profile) => p.id);
    SameElements(ids, orders.byDefault);
    if id in ids {
      var i :| 0 <= i < |ids| && ids[i] == id;
      assert able[i] in able;
    }
    forall p | p in able ensures p.id in ids {
      var i :| 0 <= i < |able| && able[i] == p;
      assert ids[i] == p.id;
    }
  }

  lemma {:induction false} UsableMeans(acceptable: seq<string>, profiles: seq<Profile>, p: Profile)
    ensures p in Usable(acceptable, profiles) <==>
              p.id in acceptable && Find(p.id, profiles) == Some(p) && !p.coverage.advisory
    decreases |acceptable|
  {
    if acceptable != [] {
      UsableMeans(acceptable[1..], profiles, p);
    }
  }

  /** With unique names, the usable profiles are those that can satisfy the obligation. */
  lemma UsableProfilesCanSatisfy(need: Need, profiles: seq<Profile>, orders: Orders, p: Profile)
    requires UniqueIds(profiles)
    ensures p in Usable(Acceptable(need, profiles, orders), profiles) <==> p in profiles && CanSatisfy(need, p.coverage)
  {
    UsableMeans(Acceptable(need, profiles, orders), profiles, p);
    AcceptableMeans(need, profiles, orders, p.id);
    if p in profiles {
      FindsTheOnlyOne(p, profiles);
    }
    if p in Usable(Acceptable(need, profiles, orders), profiles) {
      var q :| q in profiles && q.id == p.id && CanSatisfy(need, q.coverage);
      FindsTheOnlyOne(q, profiles);
    }
  }

  /** Something is selected whenever anything is usable, and only from what is usable. */
  lemma SelectedIsUsable(need: Need, acceptable: seq<string>, base: seq<string>, profiles: seq<Profile>, orders: Orders)
    ensures var usable := Usable(acceptable, profiles);
            var selected := Selected(need, acceptable, base, profiles, orders);
            && (selected == [] <==> usable == [])
            && forall p <- selected :: p in usable
  {
    var usable := Usable(acceptable, profiles);
    var compare := (l, r) => Compare(need, orders, l, r);
    SameElements(usable, compare);
    if usable != [] {
      assert Sort(usable, compare)[0] in Sort(usable, compare);
    }
  }

  lemma CompareIsComparison(need: Need, orders: Orders)
    requires IsComparison(orders.byLocale)
    ensures IsComparison((l, r) => Compare(need, orders, l, r))
  {
  }

  /** When no profile was made for the obligation and no base profile will do, the one selected is
      at least as good as any other usable one. */
  lemma NarrowestIsBest(need: Need, acceptable: seq<string>, base: seq<string>, profiles: seq<Profile>,
                        orders: Orders, p: Profile, q: Profile)
    requires IsComparison(orders.byLocale)
    requires p in Selected(need, acceptable, base, profiles, orders)
    requires ExplicitMatches(need, p.coverage) == 0 && p.id !in base
    requires q in Usable(acceptable, profiles)
    ensures Selected(need, acceptable, base, profiles, orders) == [p]
    ensures Compare(need, orders, p, q) <= 0
    ensures ExplicitMatches(need, q.coverage) == 0 && q.id !in base
    ensures var here := |p.coverage.scenarios| + |p.coverage.boundaries|;
      var there := |q.coverage.scenarios| + |q.coverage.boundaries|;
      && (here < there || (here == there && p.commands <= q.commands))
      && (here == there && p.commands == q.commands ==> orders.byLocale(p.id, q.id) <= 0)
  {
    var usable := Usable(acceptable, profiles);
    var compare := (l, r) => Compare(need, orders, l, r);
    SameElements(usable, compare);
    CompareIsComparison(need, orders);
    SortSorts(usable, compare);
    assert q in Filter(usable, (p: Profile) => ExplicitMatches(need, p.coverage) > 0)
           || ExplicitMatches(need, q.coverage) == 0;
    assert q in Filter(usable, (p: Profile) => p.id in base) || q.id !in base;
    assert compare(p, q) <= 0 by {
      var sorted := Sort(usable, compare);
      assert q in sorted;
      assert compare(q, q) <= 0;
    }
  }

  /** Profiles made for the obligation are preferred, all of them, and after them base profiles. */
  lemma SelectionPrefers(need: Need, acceptable: seq<string>, base: seq<string>, profiles: seq<Profile>,
                         orders: Orders, p: Profile, q: Profile)
    requires p in Selected(need, acceptable, base, profiles, orders) && q in Usable(acceptable, profiles)
    ensures ExplicitMatches(need, q.coverage) > 0 ==>
              q in Selected(need, acceptable, base, profiles, orders) && ExplicitMatches(need, p.coverage) > 0
    ensures q.id in base && ExplicitMatches(need, p.coverage) == 0 ==>
              q in Selected(need, acceptable, base, profiles, orders) && p.id in base
  {
    var usable := Usable(acceptable, profiles);
    var explicit := Filter(usable, (p: Profile) => ExplicitMatches(need, p.coverage) > 0);
    var based := Filter(usable, (p: Profile) => p.id in base);
    assert ExplicitMatches(need, q.coverage) > 0 ==> q in explicit;
    assert q.id in base ==> q in based;
    SelectedIsUsable(need, acceptable, base, profiles, orders);
  }

  // ---------------------------------------------------------------------------
  // The plan

  /** The base profiles are those of the matched manifests; the obligations' profiles those selected
      for an obligation and not among them. */
  lemma PlanLists(manifests: seq<Manifest>, matchedIds: seq<string>, paths: seq<string>, profiles: seq<Profile>,
                  orders: Orders, matches: (string, string) -> bool, id: string)
    ensures var plan := MakePlan(manifests, matchedIds, paths, profiles, orders, matches);
      && (id in plan.baseProfiles <==> exists m :: m in manifests && m.id in matchedIds && m.profile == id)
      && (id in plan.obligationProfiles <==>
            && id !in plan.baseProfiles
            && exists o: Resolved, p: Profile :: o in plan.obligations && p.id == id
                 && p in Selected(o.need, o.acceptable, plan.baseProfiles, profiles, orders))
  {
    var matched := Matched(manifests, matchedIds);
    var plan := MakePlan(manifests, matchedIds, paths, profiles, orders, matches);
    hide Selected, ResolveObligations, UniqueSorted;
    UniqueSortedMeans(Map(matched, (m: Manifest) => m.profile), orders);
    MapMeans(matched, (m: Manifest) => m.profile, id);
    var extra := (o: Resolved) => Extra(o, plan.baseProfiles, profiles, orders);
    UniqueSortedMeans(Flatten(Map(plan.obligations, extra)), orders);
    FlatMapMeans(plan.obligations, extra, id);
    forall o ensures id in Extra(o, plan.baseProfiles, profiles, orders) <==>
      && id !in plan.baseProfiles
      && exists p :: p in Selected(o.need, o.acceptable, plan.baseProfiles, profiles, orders) && p.id == id
    {
      MapMeans(Selected(o.need, o.acceptable, plan.baseProfiles, profiles, orders), (p: Profile) => p.id, id);
    }
  }

  lemma MapMeans<T(!new), U(!new)>(s: seq<T>, f: T -> U, y: U)
    ensures y in Map(s, f) <==> exists x :: x in s && f(x) == y
  {
    if y in Map(s, f) {
      var i :| 0 <= i < |s| && Map(s, f)[i] == y;
      assert s[i] in s;
    }
    if x :| x in s && f(x) == y {
      var i :| 0 <= i < |s| && s[i] == x;
      assert Map(s, f)[i] == y;
    }
  }

  /** The plan's lists of profiles ascend without repetition; base profiles are not listed again. */
  lemma PlanIsSorted(base: seq<string>, obligations: seq<Resolved>, profiles: seq<Profile>, orders: Orders)
    requires IsComparison(orders.byDefault)
    ensures var plan := Choose(base, obligations, profiles, orders);
            && Ascending(plan.obligationProfiles, orders.byDefault)
            && Ascending(plan.requiredProfiles, orders.byDefault)
            && (forall id :: multiset(plan.obligationProfiles)[id] <= 1)
            && (forall id :: multiset(plan.requiredProfiles)[id] <= 1)
            && (forall id :: id in plan.requiredProfiles <==> id in base || id in plan.obligationProfiles)
            && (forall id <- plan.obligationProfiles :: id !in base)
  {
    hide Selected, UniqueSorted;
    var plan := Choose(base, obligations, profiles, orders);
    var extra := Flatten(Map(obligations, (o: Resolved) => Extra(o, base, profiles, orders)));
    UniqueSortedAscends(extra, orders);
    UniqueSortedAscends(base + plan.obligationProfiles, orders);
    UniqueSortedMeans(extra, orders);
    UniqueSortedMeans(base + plan.obligationProfiles, orders);
    forall id | id in extra ensures id !in base {
      FlatMapMeans(obligations, (o: Resolved) => Extra(o, base, profiles, orders), id);
    }
  }

  lemma UniqueSortedAscends(values: seq<string>, orders: Orders)
    requires IsComparison(orders.byDefault)
    ensures Ascending(UniqueSorted(values, orders), orders.byDefault)
  {
    SortSorts(Distinct(values), orders.byDefault);
  }

  lemma UniqueSortedMeans(values: seq<string>, orders: Orders)
    ensures forall v :: v in UniqueSorted(values, orders) <==> v in values
    ensures forall v :: multiset(UniqueSorted(values, orders))[v] <= 1
  {
    SameElements(Distinct(values), orders.byDefault);
    DistinctCounts(Distinct(values));
  }

  lemma {:induction false} DistinctCounts(s: seq<string>)
    requires forall i, j | 0 <= i < j < |s| :: s[i] != s[j]
    ensures forall v :: multiset(s)[v] <= 1
    decreases |s|
  {
    if s != [] {
      DistinctCounts(s[1..]);
      assert s == [s[0]] + s[1..];
      assert s[0] !in multiset(s[1..]);
    }
  }

  lemma FlatMapMeans<T(!new), U(!new)>(s: seq<T>, f: T -> seq<U>, y: U)
    ensures y in Flatten(Map(s, f)) <==> exists x :: x in s && y in f(x)
  {
    var all := Map(s, f);
    if y in Flatten(all) {
      var part :| part in all && y in part;
      var i :| 0 <= i < |all| && all[i] == part;
      assert s[i] in s && y in f(s[i]);
    }
    if x :| x in s && y in f(x) {
      var i :| 0 <= i < |s| && s[i] == x;
      assert all[i] in all;
    }
  }

  lemma DeclaredMeans(manifests: seq<Manifest>, d: Obligation)
    ensures d in Declared(manifests) <==> exists m :: m in manifests && d in m.obligations
  {
    FlatMapMeans(manifests, (m: Manifest) => m.obligations, d);
  }

  lemma ApplyingMeans(declared: seq<Obligation>, paths: seq<string>, profiles: seq<Profile>, orders: Orders,
                      matches: (string, string) -> bool, o: Resolved)
    ensures o in Applying(declared, paths, profiles, orders, matches) <==>
              exists d :: d in declared && o in Resolve(d, paths, profiles, orders, matches)
  {
    hide Resolve;
    FlatMapMeans(declared, (d: Obligation) => Resolve(d, paths, profiles, orders, matches), o);
  }

  /** The obligations in the plan are those that a matched manifest declares and that apply to some
      of the paths; no other is in it, and none is left out. */
  lemma ObligationsAreResolved(manifests: seq<Manifest>, matchedIds: seq<string>, paths: seq<string>,
                               profiles: seq<Profile>, orders: Orders, matches: (string, string) -> bool, o: Resolved)
    ensures o in ResolveObligations(manifests, matchedIds, paths, profiles, orders, matches) <==>
              exists d, m :: m in manifests && m.id in matchedIds && d in m.obligations
                             && o in Resolve(d, paths, profiles, orders, matches)
  {
    hide Resolve, Declared, Applying;
    var matched := Matched(manifests, matchedIds);
    var all := Applying(Declared(matched), paths, profiles, orders, matches);
    SameElements(all, (left: Resolved, right: Resolved) => orders.byLocale(left.id, right.id));
    ApplyingMeans(Declared(matched), paths, profiles, orders, matches, o);
    forall d ensures d in Declared(matched) <==> exists m :: m in matched && d in m.obligations {
      DeclaredMeans(matched, d);
    }
  }

  lemma ResolvedAsDeclared(d: Obligation, paths: seq<string>, profiles: seq<Profile>, orders: Orders,
                           matches: (string, string) -> bool, o: Resolved)
    ensures o in Resolve(d, paths, profiles, orders, matches) <==>
              && o == Resolved(d.id, d.need, Acceptable(d.need, profiles, orders), o.paths)
              && o.paths == Sort(Filter(paths, path => exists pattern <- d.appliesTo :: matches(pattern, path)),
                                 orders.byDefault)
              && exists path :: path in paths && exists pattern <- d.appliesTo :: matches(pattern, path)
  {
    var applies := path => exists pattern <- d.appliesTo :: matches(pattern, path);
    var matched := Filter(paths, applies);
    assert matched != [] ==> matched[0] in matched;
    if path :| path in paths && applies(path) {
      assert path in matched;
    }
  }

  /** What is selected for an obligation is required. */
  lemma SelectedIsRequired(base: seq<string>, obligations: seq<Resolved>, profiles: seq<Profile>, orders: Orders,
                           o: Resolved, p: Profile)
    requires o in obligations && p in Selected(o.need, o.acceptable, base, profiles, orders)
    ensures p.id in Choose(base, obligations, profiles, orders).requiredProfiles
  {
    hide Selected, UniqueSorted, Flatten;
    var plan := Choose(base, obligations, profiles, orders);
    var extra := (x: Resolved) => Extra(x, base, profiles, orders);
    UniqueSortedMeans(Flatten(Map(obligations, extra)), orders);
    UniqueSortedMeans(base + plan.obligationProfiles, orders);
    var selected := Selected(o.need, o.acceptable, base, profiles, orders);
    var j :| 0 <= j < |selected| && selected[j] == p;
    assert Map(selected, (q: Profile) => q.id)[j] == p.id;
    assert p.id in base || p.id in Extra(o, base, profiles, orders);
    FlatMapMeans(obligations, extra, p.id);
    assert p.id in Extra(o, base, profiles, orders) ==> p.id in extra(o);
  }

  /** A current passing result under the name `id`, recorded by a run of the profile of that name,
      if there is one. */
  ghost predicate HasPassed(id: string, profiles: seq<Profile>, contract: string, fingerprint: string,
                            results: seq<Result>)
  {
    exists r :: r in results && r.profileId == id && IsCurrent(r, contract, fingerprint)
      && (Find(id, profiles).Some? ==> r.coverage == Find(id, profiles).value.coverage)
  }

  lemma RunningAProfilePasses(p: Profile, profiles: seq<Profile>, contract: string, fingerprint: string,
                              results: seq<Result>)
    requires Find(p.id, profiles) == Some(p)
    requires Executed(p, Some(contract), Some(fingerprint), true) in results
    ensures HasPassed(p.id, profiles, contract, fingerprint, results)
  {
    var r := Executed(p, Some(contract), Some(fingerprint), true);
    assert r in results && IsCurrent(r, contract, fingerprint);
  }

  lemma PlanIsChosen(manifests: seq<Manifest>, matchedIds: seq<string>, paths: seq<string>,
                     profiles: seq<Profile>, orders: Orders, matches: (string, string) -> bool)
    ensures var plan := MakePlan(manifests, matchedIds, paths, profiles, orders, matches);
            && plan == Choose(plan.baseProfiles, plan.obligations, profiles, orders)
            && plan.obligations == ResolveObligations(manifests, matchedIds, paths, profiles, orders, matches)
  {
    hide ResolveObligations, UniqueSorted, Extra;
  }

  /** The paths listed with an obligation are those it applies to, in the default order. */
  lemma ResolvedPaths(d: Obligation, paths: seq<string>, profiles: seq<Profile>, orders: Orders,
                      matches: (string, string) -> bool, o: Resolved, path: string)
    requires o in Resolve(d, paths, profiles, orders, matches)
    ensures path in o.paths <==> path in paths && exists pattern <- d.appliesTo :: matches(pattern, path)
    ensures IsComparison(orders.byDefault) ==> Ascending(o.paths, orders.byDefault)
  {
    var matched := Filter(paths, path => exists pattern <- d.appliesTo :: matches(pattern, path));
    SameElements(matched, orders.byDefault);
    if IsComparison(orders.byDefault) {
      SortSorts(matched, orders.byDefault);
    }
  }

  /** An obligation declared by a matched manifest for one of the paths is in the plan. */
  lemma DeclaredIsPlanned(manifests: seq<Manifest>, matchedIds: seq<string>, paths: seq<string>,
                          profiles: seq<Profile>, orders: Orders, matches: (string, string) -> bool,
                          m: Manifest, d: Obligation, pattern: string, path: string) returns (o: Resolved)
    requires m in manifests && m.id in matchedIds && d in m.obligations
    requires path in paths && pattern in d.appliesTo && matches(pattern, path)
    ensures o in MakePlan(manifests, matchedIds, paths, profiles, orders, matches).obligations
    ensures o.id == d.id && o.need == d.need && o.acceptable == Acceptable(d.need, profiles, orders)
  {
    hide Acceptable, ResolveObligations, Choose, MakePlan, Resolve;
    var matched := Filter(paths, path => exists pattern <- d.appliesTo :: matches(pattern, path));
    o := Resolved(d.id, d.need, Acceptable(d.need, profiles, orders), Sort(matched, orders.byDefault));
    ResolvedAsDeclared(d, paths, profiles, orders, matches, o);
    ObligationsAreResolved(manifests, matchedIds, paths, profiles, orders, matches, o);
    PlanIsChosen(manifests, matchedIds, paths, profiles, orders, matches);
  }

  /** The planner's profiles are enough for the gate: once each required one has passed, every
      required profile is satisfied, and so is every obligation but those no profile suits. */
  lemma PlanIsEnough(manifests: seq<Manifest>, matchedIds: seq<string>, paths: seq<string>,
                     profiles: seq<Profile>, orders: Orders, matches: (string, string) -> bool,
                     contract: string, fingerprint: string, results: seq<Result>)
    requires UniqueIds(profiles)
    requires var plan := MakePlan(manifests, matchedIds, paths, profiles, orders, matches);
             forall id <- plan.requiredProfiles :: HasPassed(id, profiles, contract, fingerprint, results)
    ensures var plan := MakePlan(manifests, matchedIds, paths, profiles, orders, matches);
            && (forall id <- plan.requiredProfiles :: ProfileFinding(contract, id, fingerprint, results) == Satisfied)
            && (forall o <- plan.obligations ::
                  ObligationSatisfied(contract, o, fingerprint, results) <==> o.acceptable != [])
  {
    PlanIsChosen(manifests, matchedIds, paths, profiles, orders, matches);
    hide MakePlan, ProfileFinding, Choose, Acceptable, Resolve, ResolveObligations, ObligationSatisfied, UniqueIds;
    var plan := MakePlan(manifests, matchedIds, paths, profiles, orders, matches);
    forall id <- plan.requiredProfiles ensures ProfileFinding(contract, id, fingerprint, results) == Satisfied {
      assert HasPassed(id, profiles, contract, fingerprint, results);
      FindingMeans(contract, id, fingerprint, results);
    }
    forall o <- plan.obligations
      ensures ObligationSatisfied(contract, o, fingerprint, results) <==> o.acceptable != []
    {
      ObligationsAreResolved(manifests, matchedIds, paths, profiles, orders, matches, o);
      var d, m :| m in manifests && m.id in matchedIds && d in m.obligations
                  && o in Resolve(d, paths, profiles, orders, matches);
      ResolvedAsDeclared(d, paths, profiles, orders, matches, o);
      ObligationIsMet(plan.baseProfiles, plan.obligations, profiles, orders, contract, fingerprint, results, o);
    }
  }

  lemma ObligationIsMet(base: seq<string>, obligations: seq<Resolved>, profiles: seq<Profile>, orders: Orders,
                        contract: string, fingerprint: string, results: seq<Result>, o: Resolved)
    requires UniqueIds(profiles) && o in obligations && o.acceptable == Acceptable(o.need, profiles, orders)
    requires forall id <- Choose(base, obligations, profiles, orders).requiredProfiles ::
               HasPassed(id, profiles, contract, fingerprint, results)
    ensures ObligationSatisfied(contract, o, fingerprint, results) <==> o.acceptable != []
  {
    hide Choose, Selected, Acceptable, CanSatisfy, UniqueIds;
    if o.acceptable != [] {
      var p := SuitableSelection(o, base, profiles, orders);
      SelectedIsRequired(base, obligations, profiles, orders, o, p);
      FindsTheOnlyOne(p, profiles);
      assert HasPassed(p.id, profiles, contract, fingerprint, results);
    }
  }

  lemma SuitableSelection(o: Resolved, base: seq<string>, profiles: seq<Profile>, orders: Orders) returns (p: Profile)
    requires UniqueIds(profiles) && o.acceptable == Acceptable(o.need, profiles, orders) && o.acceptable != []
    ensures p in Selected(o.need, o.acceptable, base, profiles, orders)
    ensures p in profiles && p.id in o.acceptable && CanSatisfy(o.need, p.coverage)
  {
    AcceptableMeans(o.need, profiles, orders, o.acceptable[0]);
    var q :| q in profiles && q.id == o.acceptable[0] && CanSatisfy(o.need, q.coverage);
    UsableProfilesCanSatisfy(o.need, profiles, orders, q);
    SelectedIsUsable(o.need, o.acceptable, base, profiles, orders);
    p := Selected(o.need, o.acceptable, base, profiles, orders)[0];
    UsableProfilesCanSatisfy(o.need, profiles, orders, p);
    AcceptableMeans(o.need, profiles, orders, p.id);
  }

  /** So, all else being in order, such a task is complete exactly when every obligation that applies
      has a profile that suits it. */
  lemma CompleteExactlyWhen(manifests: seq<Manifest>, matchedIds: seq<string>, paths: seq<string>,
                            profiles: seq<Profile>, orders: Orders, matches: (string, string) -> bool,
                            contract: string, fingerprint: string, results: seq<Result>,
                            otherChecks: bool, blockers: nat)
    requires UniqueIds(profiles)
    requires var plan := MakePlan(manifests, matchedIds, paths, profiles, orders, matches);
             forall id <- plan.requiredProfiles :: HasPassed(id, profiles, contract, fingerprint, results)
    ensures var plan := MakePlan(manifests, matchedIds, paths, profiles, orders, matches);
            Completion(plan, contract, fingerprint, results, otherChecks, blockers) == Passed <==>
              otherChecks && forall o <- plan.obligations :: o.acceptable != []
  {
    PlanIsEnough(manifests, matchedIds, paths, profiles, orders, matches, contract, fingerprint, results);
    hide MakePlan, ProfileFinding, ObligationSatisfied, UniqueIds, HasPassed;
  }

  predicate PassedFor(r: Result, id: string, contract: string) {
    r.profileId == id && r.contract == Some(contract) && r.passed
  }

  /** The reasons given for a required profile, told apart by what its results look like. */
  lemma FindingMeans(contract: string, id: string, fingerprint: string, results: seq<Result>)
    ensures var finding := ProfileFinding(contract, id, fingerprint, results);
            && (finding == Satisfied <==>
                  exists r :: r in results && r.profileId == id && r.passed
                              && r.contract == Some(contract) && r.fingerprint == Some(fingerprint))
            && (finding == Missing <==> forall r <- results :: r.profileId != id)
            && (finding == OtherContract <==>
                  && (exists r :: r in results && r.profileId == id)
                  && forall r <- results | r.profileId == id :: r.contract != Some(contract))
            && (finding == NoFingerprint <==>
                  finding != Satisfied && exists r :: r in results && PassedFor(r, id, contract) && r.fingerprint.None?)
            && (finding == StaleTree <==>
                  && (exists r :: r in results && PassedFor(r, id, contract))
                  && forall r <- results | PassedFor(r, id, contract) ::
                       r.fingerprint.Some? && r.fingerprint != Some(fingerprint))
            && (finding == DidNotPass <==>
                  && (exists r :: r in results && r.profileId == id && r.contract == Some(contract))
                  && forall r <- results :: !PassedFor(r, id, contract))
  {
    hide Filter;
    var passing := Filter(results, (r: Result) => r.profileId == id && IsCurrent(r, contract, fingerprint));
    var mine := Filter(results, (r: Result) => r.profileId == id);
    var foreign := Filter(mine, (r: Result) => r.contract != Some(contract));
    var unmarked := Filter(mine, (r: Result) => r.contract == Some(contract) && r.fingerprint.None? && r.passed);
    var stale := Filter(mine, (r: Result) => r.contract == Some(contract) && r.passed && r.fingerprint.Some?
                                             && r.fingerprint != Some(fingerprint));
    assert passing != [] ==> passing[0] in passing;
    assert mine != [] ==> mine[0] in mine;
    assert unmarked != [] ==> unmarked[0] in unmarked;
    assert stale != [] ==> stale[0] in stale;
    if |foreign| < |mine| && (forall r <- mine :: r.contract != Some(contract)) {
      FilterKeepsAll(mine, (r: Result) => r.contract != Some(contract));
    }
  }

  lemma {:induction false} FilterKeepsAll<T(!new)>(s: seq<T>, keep: T -> bool)
    requires forall x <- s :: keep(x)
    ensures Filter(s, keep) == s
    decreases |s|
  {
    if s != [] {
      FilterKeepsAll(s[1..], keep);
    }
  }

  // ---------------------------------------------------------------------------
  // Repeated names

  function Named(kind: ProofKind): Profile { Profile("a", Coverage(false, kind, [], []), 0) }

  function Sketch(): Obligation { Obligation("o", Need(StateRender, "s", None), ["*"]) }

  /** Were two profiles to share a name, the planner would list one and find the other: with every
      required profile run and passed, the gate would still find an obligation unsatisfied. */
  lemma RepeatedNamesBreakThePlan(orders: Orders)
    ensures var profiles := [Named(Code), Named(StateRender)];
            var plan := MakePlan([Manifest("m", "a", [Sketch()])], ["m"], ["f"], profiles, orders, (pattern, path) => true);
            var results := [Executed(Named(Code), Some("c"), Some("t"), true)];
            && (forall id <- plan.requiredProfiles :: HasPassed(id, profiles, "c", "t", results))
            && exists o :: o in plan.obligations && o.acceptable != [] && !ObligationSatisfied("c", o, "t", results)
  {
    hide MakePlan, ObligationSatisfied, HasPassed;
    var profiles := [Named(Code), Named(StateRender)];
    var manifest := Manifest("m", "a", [Sketch()]);
    var matches := (pattern, path) => true;
    var plan := MakePlan([manifest], ["m"], ["f"], profiles, orders, matches);
    var results := [Executed(Named(Code), Some("c"), Some("t"), true)];
    OnlyOneName(manifest, ["m"], ["f"], profiles, orders, matches);
    assert manifest in [manifest] && "m" in ["m"] && "f" in ["f"];
    var o := DeclaredIsPlanned([manifest], ["m"], ["f"], profiles, orders, matches, manifest, Sketch(), "*", "f");
    RunIsNotEnough(o, profiles, orders, results);
  }

  lemma RunIsNotEnough(o: Resolved, profiles: seq<Profile>, orders: Orders, results: seq<Result>)
    requires profiles == [Named(Code), Named(StateRender)]
    requires o.need == Sketch().need && o.acceptable == Acceptable(Sketch().need, profiles, orders)
    requires results == [Executed(Named(Code), Some("c"), Some("t"), true)]
    ensures HasPassed("a", profiles, "c", "t", results)
    ensures o.acceptable != [] && !ObligationSatisfied("c", o, "t", results)
  {
    hide Acceptable;
    RunningAProfilePasses(Named(Code), profiles, "c", "t", results);
    AcceptableMeans(Sketch().need, profiles, orders, "a");
    assert Named(StateRender) in profiles;
  }

  lemma OnlyOneName(manifest: Manifest, matchedIds: seq<string>, paths: seq<string>, profiles: seq<Profile>,
                    orders: Orders, matches: (string, string) -> bool)
    requires manifest.profile == "a" && forall p <- profiles :: p.id == "a"
    ensures forall id <- MakePlan([manifest], matchedIds, paths, profiles, orders, matches).requiredProfiles :: id == "a"
  {
    var plan := MakePlan([manifest], matchedIds, paths, profiles, orders, matches);
    var base := Map(Matched([manifest], matchedIds), (m: Manifest) => m.profile);
    var extra := (o: Resolved) => Extra(o, plan.baseProfiles, profiles, orders);
    hide ResolveObligations, UniqueSorted, Extra;
    UniqueSortedMeans(base, orders);
    UniqueSortedMeans(Flatten(Map(plan.obligations, extra)), orders);
    UniqueSortedMeans(plan.baseProfiles + plan.obligationProfiles, orders);
    forall id | id in plan.obligationProfiles ensures id == "a" {
      FlatMapMeans(plan.obligations, extra, id);
      var o :| o in plan.obligations && id in extra(o);
      ExtraIsNamed(o, plan.baseProfiles, profiles, orders, id);
    }
    assert forall m <- Matched([manifest], matchedIds) :: m == manifest;
  }

  lemma ExtraIsNamed(o: Resolved, base: seq<string>, profiles: seq<Profile>, orders: Orders, id: string)
    requires id in Extra(o, base, profiles, orders)
    ensures exists p :: p in profiles && p.id == id
  {
    hide Selected;
    var selected := Selected(o.need, o.acceptable, base, profiles, orders);
    var ids := Map(selected, (p: Profile) => p.id);
    var i :| 0 <= i < |ids| && ids[i] == id;
    SelectedIsUsable(o.need, o.acceptable, base, profiles, orders);
    assert selected[i] in selected;
    UsableMeans(o.acceptable, profiles, selected[i]);
  }
}
