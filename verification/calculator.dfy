/** The simulation entry point (`calculateAll` in src/utils/costCalculator.ts):
    price every covering bundle in catalog order, append the metered
    baseline, sort by total cost, flag the cheapest and keep the first three
    as recommendations. */
module Calculator {
  import opened Wrappers
  import opened Types
  import opened PackageCost
  import opened PayAsYouGo
  import opened Ranking
  import opened Alerts

  /** Number of estimates kept as recommendations. */
  const RecommendationCount := 3

  predicate ValidCatalog(packages: seq<RoamingPackage>) {
    forall p :: p in packages ==> ValidPackage(p)
  }

  /** No estimate of `s` carries the recommendation flag. */
  predicate Unflagged(s: seq<CostEstimate>) {
    forall i :: 0 <= i < |s| ==> !s[i].isRecommended
  }

  /** The bundles that cover at least one trip country, in catalog order. */
  function CoveringPackages(trip: TravelPlan, packages: seq<RoamingPackage>): (r: seq<RoamingPackage>)
    ensures forall p :: p in r <==> p in packages && Covers(trip, p)
  {
    if |packages| == 0 then []
    else
      assert forall p :: p in packages <==> p == packages[0] || p in packages[1..];
      (if Covers(trip, packages[0]) then [packages[0]] else []) + CoveringPackages(trip, packages[1..])
  }

  /** The loop over the catalog: the estimates that are not `null`, in
      catalog order. */
  function PackageEstimates(trip: TravelPlan, usage: UsageProfile, rates: seq<Rate>, packages: seq<RoamingPackage>): (es: seq<CostEstimate>)
    requires ValidTrip(trip) && ValidCatalog(packages)
    ensures |es| <= |packages|
  {
    if |packages| == 0 then []
    else
      var rest := PackageEstimates(trip, usage, rates, packages[1..]);
      match CalculatePackageCost(trip, usage, rates, packages[0])
      case None => rest
      case Some(e) => [e] + rest
  }

  /** Every bundle estimate names its bundle and none is flagged yet. */
  lemma {:induction false} PackageEstimatesUnflagged(trip: TravelPlan, usage: UsageProfile, rates: seq<Rate>, packages: seq<RoamingPackage>)
    requires ValidTrip(trip) && ValidCatalog(packages)
    ensures var es := PackageEstimates(trip, usage, rates, packages);
      Unflagged(es) && forall i :: 0 <= i < |es| ==> es[i].packageId.Some?
  {
    if |packages| > 0 {
      PackageEstimatesUnflagged(trip, usage, rates, packages[1..]);
      var rest := PackageEstimates(trip, usage, rates, packages[1..]);
      var r := CalculatePackageCost(trip, usage, rates, packages[0]);
      if r.Some? {
        assert PackageEstimates(trip, usage, rates, packages) == [r.value] + rest;
        ConsUnflagged(r.value, rest);
      }
    }
  }

  lemma ConsUnflagged(e: CostEstimate, rest: seq<CostEstimate>)
    requires !e.isRecommended && e.packageId.Some?
    requires Unflagged(rest) && forall i :: 0 <= i < |rest| ==> rest[i].packageId.Some?
    ensures var es := [e] + rest;
      Unflagged(es) && forall i :: 0 <= i < |es| ==> es[i].packageId.Some?
  {
    var es := [e] + rest;
    forall i | 1 <= i < |es| ensures es[i] == rest[i - 1] {
    }
  }

  /** One step of the catalog loop. */
  lemma PackageEstimatesStep(trip: TravelPlan, usage: UsageProfile, rates: seq<Rate>, packages: seq<RoamingPackage>)
    requires ValidTrip(trip) && ValidCatalog(packages) && |packages| > 0
    ensures PackageEstimates(trip, usage, rates, packages)
         == (if Covers(trip, packages[0]) then [CalculatePackageCost(trip, usage, rates, packages[0]).value] else [])
            + PackageEstimates(trip, usage, rates, packages[1..])
  {
  }

  /** The estimates of bundles that all cover the trip, in order. */
  function EstimatesOf(trip: TravelPlan, usage: UsageProfile, rates: seq<Rate>, cov: seq<RoamingPackage>): (es: seq<CostEstimate>)
    requires ValidTrip(trip) && forall p :: p in cov ==> ValidPackage(p) && Covers(trip, p)
    ensures |es| == |cov|
  {
    if |cov| == 0 then []
    else
      assert cov[0] in cov;
      [CalculatePackageCost(trip, usage, rates, cov[0]).value] + EstimatesOf(trip, usage, rates, cov[1..])
  }

  /** There is one estimate per covering bundle, in catalog order, and it is
      that bundle's estimate: bundles that cover no trip country are left out. */
  lemma {:induction false} PackageEstimatesOfCoveringPackages(trip: TravelPlan, usage: UsageProfile, rates: seq<Rate>, packages: seq<RoamingPackage>)
    requires ValidTrip(trip) && ValidCatalog(packages)
    ensures PackageEstimates(trip, usage, rates, packages) == EstimatesOf(trip, usage, rates, CoveringPackages(trip, packages))
  {
    if |packages| > 0 {
      PackageEstimatesOfCoveringPackages(trip, usage, rates, packages[1..]);
      var cov := CoveringPackages(trip, packages[1..]);
      if Covers(trip, packages[0]) {
        assert CoveringPackages(trip, packages) == [packages[0]] + cov;
        assert ([packages[0]] + cov)[1..] == cov;
      } else {
        assert CoveringPackages(trip, packages) == cov;
      }
    }
  }

  /** The `i`-th of `EstimatesOf` is the estimate of the `i`-th bundle. */
  lemma {:induction false} EstimatesOfAt(trip: TravelPlan, usage: UsageProfile, rates: seq<Rate>, cov: seq<RoamingPackage>, i: int)
    requires ValidTrip(trip) && forall p :: p in cov ==> ValidPackage(p) && Covers(trip, p)
    requires 0 <= i < |cov|
    ensures Some(EstimatesOf(trip, usage, rates, cov)[i]) == CalculatePackageCost(trip, usage, rates, cov[i])
  {
    if i > 0 {
      var rest := cov[1..];
      assert forall p :: p in rest ==> p in cov;
      EstimatesOfAt(trip, usage, rates, rest, i - 1);
      assert cov[0] in cov;
      var es := EstimatesOf(trip, usage, rates, cov);
      assert es[i] == EstimatesOf(trip, usage, rates, rest)[i - 1];
      assert cov[i] == rest[i - 1];
    }
  }

  /** What is sorted: the bundle estimates followed by the metered baseline. */
  function Candidates(trip: TravelPlan, usage: UsageProfile, rates: seq<Rate>, packages: seq<RoamingPackage>): (cs: seq<CostEstimate>)
    requires ValidTrip(trip) && ValidCatalog(packages)
    ensures |cs| >= 1
    ensures cs[|cs| - 1] == CalculatePayAsYouGoCost(trip, usage, rates)
  {
    PackageEstimates(trip, usage, rates, packages) + [CalculatePayAsYouGoCost(trip, usage, rates)]
  }

  /** No candidate is flagged before ranking. */
  lemma CandidatesUnflagged(trip: TravelPlan, usage: UsageProfile, rates: seq<Rate>, packages: seq<RoamingPackage>)
    requires ValidTrip(trip) && ValidCatalog(packages)
    ensures Unflagged(Candidates(trip, usage, rates, packages))
  {
    var es := PackageEstimates(trip, usage, rates, packages);
    PackageEstimatesUnflagged(trip, usage, rates, packages);
    assert forall i :: 0 <= i < |es| ==> (es + [CalculatePayAsYouGoCost(trip, usage, rates)])[i] == es[i];
  }

  /** The estimates with their recommendation flag cleared. */
  function ClearFlags(s: seq<CostEstimate>): (r: seq<CostEstimate>)
    ensures |r| == |s|
    ensures forall i :: 0 <= i < |s| ==> r[i] == s[i].(isRecommended := false)
  {
    seq(|s|, i requires 0 <= i < |s| => s[i].(isRecommended := false))
  }

  /** Sets the flag of the first estimate, as `bestOption.isRecommended = true`
      does on the object shared by all three views of the result. */
  function FlagBest(s: seq<CostEstimate>): (r: seq<CostEstimate>)
    requires |s| >= 1
    ensures |r| == |s| && r[0] == s[0].(isRecommended := true)
    ensures forall i :: 1 <= i < |s| ==> r[i] == s[i]
    ensures ClearFlags(r) == ClearFlags(s)
  {
    [s[0].(isRecommended := true)] + s[1..]
  }

  /** Sorts the candidates by total cost and flags the first one. */
  function Rank(cands: seq<CostEstimate>): (calcs: seq<CostEstimate>)
    requires |cands| >= 1
    requires Unflagged(cands)
    ensures |calcs| == |cands|
    ensures SortedByCost(calcs)
    ensures ClearFlags(calcs) == SortByCost(cands)
    ensures calcs[0].isRecommended
    ensures forall i :: 1 <= i < |calcs| ==> !calcs[i].isRecommended
  {
    var sorted := SortByCost(cands);
    SortedUnflagged(cands);
    FlagBest(sorted)
  }

  /** Sorting unflagged estimates leaves them unflagged. */
  lemma SortedUnflagged(cands: seq<CostEstimate>)
    requires Unflagged(cands)
    ensures Unflagged(SortByCost(cands))
    ensures ClearFlags(SortByCost(cands)) == SortByCost(cands)
  {
    var sorted := SortByCost(cands);
    SortByCostPermutes(cands);
    forall i | 0 <= i < |sorted| ensures !sorted[i].isRecommended {
      assert sorted[i] in multiset(cands);
      var j :| 0 <= j < |cands| && cands[j] == sorted[i];
    }
    assert ClearFlags(sorted) == sorted;
  }

  /** `calculateAll`. */
  function CalculateAll(trip: TravelPlan, usage: UsageProfile, packages: seq<RoamingPackage>, rates: seq<Rate>): (res: SimulationResult)
    requires ValidTrip(trip) && ValidCatalog(packages)
    ensures var calcs := res.calculations;
      var cands := Candidates(trip, usage, rates, packages);
      && |calcs| == |cands| >= 1
      && SortedByCost(calcs)
      && ClearFlags(calcs) == SortByCost(cands)
      && res.bestOption == calcs[0] && res.bestOption.isRecommended
      && (forall i :: 1 <= i < |calcs| ==> !calcs[i].isRecommended)
      && res.recommendations == calcs[..Min(RecommendationCount, |calcs|)]
      && res.alerts == GenerateAlerts(trip, usage)
  {
    CandidatesUnflagged(trip, usage, rates, packages);
    var calcs := Rank(Candidates(trip, usage, rates, packages));
    SimulationResult(
      calculations := calcs,
      alerts := GenerateAlerts(trip, usage),
      recommendations := calcs[..Min(RecommendationCount, |calcs|)],
      bestOption := calcs[0])
  }

  /** Ignoring the flag, the calculations are a permutation of the
      candidates: the covering bundles' estimates and the baseline. */
  lemma CalculateAllPermutes(trip: TravelPlan, usage: UsageProfile, packages: seq<RoamingPackage>, rates: seq<Rate>)
    requires ValidTrip(trip) && ValidCatalog(packages)
    ensures multiset(ClearFlags(CalculateAll(trip, usage, packages, rates).calculations))
         == multiset(Candidates(trip, usage, rates, packages))
  {
    SortByCostPermutes(Candidates(trip, usage, rates, packages));
  }

  /** Sorting is stable: among estimates of equal total cost the result keeps
      catalog order, with the baseline after every bundle of its cost. */
  lemma CalculateAllStable(trip: TravelPlan, usage: UsageProfile, packages: seq<RoamingPackage>, rates: seq<Rate>, c: real)
    requires ValidTrip(trip) && ValidCatalog(packages)
    ensures WithCost(ClearFlags(CalculateAll(trip, usage, packages, rates).calculations), c)
         == WithCost(Candidates(trip, usage, rates, packages), c)
  {
    var cands := Candidates(trip, usage, rates, packages);
    CandidatesUnflagged(trip, usage, rates, packages);
    SortedUnflagged(cands);
    SortByCostStable(cands, c);
  }

  /** The best option is no dearer than any candidate, in particular the
      metered baseline and every covering bundle's estimate. */
  lemma BestOptionIsCheapest(trip: TravelPlan, usage: UsageProfile, packages: seq<RoamingPackage>, rates: seq<Rate>, e: CostEstimate)
    requires ValidTrip(trip) && ValidCatalog(packages)
    requires e in Candidates(trip, usage, rates, packages)
    ensures CalculateAll(trip, usage, packages, rates).bestOption.totalCost <= e.totalCost
  {
    SortedHeadIsCheapest(Candidates(trip, usage, rates, packages), e);
  }

  /** The alerts do not depend on the bundle or rate catalogs. */
  lemma AlertsIgnoreCatalogs(trip: TravelPlan, usage: UsageProfile,
                             packages1: seq<RoamingPackage>, rates1: seq<Rate>,
                             packages2: seq<RoamingPackage>, rates2: seq<Rate>)
    requires ValidTrip(trip) && ValidCatalog(packages1) && ValidCatalog(packages2)
    ensures CalculateAll(trip, usage, packages1, rates1).alerts == CalculateAll(trip, usage, packages2, rates2).alerts
  {
  }
}
