/** Worked examples on the bundled catalog of src/data/mockData.ts: the
    bundle and rate values are copied as constants and the engine's results
    for a few trips are derived from the general lemmas. */
module Scenarios {
  import opened Wrappers
  import opened Types
  import opened Rates
  import opened PackageCost
  import opened PayAsYouGo
  import opened Ranking
  import opened Calculator
  import UsageProfileForm

  const Germany := Country("DE", "Almanya", "Avrupa")
  const Usa := Country("US", "Amerika", "Amerika")

  const EuCountries := ["DE", "FR", "IT", "ES", "GB"]

  const EuWeekly := RoamingPackage("eu-weekly", "Avrupa Haftalık", Regional, ["Avrupa"], EuCountries, 5.0, 100.0, 50.0, 149.0, 7)
  const EuMonthly := RoamingPackage("eu-monthly", "Avrupa Aylık", Regional, ["Avrupa"], EuCountries, 20.0, 300.0, 150.0, 399.0, 30)
  const UsaWeekly := RoamingPackage("usa-weekly", "Amerika Haftalık", SingleCountry, ["Amerika"], ["US"], 3.0, 60.0, 30.0, 199.0, 7)
  const GlobalMonthly := RoamingPackage("global-monthly", "Global Aylık", Global, ["Avrupa", "Amerika", "Asya", "Ortadoğu"],
    ["DE", "FR", "IT", "ES", "GB", "US", "AE", "SA", "JP"], 15.0, 200.0, 100.0, 599.0, 30)
  const MiddleEastWeekly := RoamingPackage("middle-east-weekly", "Ortadoğu Haftalık", Regional, ["Ortadoğu"], ["AE", "SA"], 4.0, 80.0, 40.0, 129.0, 7)

  const Catalog := [EuWeekly, EuMonthly, UsaWeekly, GlobalMonthly, MiddleEastWeekly]

  const GermanyRate := Rate("DE", 0.15, 2.5, 1.0)
  const UsaRate := Rate("US", 0.25, 4.0, 1.5)

  const RateTable := [
    GermanyRate,
    Rate("FR", 0.15, 2.5, 1.0),
    Rate("IT", 0.15, 2.5, 1.0),
    Rate("ES", 0.15, 2.5, 1.0),
    Rate("GB", 0.18, 3.0, 1.2),
    UsaRate,
    Rate("AE", 0.12, 2.0, 0.8),
    Rate("SA", 0.12, 2.0, 0.8),
    Rate("JP", 0.30, 5.0, 2.0),
    Rate("CN", 0.20, 3.5, 1.3),
    Rate("IN", 0.08, 1.5, 0.5),
    Rate("RU", 0.22, 3.8, 1.4),
    Rate("EG", 0.10, 1.8, 0.6),
    Rate("ZA", 0.16, 2.8, 1.1)]

  const Light := UsageProfileForm.LightProfile

  /** A week in Germany (the dates are not used by the engine). */
  const GermanyWeek := TravelPlan([Germany], 0, 0, 7)

  /** A week in Germany and the United States. */
  const GermanyUsaWeek := TravelPlan([Germany, Usa], 0, 0, 7)

  /** A light week in Germany fits the weekly European bundle: it costs
      exactly its price of 149 with no warning. */
  lemma GermanyWeekOnEuWeekly()
    ensures var r := CalculatePackageCost(GermanyWeek, Light, RateTable, EuWeekly);
      r.Some? && r.value.totalCost == 149.0 && r.value.warnings == [] && r.value.validityIssue == Some(false)
  {
    assert GermanyWeek.countries[0].code in EuWeekly.countries;
    NoOverageWhenCoveredWithinQuota(GermanyWeek, Light, RateTable, EuWeekly);
  }

  /** With a 3-day validity the same week needs `ceil(7 / 3) = 3` bundles. */
  lemma GermanyWeekOnThreeDayBundle()
    ensures var r := CalculatePackageCost(GermanyWeek, Light, RateTable, EuWeekly.(validity := 3));
      && r.Some?
      && r.value.baseCost == 447.0
      && r.value.totalCost == 447.0
      && r.value.validityIssue == Some(true)
      && r.value.warnings == [ValidityShort(3, 3)]
  {
    var pkg := EuWeekly.(validity := 3);
    assert GermanyWeek.countries[0].code in pkg.countries;
    RequiredPackagesSpanTrip(3, 7);
    assert RequiredPackages(3, 7) == 3;
    NoOverageWhenCoveredWithinQuota(GermanyWeek, Light, RateTable, pkg);
  }

  /** Of Germany and the United States the European bundles cover Germany only. */
  lemma GermanyUsaCoverage()
    ensures Covered(TripCodes(GermanyUsaWeek), EuCountries) == ["DE"]
    ensures Uncovered(TripCodes(GermanyUsaWeek), EuCountries) == ["US"]
  {
    var codes := TripCodes(GermanyUsaWeek);
    assert codes == ["DE", "US"];
    assert "US" !in EuCountries;
    assert "DE" in EuCountries;
    assert codes[1..] == ["US"] && codes[1..][1..] == [];
    assert Covered(["US"], EuCountries) == [] + Covered([], EuCountries);
    assert Uncovered(["US"], EuCountries) == ["US"] + Uncovered([], EuCountries);
  }

  /** The US entry is the sixth of the rate table. */
  lemma UsaRateFound()
    ensures FindRate(RateTable, "US") == Some(UsaRate)
  {
    assert IsFirstEntry(RateTable, "US", 5) by {
      forall j | 0 <= j < 5 ensures RateTable[j].country != "US" {
        assert RateTable[j].country[0] != 'U';
      }
    }
    FindRateAt(RateTable, "US", 5);
  }

  /** Half the countries are uncovered, so `ceil(7 / 2) = 4` days are billed
      at the US rates: `(200 * 0.25 + 10 * 4.0 + 5 * 1.5) * 4 = 390`. */
  lemma GermanyUsaSurcharge()
    ensures UncoveredSurcharge(GermanyUsaWeek, Light, RateTable, EuWeekly) == 390.0
  {
    GermanyUsaCoverage();
    UsaRateFound();
    UncoveredDaysIsCeiling(7, 1, 2);
    assert CalculateUncoveredDays(7, 1, 2) == 4;
    assert CalculateUncoveredCountriesCost(["US"], RateTable, Light, 4.0) == 390.0;
  }

  /** The United States lie outside the European bundle: its weekly price is
      topped up by the surcharge of 390, and the warning names the country. */
  lemma GermanyUsaWeekOnEuWeekly()
    ensures var r := CalculatePackageCost(GermanyUsaWeek, Light, RateTable, EuWeekly);
      && r.Some?
      && r.value.baseCost == 149.0
      && r.value.overageCost == 390.0
      && r.value.totalCost == 539.0
      && r.value.warnings == [NotCovered(["Amerika"], 390.0)]
  {
    GermanyUsaCoverage();
    GermanyUsaSurcharge();
    assert FindRate(RateTable, "DE") == Some(GermanyRate);
    assert RatesFor(["DE"], RateTable) == [GermanyRate];
    assert NameOf(GermanyUsaWeek.countries, "US") == "Amerika" by {
      assert GermanyUsaWeek.countries[1..] == [Usa];
    }
    assert NamesOf(GermanyUsaWeek.countries, ["US"]) == ["Amerika"];
  }

  /** A week in the United States. */
  const UsaWeek := TravelPlan([Usa], 0, 0, 7)

  const Heavy := UsageProfileForm.HeavyProfile

  /** The weekly US bundle covers the US trip entirely, and the US rates
      are the covered countries' mean rate. */
  lemma UsaWeekCoverage()
    ensures Covers(UsaWeek, UsaWeekly)
    ensures Covered(TripCodes(UsaWeek), UsaWeekly.countries) == ["US"]
    ensures Uncovered(TripCodes(UsaWeek), UsaWeekly.countries) == []
    ensures GetAverageRate(["US"], RateTable) == Tariff(0.25, 4.0, 1.5)
  {
    var codes := TripCodes(UsaWeek);
    assert codes == ["US"] && codes[1..] == [];
    assert UsaWeek.countries[0].code in UsaWeekly.countries;
    UsaRateFound();
    assert RatesFor(["US"], RateTable) == [UsaRate];
    assert SumTariff([UsaRate]) == Tariff(0.25, 4.0, 1.5) by {
      assert [UsaRate][1..] == [];
    }
  }

  /** A heavy week in the United States overruns all three quotas of the
      weekly US bundle, each excess billed at the US rate:
      `(7000 - 3072) * 0.25 + (280 - 60) * 4.0 + (105 - 30) * 1.5 = 1974.5`
      on top of the price of 199. */
  lemma UsaWeekHeavyOnUsaWeekly()
    ensures var r := CalculatePackageCost(UsaWeek, Heavy, RateTable, UsaWeekly);
      && r.Some?
      && r.value.baseCost == 199.0
      && r.value.overageCost == 1974.5
      && r.value.totalCost == 2173.5
      && r.value.warnings == [DataOverage(3928.0), VoiceOverage(220.0), SmsOverage(75.0)]
  {
    UsaWeekCoverage();
    PackageOverageCost(UsaWeek, Heavy, RateTable, UsaWeekly);
    var used := TripVolume(Heavy, 7);
    var quota := Quota(UsaWeekly, 1);
    assert used == Volume(7000.0, 280.0, 105.0) && quota == Volume(3072.0, 60.0, 30.0);
    assert Excess(used, quota) == Volume(3928.0, 220.0, 75.0);
    assert Price(Volume(3928.0, 220.0, 75.0), Tariff(0.25, 4.0, 1.5)) == 1974.5;
    assert OverageWarnings(used, quota) == [DataOverage(3928.0), VoiceOverage(220.0), SmsOverage(75.0)];
  }

  /** The metered baseline for a light week in Germany:
      `200 * 7 * 0.15 + 10 * 7 * 2.5 + 5 * 7 * 1.0 = 420`. */
  lemma GermanyWeekBaseline()
    ensures CalculatePayAsYouGoCost(GermanyWeek, Light, RateTable).totalCost == 420.0
  {
    CountryDaysIsCeiling(7, 1);
    assert CalculateCountryDays(7, 1) == 7;
    assert FindRate(RateTable, "DE") == Some(GermanyRate);
    BaselineAtSummedRates(GermanyWeek, Light, RateTable);
    assert RatesFor(["DE"], RateTable) == [GermanyRate];
  }

  /** A bundle covering Germany whose quotas hold a light week costs its price. */
  lemma GermanyWeekOnCoveringBundle(pkg: RoamingPackage) returns (e: CostEstimate)
    requires pkg in [EuWeekly, EuMonthly, GlobalMonthly]
    ensures CalculatePackageCost(GermanyWeek, Light, RateTable, pkg) == Some(e)
    ensures e.totalCost == pkg.price && e.packageId == Some(pkg.id) && !e.isRecommended
  {
    assert "DE" in pkg.countries;
    assert RequiredPackages(pkg.validity, 7) == 1;
    NoOverageWhenCoveredWithinQuota(GermanyWeek, Light, RateTable, pkg);
    e := CalculatePackageCost(GermanyWeek, Light, RateTable, pkg).value;
  }

  /** The bundle estimates for a light week in Germany, in catalog order:
      the American and Middle-Eastern bundles cover neither country. */
  lemma GermanyWeekEstimates(a: CostEstimate, b: CostEstimate, g: CostEstimate)
    requires CalculatePackageCost(GermanyWeek, Light, RateTable, EuWeekly) == Some(a)
    requires CalculatePackageCost(GermanyWeek, Light, RateTable, EuMonthly) == Some(b)
    requires CalculatePackageCost(GermanyWeek, Light, RateTable, GlobalMonthly) == Some(g)
    ensures ValidCatalog(Catalog)
    ensures PackageEstimates(GermanyWeek, Light, RateTable, Catalog) == [a, b, g]
  {
    GermanyWeekCoverage();
    assert Catalog[1..] == [EuMonthly, UsaWeekly, GlobalMonthly, MiddleEastWeekly];
    GermanyWeekLaterEstimates(b, g);
    PackageEstimatesStep(GermanyWeek, Light, RateTable, Catalog);
  }

  /** The estimates of the last four bundles of the catalog. */
  lemma GermanyWeekLaterEstimates(b: CostEstimate, g: CostEstimate)
    requires CalculatePackageCost(GermanyWeek, Light, RateTable, EuMonthly) == Some(b)
    requires CalculatePackageCost(GermanyWeek, Light, RateTable, GlobalMonthly) == Some(g)
    ensures ValidCatalog([EuMonthly, UsaWeekly, GlobalMonthly, MiddleEastWeekly])
    ensures PackageEstimates(GermanyWeek, Light, RateTable, [EuMonthly, UsaWeekly, GlobalMonthly, MiddleEastWeekly]) == [b, g]
  {
    GermanyWeekCoverage();
    var later := [EuMonthly, UsaWeekly, GlobalMonthly, MiddleEastWeekly];
    assert later[1..] == [UsaWeekly, GlobalMonthly, MiddleEastWeekly];
    GermanyWeekLastEstimates(g);
    PackageEstimatesStep(GermanyWeek, Light, RateTable, later);
  }

  /** The estimates of the last three bundles of the catalog: only the
      global bundle covers Germany. */
  lemma GermanyWeekLastEstimates(g: CostEstimate)
    requires CalculatePackageCost(GermanyWeek, Light, RateTable, GlobalMonthly) == Some(g)
    ensures ValidCatalog([UsaWeekly, GlobalMonthly, MiddleEastWeekly])
    ensures PackageEstimates(GermanyWeek, Light, RateTable, [UsaWeekly, GlobalMonthly, MiddleEastWeekly]) == [g]
  {
    GermanyWeekCoverage();
    var later := [UsaWeekly, GlobalMonthly, MiddleEastWeekly];
    assert later[1..] == [GlobalMonthly, MiddleEastWeekly];
    assert later[2..] == [MiddleEastWeekly] && later[3..] == [];
    PackageEstimatesStep(GermanyWeek, Light, RateTable, later);
    PackageEstimatesStep(GermanyWeek, Light, RateTable, later[1..]);
    PackageEstimatesStep(GermanyWeek, Light, RateTable, later[2..]);
  }

  /** Which bundles of the catalog cover Germany. */
  lemma GermanyWeekCoverage()
    ensures ValidCatalog(Catalog)
    ensures Covers(GermanyWeek, EuWeekly) && Covers(GermanyWeek, EuMonthly) && Covers(GermanyWeek, GlobalMonthly)
    ensures !Covers(GermanyWeek, UsaWeekly) && !Covers(GermanyWeek, MiddleEastWeekly)
  {
    assert GermanyWeek.countries[0].code == "DE";
    assert "DE" in EuCountries && "DE" in GlobalMonthly.countries;
    assert "DE" !in UsaWeekly.countries && "DE" !in MiddleEastWeekly.countries;
  }

  /** Over the whole catalog a light week in Germany is priced by the two
      European bundles, the global bundle and the baseline; ranked by cost
      they come out as 149, 399, 420 (metered) and 599, the weekly European
      bundle is the best option, and no alert is raised. */
  lemma GermanyWeekRanking()
    ensures var res := CalculateAll(GermanyWeek, Light, Catalog, RateTable);
      && |res.calculations| == 4
      && res.bestOption.packageId == Some("eu-weekly") && res.bestOption.totalCost == 149.0
      && res.calculations[1].packageId == Some("eu-monthly") && res.calculations[1].totalCost == 399.0
      && res.calculations[2].packageId.None? && res.calculations[2].totalCost == 420.0
      && res.calculations[3].packageId == Some("global-monthly") && res.calculations[3].totalCost == 599.0
      && |res.recommendations| == 3
      && res.alerts == []
  {
    var a, b, g, p := GermanyWeekCandidates();
    GermanyWeekNoAlerts();
    SortFour(a, b, g, p);
    var calcs := CalculateAll(GermanyWeek, Light, Catalog, RateTable).calculations;
    assert ClearFlags(calcs) == [a, b, p, g];
    assert ClearFlags(calcs)[0] == a && ClearFlags(calcs)[1] == b;
    assert ClearFlags(calcs)[2] == p && ClearFlags(calcs)[3] == g;
  }

  /** The four candidates of a light week in Germany, in catalog order with
      the baseline last. */
  lemma GermanyWeekCandidates() returns (a: CostEstimate, b: CostEstimate, g: CostEstimate, p: CostEstimate)
    ensures ValidCatalog(Catalog)
    ensures Candidates(GermanyWeek, Light, RateTable, Catalog) == [a, b, g, p]
    ensures a.packageId == Some("eu-weekly") && a.totalCost == 149.0
    ensures b.packageId == Some("eu-monthly") && b.totalCost == 399.0
    ensures g.packageId == Some("global-monthly") && g.totalCost == 599.0
    ensures p.packageId.None? && p.totalCost == 420.0
    ensures !a.isRecommended && !b.isRecommended && !g.isRecommended && !p.isRecommended
  {
    a := GermanyWeekOnCoveringBundle(EuWeekly);
    b := GermanyWeekOnCoveringBundle(EuMonthly);
    g := GermanyWeekOnCoveringBundle(GlobalMonthly);
    GermanyWeekEstimates(a, b, g);
    GermanyWeekBaseline();
    p := CalculatePayAsYouGoCost(GermanyWeek, Light, RateTable);
  }

  /** A light week in one country raises no alert. */
  lemma GermanyWeekNoAlerts()
    ensures Alerts.GenerateAlerts(GermanyWeek, Light) == []
  {
  }

  /** An estimate no dearer than the head of a sorted sequence goes in front. */
  lemma InsertFront(x: CostEstimate, s: seq<CostEstimate>)
    requires SortedByCost(s) && |s| > 0 && x.totalCost <= s[0].totalCost
    ensures Insert(x, s) == [x] + s
  {
  }

  /** Sorting estimates costing 599 and 420. */
  lemma SortTwo(g: CostEstimate, p: CostEstimate)
    requires g.totalCost == 599.0 && p.totalCost == 420.0
    ensures SortByCost([g, p]) == [p, g]
  {
    assert [g, p][1..] == [p] && [p][1..] == [];
    assert SortByCost([p]) == [p];
    assert Insert(g, [p]) == [p] + Insert(g, []);
  }

  /** Sorting estimates costing 399, 599 and 420. */
  lemma SortThree(b: CostEstimate, g: CostEstimate, p: CostEstimate)
    requires b.totalCost == 399.0 && g.totalCost == 599.0 && p.totalCost == 420.0
    ensures SortByCost([b, g, p]) == [b, p, g]
  {
    assert [b, g, p][1..] == [g, p];
    SortTwo(g, p);
    InsertFront(b, [p, g]);
  }

  /** Sorting estimates costing 149, 399, 599 and 420. */
  lemma SortFour(a: CostEstimate, b: CostEstimate, g: CostEstimate, p: CostEstimate)
    requires a.totalCost == 149.0 && b.totalCost == 399.0 && g.totalCost == 599.0 && p.totalCost == 420.0
    ensures SortByCost([a, b, g, p]) == [a, b, p, g]
  {
    assert [a, b, g, p][1..] == [b, g, p];
    SortThree(b, g, p);
    InsertFront(a, [b, p, g]);
    assert SortByCost([a, b, g, p]) == Insert(a, SortByCost([b, g, p]));
  }
}
