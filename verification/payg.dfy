/** The metered baseline (`calculatePayAsYouGoCost`, `getCountryDays` in
    src/utils/costCalculator.ts): the trip priced at each country's
    pay-as-you-go rates, without any bundle. */
module PayAsYouGo {
  import opened Wrappers
  import opened Types
  import opened Rates
  import PackageCost

  const PaygName := "Pay-as-you-go (Tekil Ücretler)"

  /** `getCountryDays`: the trip's days shared equally among its countries,
      rounded up. Never more than the trip. */
  function CalculateCountryDays(duration: nat, countryCount: nat): (days: nat)
    requires countryCount >= 1
    ensures days <= duration
  {
    CeilDivAtMost(duration, countryCount, duration);
    CeilDiv(duration, countryCount)
  }

  /** Every country gets `ceil(duration / countryCount)` days, so together
      the countries' days cover the trip. */
  lemma CountryDaysIsCeiling(duration: nat, countryCount: nat)
    requires countryCount >= 1
    ensures var days := CalculateCountryDays(duration, countryCount);
      && days * countryCount >= duration
      && (days == 0 || (days - 1) * countryCount < duration)
  {
    CeilDivIsCeiling(duration, countryCount);
  }

  /** The cost of `days` days of full daily usage in one country, per
      component (`dataCost`, `voiceCost`, `smsCost` of the loop body). */
  function CountryCost(usage: UsageProfile, r: Rate, days: real): Breakdown {
    Breakdown(
      usage.dailyData * days * r.dataPerMb,
      usage.dailyVoice * days * r.voicePerMin,
      usage.dailySms * days * r.smsPerUnit)
  }

  /** The running breakdown of the metered loop: the country costs of the
      codes with a rate entry, added per component. */
  function MeteredBreakdown(codes: seq<string>, rates: seq<Rate>, usage: UsageProfile, days: real): Breakdown {
    if |codes| == 0 then Breakdown(0.0, 0.0, 0.0)
    else
      var rest := MeteredBreakdown(codes[1..], rates, usage, days);
      match FindRate(rates, codes[0])
      case None => rest
      case Some(r) =>
        var c := CountryCost(usage, r, days);
        Breakdown(rest.data + c.data, rest.voice + c.voice, rest.sms + c.sms)
  }

  /** The running total of the metered loop, accumulated separately from the
      breakdown as the source does. */
  function MeteredTotal(codes: seq<string>, rates: seq<Rate>, usage: UsageProfile, days: real): real {
    if |codes| == 0 then 0.0
    else
      var rest := MeteredTotal(codes[1..], rates, usage, days);
      match FindRate(rates, codes[0])
      case None => rest
      case Some(r) => rest + CountryCost(usage, r, days).Total()
  }

  /** The separately accumulated total is the sum of the breakdown. */
  lemma {:induction false} MeteredTotalIsBreakdownTotal(codes: seq<string>, rates: seq<Rate>, usage: UsageProfile, days: real)
    ensures MeteredTotal(codes, rates, usage, days) == MeteredBreakdown(codes, rates, usage, days).Total()
  {
    if |codes| > 0 {
      MeteredTotalIsBreakdownTotal(codes[1..], rates, usage, days);
      match FindRate(rates, codes[0])
      case None =>
      case Some(r) =>
        AddToTotal(MeteredBreakdown(codes[1..], rates, usage, days), CountryCost(usage, r, days));
    }
  }

  lemma AddToTotal(rest: Breakdown, c: Breakdown)
    ensures rest.Total() + c.Total() == Breakdown(rest.data + c.data, rest.voice + c.voice, rest.sms + c.sms).Total()
  {
  }

  /** The metered total is the uncovered-country formula applied to every
      trip country: each country with an entry costs its daily usage at its
      rates, times the days. */
  lemma {:induction false} MeteredTotalIsCountryCost(codes: seq<string>, rates: seq<Rate>, usage: UsageProfile, days: real)
    ensures MeteredTotal(codes, rates, usage, days)
         == PackageCost.CalculateUncoveredCountriesCost(codes, rates, usage, days)
  {
    if |codes| > 0 {
      MeteredTotalIsCountryCost(codes[1..], rates, usage, days);
      match FindRate(rates, codes[0])
      case None =>
      case Some(r) =>
        ScaleFirst(usage.dailyData, usage.dailyVoice, usage.dailySms, r.dataPerMb, r.voicePerMin, r.smsPerUnit, days);
    }
  }

  /** Scaling usage by the days before pricing equals scaling the daily price. */
  lemma ScaleFirst(ud: real, uv: real, us: real, rd: real, rv: real, rs: real, k: real)
    ensures ud * k * rd + uv * k * rv + us * k * rs == (ud * rd + uv * rv + us * rs) * k
  {
  }

  /** `calculatePayAsYouGoCost`: the metered baseline estimate. */
  function CalculatePayAsYouGoCost(trip: TravelPlan, usage: UsageProfile, rates: seq<Rate>): (e: CostEstimate)
    requires ValidTrip(trip)
    ensures e.packageId.None? && e.validityIssue.None? && !e.isRecommended
    ensures e.packageName == PaygName
    ensures e.overageCost == 0.0 && e.baseCost == e.totalCost
    ensures e.breakdown.Total() == e.totalCost
    ensures e.warnings == [MeteredBillingRisk]
    ensures |trip.countries| == 0 ==> e.totalCost == 0.0
  {
    var codes := TripCodes(trip);
    var days := if |codes| == 0 then 0.0 else CalculateCountryDays(trip.duration, |codes|) as real;
    var total := MeteredTotal(codes, rates, usage, days);
    MeteredTotalIsBreakdownTotal(codes, rates, usage, days);
    CostEstimate(
      packageId := None,
      packageName := PaygName,
      totalCost := total,
      baseCost := total,
      overageCost := 0.0,
      breakdown := MeteredBreakdown(codes, rates, usage, days),
      warnings := [MeteredBillingRisk],
      isRecommended := false,
      validityIssue := None)
  }

  /** The baseline is the daily cost at the summed rates of the trip
      countries that have an entry, times each country's share of the days;
      countries without an entry contribute nothing. */
  lemma BaselineAtSummedRates(trip: TravelPlan, usage: UsageProfile, rates: seq<Rate>)
    requires ValidTrip(trip) && |trip.countries| > 0
    ensures var codes := TripCodes(trip);
      var days := CalculateCountryDays(trip.duration, |codes|) as real;
      CalculatePayAsYouGoCost(trip, usage, rates).totalCost
        == DailyCost(usage, SumTariff(RatesFor(codes, rates))) * days
  {
    var codes := TripCodes(trip);
    var days := CalculateCountryDays(trip.duration, |codes|) as real;
    assert CalculatePayAsYouGoCost(trip, usage, rates).totalCost == MeteredTotal(codes, rates, usage, days);
    MeteredTotalIsCountryCost(codes, rates, usage, days);
    PackageCost.UncoveredCostAtSummedRates(codes, rates, usage, days);
  }

  /** With non-negative usage and rates the baseline is non-negative. */
  lemma BaselineNonNegative(trip: TravelPlan, usage: UsageProfile, rates: seq<Rate>)
    requires ValidTrip(trip) && NonNegativeUsage(usage) && NonNegativeRates(rates)
    ensures CalculatePayAsYouGoCost(trip, usage, rates).totalCost >= 0.0
  {
    var codes := TripCodes(trip);
    var days := if |codes| == 0 then 0.0 else CalculateCountryDays(trip.duration, |codes|) as real;
    MeteredTotalIsCountryCost(codes, rates, usage, days);
    PackageCost.UncoveredCostNonNegative(codes, rates, usage, days);
  }
}
