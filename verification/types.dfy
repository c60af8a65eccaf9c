/** The data model of the roaming cost simulator: the trip, the usage profile,
    the bundle and metered-rate catalogs, and the estimates and alerts the
    engine produces (src/types/index.ts). */
module Types {
  import opened Wrappers

  /** A destination. The display flag of the source is omitted. */
  datatype Country = Country(code: string, name: string, region: string)

  /** A trip. Dates are instants in milliseconds since the epoch (the value
      of `Date.getTime()`); `duration` is the inclusive day count. */
  datatype TravelPlan = TravelPlan(
    countries: seq<Country>,
    startDate: int,
    endDate: int,
    duration: int)

  datatype ProfileType = Light | Medium | Heavy | Custom

  /** Planned daily usage: data in MB, voice in minutes, SMS as a count. */
  datatype UsageProfile = UsageProfile(
    dailyData: real,
    dailyVoice: real,
    dailySms: real,
    profileType: ProfileType)

  datatype PackageType = Regional | SingleCountry | Global

  /** A bundle offer: quotas for data (GB), voice (minutes) and SMS, a price
      and a validity in days. Description and feature list are display text
      and are omitted. */
  datatype RoamingPackage = RoamingPackage(
    id: string,
    name: string,
    kind: PackageType,
    regions: seq<string>,
    countries: seq<string>,
    data: real,
    voice: real,
    sms: real,
    price: real,
    validity: int)

  /** The metered ("pay-as-you-go") prices of one country. */
  datatype Rate = Rate(country: string, dataPerMb: real, voicePerMin: real, smsPerUnit: real)

  /** Unit prices not tied to a country: an averaged or summed rate. */
  datatype Tariff = Tariff(dataPerMb: real, voicePerMin: real, smsPerUnit: real) {

    function Plus(r: Rate): Tariff {
      Tariff(dataPerMb + r.dataPerMb, voicePerMin + r.voicePerMin, smsPerUnit + r.smsPerUnit)
    }
  }

  const ZeroTariff := Tariff(0.0, 0.0, 0.0)

  /** Cost attributed to data, voice and SMS. */
  datatype Breakdown = Breakdown(data: real, voice: real, sms: real) {

    function Total(): real {
      data + voice + sms
    }
  }

  /** The warnings an estimate carries; the source's human-readable text is
      reduced to the figures it reports. */
  datatype Warning =
    | ValidityShort(validity: int, requiredPackages: int)
    | DataOverage(excessMb: real)
    | VoiceOverage(excessMinutes: real)
    | SmsOverage(excessCount: real)
    | NotCovered(countryNames: seq<string>, surcharge: real)
    | MeteredBillingRisk

  /** One priced option: a bundle (`packageId` present) or the metered
      baseline (`packageId` absent, `validityIssue` absent). */
  datatype CostEstimate = CostEstimate(
    packageId: Option<string>,
    packageName: string,
    totalCost: real,
    baseCost: real,
    overageCost: real,
    breakdown: Breakdown,
    warnings: seq<Warning>,
    isRecommended: bool,
    validityIssue: Option<bool>)

  /** Alert severities; `Warn` stands for the source's 'warning'. */
  datatype Severity = Info | Warn | Error

  /** What an alert is about; its title, message and action label follow
      from the topic. */
  datatype AlertTopic = LongTrip | HeavyUsage | MultiCountry

  datatype Alert = Alert(severity: Severity, topic: AlertTopic)

  datatype SimulationResult = SimulationResult(
    calculations: seq<CostEstimate>,
    alerts: seq<Alert>,
    recommendations: seq<CostEstimate>,
    bestOption: CostEstimate)

  /** The trip's country codes, in trip order. */
  function TripCodes(trip: TravelPlan): (codes: seq<string>)
    ensures |codes| == |trip.countries|
    ensures forall i :: 0 <= i < |codes| ==> codes[i] == trip.countries[i].code
  {
    seq(|trip.countries|, i requires 0 <= i < |trip.countries| => trip.countries[i].code)
  }

  /** `Math.ceil(a / b)` for a non-negative numerator and a positive
      denominator. */
  function CeilDiv(a: nat, b: nat): (r: nat)
    requires b >= 1
  {
    (a + b - 1) / b
  }

  /** `CeilDiv(a, b)` is the least `r` with `r * b >= a`. */
  lemma CeilDivIsCeiling(a: nat, b: nat)
    requires b >= 1
    ensures CeilDiv(a, b) * b >= a
    ensures CeilDiv(a, b) == 0 || (CeilDiv(a, b) - 1) * b < a
  {
    var q := (a + b - 1) / b;
    assert q * b + (a + b - 1) % b == a + b - 1;
  }

  /** A ceiling is bounded by any multiple that covers the numerator. */
  lemma CeilDivAtMost(a: nat, b: nat, c: nat)
    requires b >= 1 && a <= c * b
    ensures CeilDiv(a, b) <= c
  {
    CeilDivIsCeiling(a, b);
  }

  /** The smaller of two integers. */
  function Min(a: int, b: int): (m: int)
    ensures m <= a && m <= b && (m == a || m == b)
  {
    if a <= b then a else b
  }

  /** Trip durations the form can produce. */
  predicate ValidTrip(trip: TravelPlan) {
    trip.duration >= 0
  }

  /** A bundle whose repeat count is defined: the source divides by the validity. */
  predicate ValidPackage(p: RoamingPackage) {
    p.validity >= 1
  }

  predicate NonNegativeUsage(u: UsageProfile) {
    u.dailyData >= 0.0 && u.dailyVoice >= 0.0 && u.dailySms >= 0.0
  }

  predicate NonNegativeRate(r: Rate) {
    r.dataPerMb >= 0.0 && r.voicePerMin >= 0.0 && r.smsPerUnit >= 0.0
  }

  predicate NonNegativeTariff(t: Tariff) {
    t.dataPerMb >= 0.0 && t.voicePerMin >= 0.0 && t.smsPerUnit >= 0.0
  }

  predicate NonNegativeRates(rates: seq<Rate>) {
    forall i :: 0 <= i < |rates| ==> NonNegativeRate(rates[i])
  }

  /** The cost of one day's usage at the given unit prices. */
  function DailyCost(u: UsageProfile, t: Tariff): real {
    u.dailyData * t.dataPerMb + u.dailyVoice * t.voicePerMin + u.dailySms * t.smsPerUnit
  }
}
