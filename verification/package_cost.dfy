/** Pricing one bundle against a trip (`calculatePackageCost`,
    `calculateUncoveredDays`, `calculateUncoveredCountriesCost` in
    src/utils/costCalculator.ts). */
module PackageCost {
  import opened Wrappers
  import opened Types
  import opened Rates

  /** MB per GB, the unit scaling of bundle data quotas. */
  const MbPerGb: real := 1024.0

  /** Share of the base cost attributed to data, voice and SMS. The split is
      fixed and does not follow the usage mix. */
  const DataShare: real := 0.7
  const VoiceShare: real := 0.2
  const SmsShare: real := 0.1

  /** The trip codes the bundle covers, in trip order. */
  function Covered(codes: seq<string>, offered: seq<string>): seq<string> {
    if |codes| == 0 then []
    else (if codes[0] in offered then [codes[0]] else []) + Covered(codes[1..], offered)
  }

  /** The trip codes the bundle does not cover, in trip order. */
  function Uncovered(codes: seq<string>, offered: seq<string>): seq<string> {
    if |codes| == 0 then []
    else (if codes[0] !in offered then [codes[0]] else []) + Uncovered(codes[1..], offered)
  }

  /** The covered codes are the trip codes on offer, the uncovered ones the
      trip codes not on offer. */
  lemma {:induction false} CoveredMembers(codes: seq<string>, offered: seq<string>)
    ensures forall c :: c in Covered(codes, offered) <==> c in codes && c in offered
    ensures forall c :: c in Uncovered(codes, offered) <==> c in codes && c !in offered
  {
    if |codes| > 0 {
      CoveredMembers(codes[1..], offered);
      assert forall c :: c in codes <==> c == codes[0] || c in codes[1..];
    }
  }

  /** Every trip code is either covered or uncovered, so the two counts add
      up to the number of trip countries. */
  lemma {:induction false} CoveredUncoveredPartition(codes: seq<string>, offered: seq<string>)
    ensures |Covered(codes, offered)| + |Uncovered(codes, offered)| == |codes|
  {
    if |codes| > 0 {
      CoveredUncoveredPartition(codes[1..], offered);
    }
  }

  /** The bundle covers at least one trip country. */
  predicate Covers(trip: TravelPlan, pkg: RoamingPackage) {
    exists i :: 0 <= i < |trip.countries| && trip.countries[i].code in pkg.countries
  }

  /** The bundle covers every trip country. */
  predicate CoversAll(trip: TravelPlan, pkg: RoamingPackage) {
    forall i :: 0 <= i < |trip.countries| ==> trip.countries[i].code in pkg.countries
  }

  /** How many bundles must be bought back to back: one when the validity
      spans the trip, otherwise `ceil(duration / validity)`. */
  function RequiredPackages(validity: int, duration: int): (n: nat)
    requires validity >= 1 && duration >= 0
    ensures n >= 1
    ensures validity >= duration ==> n == 1
  {
    if validity < duration then
      CeilDivIsCeiling(duration, validity);
      CeilDiv(duration, validity)
    else 1
  }

  /** A short validity needs the least number of back-to-back bundles whose
      validities together span the trip. */
  lemma RequiredPackagesSpanTrip(validity: int, duration: int)
    requires validity >= 1 && duration >= 0 && validity < duration
    ensures var n := RequiredPackages(validity, duration);
      n * validity >= duration && (n - 1) * validity < duration
  {
    CeilDivIsCeiling(duration, validity);
  }

  /** The days billed for uncovered countries: the trip's days scaled by the
      uncovered share of its countries, rounded up. Never more than the trip. */
  function CalculateUncoveredDays(duration: nat, uncoveredCount: nat, countryCount: nat): (days: nat)
    requires 1 <= countryCount && uncoveredCount <= countryCount
    ensures days <= duration
  {
    assert duration * countryCount - duration * uncoveredCount == duration * (countryCount - uncoveredCount);
    CeilDivAtMost(duration * uncoveredCount, countryCount, duration);
    CeilDiv(duration * uncoveredCount, countryCount)
  }

  /** The billed days are `ceil(duration * uncoveredCount / countryCount)`. */
  lemma UncoveredDaysIsCeiling(duration: nat, uncoveredCount: nat, countryCount: nat)
    requires 1 <= countryCount && uncoveredCount <= countryCount
    ensures var days := CalculateUncoveredDays(duration, uncoveredCount, countryCount);
      && days * countryCount >= duration * uncoveredCount
      && (days == 0 || (days - 1) * countryCount < duration * uncoveredCount)
  {
    CeilDivIsCeiling(duration * uncoveredCount, countryCount);
  }

  /** `calculateUncoveredCountriesCost`: `days` days of full daily usage in
      each of `codes` at that country's metered rate; codes without a rate
      entry add nothing. */
  function CalculateUncoveredCountriesCost(codes: seq<string>, rates: seq<Rate>, usage: UsageProfile, days: real): real {
    if |codes| == 0 then 0.0
    else
      var rest := CalculateUncoveredCountriesCost(codes[1..], rates, usage, days);
      match FindRate(rates, codes[0])
      case None => rest
      case Some(r) =>
        (usage.dailyData * r.dataPerMb + usage.dailyVoice * r.voicePerMin + usage.dailySms * r.smsPerUnit) * days + rest
  }

  /** The uncovered-country surcharge is the daily cost at the summed rates of
      the countries that have an entry, times the billed days: countries
      without an entry contribute nothing. */
  lemma {:induction false} UncoveredCostAtSummedRates(codes: seq<string>, rates: seq<Rate>, usage: UsageProfile, days: real)
    ensures CalculateUncoveredCountriesCost(codes, rates, usage, days)
         == DailyCost(usage, SumTariff(RatesFor(codes, rates))) * days
  {
    if |codes| > 0 {
      UncoveredCostAtSummedRates(codes[1..], rates, usage, days);
      match FindRate(rates, codes[0])
      case None =>
        assert RatesFor(codes, rates) == RatesFor(codes[1..], rates);
        assert CalculateUncoveredCountriesCost(codes, rates, usage, days)
            == CalculateUncoveredCountriesCost(codes[1..], rates, usage, days);
      case Some(r) =>
        var here := usage.dailyData * r.dataPerMb + usage.dailyVoice * r.voicePerMin + usage.dailySms * r.smsPerUnit;
        var before := SumTariff(RatesFor(codes[1..], rates));
        calc {
          CalculateUncoveredCountriesCost(codes, rates, usage, days);
          here * days + CalculateUncoveredCountriesCost(codes[1..], rates, usage, days);
          here * days + DailyCost(usage, before) * days;
          { Distribute(DailyCost(usage, before), here, days); }
          (DailyCost(usage, before) + here) * days;
          { DailyCostPlus(usage, before, r); }
          DailyCost(usage, before.Plus(r)) * days;
          { SumTariffStep(codes, rates, r); }
          DailyCost(usage, SumTariff(RatesFor(codes, rates))) * days;
        }
    } else {
      assert DailyCost(usage, SumTariff(RatesFor(codes, rates))) == 0.0;
      assert CalculateUncoveredCountriesCost(codes, rates, usage, days) == 0.0;
    }
  }

  lemma Distribute(a: real, b: real, d: real)
    ensures (a + b) * d == a * d + b * d
  {
  }

  /** Looking up one more code with an entry adds that entry to the sum. */
  lemma SumTariffStep(codes: seq<string>, rates: seq<Rate>, r: Rate)
    requires |codes| > 0 && FindRate(rates, codes[0]) == Some(r)
    ensures SumTariff(RatesFor(codes, rates)) == SumTariff(RatesFor(codes[1..], rates)).Plus(r)
  {
    var found := RatesFor(codes[1..], rates);
    assert RatesFor(codes, rates) == [r] + found;
    assert ([r] + found)[1..] == found;
  }

  /** Daily cost is additive in the unit prices. */
  lemma DailyCostPlus(u: UsageProfile, t: Tariff, r: Rate)
    ensures DailyCost(u, t.Plus(r))
         == DailyCost(u, t) + (u.dailyData * r.dataPerMb + u.dailyVoice * r.voicePerMin + u.dailySms * r.smsPerUnit)
  {
    assert u.dailyData * (t.dataPerMb + r.dataPerMb) == u.dailyData * t.dataPerMb + u.dailyData * r.dataPerMb;
    assert u.dailyVoice * (t.voicePerMin + r.voicePerMin) == u.dailyVoice * t.voicePerMin + u.dailyVoice * r.voicePerMin;
    assert u.dailySms * (t.smsPerUnit + r.smsPerUnit) == u.dailySms * t.smsPerUnit + u.dailySms * r.smsPerUnit;
  }

  /** The display name the trip gives `code` (its first country with that
      code); the empty string, as `join` prints a missing name, otherwise. */
  function NameOf(countries: seq<Country>, code: string): string {
    if |countries| == 0 then ""
    else if countries[0].code == code then countries[0].name
    else NameOf(countries[1..], code)
  }

  function NamesOf(countries: seq<Country>, codes: seq<string>): seq<string> {
    seq(|codes|, i requires 0 <= i < |codes| => NameOf(countries, codes[i]))
  }

  /** Some trip country has `code`. */
  predicate HasCountry(countries: seq<Country>, code: string) {
    exists j :: 0 <= j < |countries| && countries[j].code == code
  }

  /** `name` is the name of the first country with `code`, the one
      `find(c => c.code === code)` returns. */
  predicate IsFirstName(countries: seq<Country>, code: string, name: string) {
    exists j :: 0 <= j < |countries| && countries[j].code == code && countries[j].name == name
      && forall k :: 0 <= k < j ==> countries[k].code != code
  }

  /** One name per code, each that of the first country with the code. */
  predicate NamesFirstMatches(names: seq<string>, countries: seq<Country>, codes: seq<string>) {
    |names| == |codes| && forall i :: 0 <= i < |codes| ==> IsFirstName(countries, codes[i], names[i])
  }

  /** For a code the countries contain, the name found is that of its first
      country. */
  lemma {:induction false} NameOfFirst(countries: seq<Country>, code: string)
    requires HasCountry(countries, code)
    ensures IsFirstName(countries, code, NameOf(countries, code))
  {
    if countries[0].code != code {
      var j :| 0 <= j < |countries| && countries[j].code == code;
      assert countries[1..][j - 1].code == code;
      NameOfFirst(countries[1..], code);
      var j' :| 0 <= j' < |countries[1..]| && countries[1..][j'].code == code
        && countries[1..][j'].name == NameOf(countries[1..], code)
        && forall k :: 0 <= k < j' ==> countries[1..][k].code != code;
      forall k | 0 <= k < j' + 1 ensures countries[k].code != code {
        if k > 0 {
          assert countries[k] == countries[1..][k - 1];
        }
      }
      assert countries[j' + 1] == countries[1..][j'];
    } else {
      assert countries[0].name == NameOf(countries, code);
    }
  }

  /** The names listed for codes the countries contain are those of their
      first countries. */
  lemma NamesOfFirst(countries: seq<Country>, codes: seq<string>)
    requires forall c :: c in codes ==> HasCountry(countries, c)
    ensures NamesFirstMatches(NamesOf(countries, codes), countries, codes)
  {
    var names := NamesOf(countries, codes);
    forall i | 0 <= i < |codes| ensures IsFirstName(countries, codes[i], names[i]) {
      assert codes[i] in codes;
      NameOfFirst(countries, codes[i]);
    }
  }

  /** Amounts of data (MB), voice (minutes) and SMS. */
  datatype Volume = Volume(data: real, voice: real, sms: real)

  /** The trip's total usage: the daily profile over `duration` days. */
  function TripVolume(usage: UsageProfile, duration: int): Volume {
    var d := duration as real;
    Volume(usage.dailyData * d, usage.dailyVoice * d, usage.dailySms * d)
  }

  /** What `units` bundles include; the data quota is converted from GB to MB. */
  function Quota(pkg: RoamingPackage, units: nat): Volume {
    var n := units as real;
    Volume(pkg.data * n * MbPerGb, pkg.voice * n, pkg.sms * n)
  }

  /** Every amount of `used` lies within the corresponding amount of `quota`. */
  predicate Within(used: Volume, quota: Volume) {
    used.data <= quota.data && used.voice <= quota.voice && used.sms <= quota.sms
  }

  /** Usage beyond one quota; zero within it. */
  function ExcessOver(used: real, quota: real): (x: real)
    ensures x >= 0.0
    ensures x == 0.0 <==> used <= quota
    ensures x > 0.0 ==> used == quota + x
  {
    if used > quota then used - quota else 0.0
  }

  /** The usage beyond `quota`, component by component. */
  function Excess(used: Volume, quota: Volume): Volume {
    Volume(ExcessOver(used.data, quota.data), ExcessOver(used.voice, quota.voice), ExcessOver(used.sms, quota.sms))
  }

  /** A volume priced at the given unit prices. */
  function Price(v: Volume, t: Tariff): real {
    v.data * t.dataPerMb + v.voice * t.voicePerMin + v.sms * t.smsPerUnit
  }

  /** A dearer tariff prices a non-negative volume no lower. */
  lemma PriceMonotone(v: Volume, lo: Tariff, hi: Tariff)
    requires v.data >= 0.0 && v.voice >= 0.0 && v.sms >= 0.0
    requires lo.dataPerMb <= hi.dataPerMb && lo.voicePerMin <= hi.voicePerMin && lo.smsPerUnit <= hi.smsPerUnit
    ensures Price(v, lo) <= Price(v, hi)
  {
    assert v.data * lo.dataPerMb <= v.data * hi.dataPerMb;
    assert v.voice * lo.voicePerMin <= v.voice * hi.voicePerMin;
    assert v.sms * lo.smsPerUnit <= v.sms * hi.smsPerUnit;
  }

  /** The charge for usage beyond a quota at a unit price. */
  function Overage(used: real, quota: real, unitPrice: real): (c: real)
    ensures used <= quota ==> c == 0.0
    ensures used > quota ==> c == (used - quota) * unitPrice
    ensures unitPrice >= 0.0 ==> c >= 0.0
    ensures used > quota && unitPrice > 0.0 ==> c > 0.0
  {
    if used > quota then
      var excess := used - quota;
      PositiveProduct(excess, unitPrice);
      excess * unitPrice
    else 0.0
  }

  lemma PositiveProduct(a: real, b: real)
    requires a > 0.0
    ensures b >= 0.0 ==> a * b >= 0.0
    ensures b > 0.0 ==> a * b > 0.0
  {
  }

  /** The data, voice and SMS overage of `used` against `quota`, priced at `avg`. */
  function UsageOverage(used: Volume, quota: Volume, avg: Tariff): (c: real)
    ensures Within(used, quota) ==> c == 0.0
    ensures NonNegativeTariff(avg) ==> c >= 0.0
  {
    Overage(used.data, quota.data, avg.dataPerMb)
    + Overage(used.voice, quota.voice, avg.voicePerMin)
    + Overage(used.sms, quota.sms, avg.smsPerUnit)
  }

  /** The overage is the usage beyond the quota priced at the averaged rate. */
  lemma UsageOverageIsExcessPrice(used: Volume, quota: Volume, avg: Tariff)
    ensures UsageOverage(used, quota, avg) == Price(Excess(used, quota), avg)
  {
  }

  /** The position of a warning's kind in an estimate's warning list. */
  function WarningKind(w: Warning): nat {
    match w
    case ValidityShort(_, _) => 0
    case DataOverage(_) => 1
    case VoiceOverage(_) => 2
    case SmsOverage(_) => 3
    case NotCovered(_, _) => 4
    case MeteredBillingRisk => 5
  }

  /** Strictly increasing kinds: at most one warning of each kind, and the
      kinds in their fixed order. */
  predicate KindOrdered(ws: seq<Warning>) {
    forall i, j :: 0 <= i < j < |ws| ==> WarningKind(ws[i]) < WarningKind(ws[j])
  }

  /** Two kind-ordered lists separated by kind `k` concatenate to one. */
  lemma KindOrderedAppend(a: seq<Warning>, b: seq<Warning>, k: nat)
    requires KindOrdered(a) && KindOrdered(b)
    requires forall i :: 0 <= i < |a| ==> WarningKind(a[i]) < k
    requires forall j :: 0 <= j < |b| ==> k <= WarningKind(b[j])
    ensures KindOrdered(a + b)
  {
    var ab := a + b;
    forall i, j | 0 <= i < j < |ab| ensures WarningKind(ab[i]) < WarningKind(ab[j]) {
      if j < |a| {
        assert ab[i] == a[i] && ab[j] == a[j];
      } else if i < |a| {
        assert ab[i] == a[i] && ab[j] == b[j - |a|];
      } else {
        assert ab[i] == b[i - |a|] && ab[j] == b[j - |a|];
      }
    }
  }

  /** One warning per exceeded quota, in the order data, voice, SMS, each
      carrying the excess. */
  function OverageWarnings(used: Volume, quota: Volume): (ws: seq<Warning>)
    ensures |ws| == 0 <==> Within(used, quota)
    ensures |ws| <= 3
    ensures forall w :: w in ws ==> w.DataOverage? || w.VoiceOverage? || w.SmsOverage?
    ensures DataOverage(used.data - quota.data) in ws <==> used.data > quota.data
  {
    (if used.data > quota.data then [DataOverage(used.data - quota.data)] else [])
    + (if used.voice > quota.voice then [VoiceOverage(used.voice - quota.voice)] else [])
    + (if used.sms > quota.sms then [SmsOverage(used.sms - quota.sms)] else [])
  }

  /** `ws` warns about the data, voice and SMS quota exactly when `used`
      exceeds that quota, with the excess as the warning's figure. */
  predicate QuotaWarningsMatch(ws: seq<Warning>, used: Volume, quota: Volume) {
    && (DataOverage(used.data - quota.data) in ws <==> used.data > quota.data)
    && (VoiceOverage(used.voice - quota.voice) in ws <==> used.voice > quota.voice)
    && (SmsOverage(used.sms - quota.sms) in ws <==> used.sms > quota.sms)
  }

  /** Each quota warning is present exactly when its own quota is exceeded,
      and the quota warnings are kind-ordered. */
  lemma OverageWarningsMatchQuotas(used: Volume, quota: Volume)
    ensures QuotaWarningsMatch(OverageWarnings(used, quota), used, quota)
    ensures KindOrdered(OverageWarnings(used, quota))
  {
    var d := if used.data > quota.data then [DataOverage(used.data - quota.data)] else [];
    var v := if used.voice > quota.voice then [VoiceOverage(used.voice - quota.voice)] else [];
    var m := if used.sms > quota.sms then [SmsOverage(used.sms - quota.sms)] else [];
    assert OverageWarnings(used, quota) == d + v + m;
    OverageWarningsOrdered(d, v, m);
    var wd := DataOverage(used.data - quota.data);
    var wv := VoiceOverage(used.voice - quota.voice);
    var wm := SmsOverage(used.sms - quota.sms);
    InThree(d, v, m, wd);
    assert wd !in v && wd !in m;
    InThree(d, v, m, wv);
    assert wv !in d && wv !in m;
    InThree(d, v, m, wm);
    assert wm !in d && wm !in v;
  }

  /** At most one data, then one voice, then one SMS warning is kind-ordered. */
  lemma OverageWarningsOrdered(d: seq<Warning>, v: seq<Warning>, m: seq<Warning>)
    requires |d| <= 1 && |v| <= 1 && |m| <= 1
    requires forall w :: w in d ==> w.DataOverage?
    requires forall w :: w in v ==> w.VoiceOverage?
    requires forall w :: w in m ==> w.SmsOverage?
    ensures KindOrdered(d + v + m)
  {
    if |d| == 1 { assert d[0] in d; }
    if |v| == 1 { assert v[0] in v; }
    if |m| == 1 { assert m[0] in m; }
    KindOrderedAppend(d, v, 2);
    KindOrderedAppend(d + v, m, 3);
  }

  /** Membership in a concatenation of three lists. */
  lemma InThree(a: seq<Warning>, b: seq<Warning>, c: seq<Warning>, w: Warning)
    ensures w in a + b + c <==> w in a || w in b || w in c
  {
  }

  /** The surcharge for the trip countries the bundle does not cover: the
      billed days are the trip's days scaled by the uncovered share of its
      countries, rounded up. */
  function UncoveredSurcharge(trip: TravelPlan, usage: UsageProfile, rates: seq<Rate>, pkg: RoamingPackage): (s: real)
    requires ValidTrip(trip)
    ensures |Uncovered(TripCodes(trip), pkg.countries)| == 0 ==> s == 0.0
  {
    var codes := TripCodes(trip);
    var uncovered := Uncovered(codes, pkg.countries);
    if |uncovered| == 0 then 0.0
    else
      CoveredUncoveredPartition(codes, pkg.countries);
      var days := CalculateUncoveredDays(trip.duration, |uncovered|, |codes|);
      CalculateUncoveredCountriesCost(uncovered, rates, usage, days as real)
  }

  /** With uncovered trip countries the surcharge is a day's usage at the
      summed rates of those countries, for the trip's days scaled by their
      share of the trip's countries and rounded up. */
  lemma UncoveredSurchargeAtSummedRates(trip: TravelPlan, usage: UsageProfile, rates: seq<Rate>, pkg: RoamingPackage)
    requires ValidTrip(trip)
    ensures var unc := Uncovered(TripCodes(trip), pkg.countries);
      |unc| > 0 ==>
        && |unc| <= |trip.countries|
        && UncoveredSurcharge(trip, usage, rates, pkg)
           == DailyCost(usage, SumTariff(RatesFor(unc, rates)))
              * CalculateUncoveredDays(trip.duration, |unc|, |trip.countries|) as real
  {
    var codes := TripCodes(trip);
    var uncovered := Uncovered(codes, pkg.countries);
    CoveredUncoveredPartition(codes, pkg.countries);
    if |uncovered| > 0 {
      var days := CalculateUncoveredDays(trip.duration, |uncovered|, |codes|);
      UncoveredCostAtSummedRates(uncovered, rates, usage, days as real);
    }
  }

  /** With non-negative usage and rates the surcharge is non-negative. */
  lemma UncoveredSurchargeNonNegative(trip: TravelPlan, usage: UsageProfile, rates: seq<Rate>, pkg: RoamingPackage)
    requires ValidTrip(trip) && NonNegativeUsage(usage) && NonNegativeRates(rates)
    ensures UncoveredSurcharge(trip, usage, rates, pkg) >= 0.0
  {
    var codes := TripCodes(trip);
    var uncovered := Uncovered(codes, pkg.countries);
    if |uncovered| > 0 {
      CoveredUncoveredPartition(codes, pkg.countries);
      var days := CalculateUncoveredDays(trip.duration, |uncovered|, |codes|);
      UncoveredCostNonNegative(uncovered, rates, usage, days as real);
    }
  }

  /** Non-negative usage, rates and days give a non-negative country cost. */
  lemma UncoveredCostNonNegative(codes: seq<string>, rates: seq<Rate>, usage: UsageProfile, days: real)
    requires NonNegativeUsage(usage) && NonNegativeRates(rates) && days >= 0.0
    ensures CalculateUncoveredCountriesCost(codes, rates, usage, days) >= 0.0
  {
    UncoveredCostAtSummedRates(codes, rates, usage, days);
    var found := RatesFor(codes, rates);
    FoundRatesNonNegative(codes, rates);
    assert forall i :: 0 <= i < |found| ==> AtLeast(found[i], ZeroTariff) by {
      forall i | 0 <= i < |found| ensures AtLeast(found[i], ZeroTariff) {
        assert found[i] in found;
      }
    }
    SumTariffLowerBound(found, ZeroTariff);
    DailyCostNonNegative(usage, SumTariff(found), days);
  }

  lemma DailyCostNonNegative(u: UsageProfile, t: Tariff, days: real)
    requires NonNegativeUsage(u) && NonNegativeTariff(t) && days >= 0.0
    ensures DailyCost(u, t) * days >= 0.0
  {
    assert u.dailyData * t.dataPerMb >= 0.0;
    assert u.dailyVoice * t.voicePerMin >= 0.0;
    assert u.dailySms * t.smsPerUnit >= 0.0;
  }

  /** The fixed 70/20/10 split of a base cost. */
  function SplitBase(base: real): (b: Breakdown)
    ensures b.Total() == base
    ensures b.data == 7.0 * b.sms && b.voice == 2.0 * b.sms
  {
    Breakdown(DataShare * base, VoiceShare * base, SmsShare * base)
  }

  /** The surcharge warning, naming the uncovered trip countries, when
      there are any. */
  function NotCoveredWarnings(trip: TravelPlan, pkg: RoamingPackage, surcharge: real): (ws: seq<Warning>)
    ensures |ws| <= 1
    ensures forall w :: w in ws ==> w.NotCovered?
    ensures |ws| == 1 <==> !CoversAll(trip, pkg)
  {
    var uncovered := Uncovered(TripCodes(trip), pkg.countries);
    UncoveredEmptyIffCoversAll(trip, pkg);
    if |uncovered| > 0 then [NotCovered(NamesOf(trip.countries, uncovered), surcharge)] else []
  }

  /** The warnings of an estimate: a short validity first, then the exceeded
      quotas, then the uncovered countries. */
  lemma PackageWarningsLayout(trip: TravelPlan, usage: UsageProfile, rates: seq<Rate>, pkg: RoamingPackage)
    requires ValidTrip(trip) && ValidPackage(pkg) && Covers(trip, pkg)
    ensures var r := CalculatePackageCost(trip, usage, rates, pkg);
      var units := RequiredPackages(pkg.validity, trip.duration);
      && r.Some?
      && r.value.warnings
         == (if pkg.validity < trip.duration then [ValidityShort(pkg.validity, units)] else [])
            + OverageWarnings(TripVolume(usage, trip.duration), Quota(pkg, units))
            + NotCoveredWarnings(trip, pkg, UncoveredSurcharge(trip, usage, rates, pkg))
  {
  }

  /** The price of `units` bundles. */
  function BaseCost(price: real, units: nat): real {
    if units == 0 then 0.0 else BaseCost(price, units - 1) + price
  }

  /** The price of `units` bundles is the unit price times `units`. */
  lemma {:induction false} BaseCostIsProduct(price: real, units: nat)
    ensures BaseCost(price, units) == price * units as real
  {
    if units > 0 {
      BaseCostIsProduct(price, units - 1);
    }
  }

  /** `calculatePackageCost`: the estimate of one bundle, or `None` when the
      bundle covers none of the trip's countries. */
  function CalculatePackageCost(trip: TravelPlan, usage: UsageProfile, rates: seq<Rate>, pkg: RoamingPackage): (r: Option<CostEstimate>)
    requires ValidTrip(trip) && ValidPackage(pkg)
    ensures r.None? <==> !Covers(trip, pkg)
    ensures r.Some? ==>
      var e := r.value;
      var units := RequiredPackages(pkg.validity, trip.duration);
      && e.packageId == Some(pkg.id)
      && e.packageName == pkg.name
      && !e.isRecommended
      && e.totalCost == e.baseCost + e.overageCost
      && e.baseCost == BaseCost(pkg.price, units)
      && e.breakdown.Total() == e.baseCost
      && e.breakdown.data == DataShare * e.baseCost
      && e.breakdown.voice == VoiceShare * e.baseCost
      && e.breakdown.sms == SmsShare * e.baseCost
      && e.validityIssue == Some(pkg.validity < trip.duration)
      && (pkg.validity < trip.duration <==> |e.warnings| > 0 && e.warnings[0] == ValidityShort(pkg.validity, units))
  {
    var codes := TripCodes(trip);
    var covered := Covered(codes, pkg.countries);
    CoveredEmptyIffNotCovers(trip, pkg);
    if |covered| == 0 then None
    else
      var issue := pkg.validity < trip.duration;
      var units := RequiredPackages(pkg.validity, trip.duration);
      var baseCost := BaseCost(pkg.price, units);
      var used := TripVolume(usage, trip.duration);
      var quota := Quota(pkg, units);
      var uncovered := Uncovered(codes, pkg.countries);
      var surcharge := UncoveredSurcharge(trip, usage, rates, pkg);
      var overageCost := UsageOverage(used, quota, GetAverageRate(covered, rates)) + surcharge;
      var warnings :=
        (if issue then [ValidityShort(pkg.validity, units)] else [])
        + OverageWarnings(used, quota)
        + NotCoveredWarnings(trip, pkg, surcharge);
      Some(CostEstimate(
        packageId := Some(pkg.id),
        packageName := pkg.name,
        totalCost := baseCost + overageCost,
        baseCost := baseCost,
        overageCost := overageCost,
        breakdown := SplitBase(baseCost),
        warnings := warnings,
        isRecommended := false,
        validityIssue := Some(issue)))
  }

  /** No trip code is offered exactly when nothing is covered. */
  lemma CoveredEmptyIffNotCovers(trip: TravelPlan, pkg: RoamingPackage)
    ensures |Covered(TripCodes(trip), pkg.countries)| == 0 <==> !Covers(trip, pkg)
  {
    var codes := TripCodes(trip);
    var covered := Covered(codes, pkg.countries);
    CoveredMembers(codes, pkg.countries);
    if |covered| > 0 {
      assert covered[0] in covered;
      var i :| 0 <= i < |codes| && codes[i] == covered[0];
    } else {
      forall i | 0 <= i < |trip.countries| ensures trip.countries[i].code !in pkg.countries {
        assert codes[i] in codes;
      }
    }
  }

  /** Every trip code is offered exactly when nothing is left uncovered. */
  lemma UncoveredEmptyIffCoversAll(trip: TravelPlan, pkg: RoamingPackage)
    ensures |Uncovered(TripCodes(trip), pkg.countries)| == 0 <==> CoversAll(trip, pkg)
  {
    var codes := TripCodes(trip);
    var uncovered := Uncovered(codes, pkg.countries);
    CoveredMembers(codes, pkg.countries);
    if |uncovered| > 0 {
      assert uncovered[0] in uncovered;
      var i :| 0 <= i < |codes| && codes[i] == uncovered[0];
    } else {
      forall i | 0 <= i < |trip.countries| ensures trip.countries[i].code in pkg.countries {
        assert codes[i] in codes;
      }
    }
  }

  /** With non-negative usage and rates a bundle never costs less than its
      base price: overage and surcharge are non-negative. */
  lemma PackageOverageNonNegative(trip: TravelPlan, usage: UsageProfile, rates: seq<Rate>, pkg: RoamingPackage)
    requires ValidTrip(trip) && ValidPackage(pkg) && Covers(trip, pkg)
    requires NonNegativeUsage(usage) && NonNegativeRates(rates)
    ensures var r := CalculatePackageCost(trip, usage, rates, pkg);
      r.Some? && r.value.overageCost >= 0.0 && r.value.totalCost >= r.value.baseCost
  {
    var covered := Covered(TripCodes(trip), pkg.countries);
    AverageRateNonNegative(covered, rates);
    UncoveredSurchargeNonNegative(trip, usage, rates, pkg);
  }

  /** A bundle that covers every trip country, with the trip's usage within
      its (repeated) quotas, costs exactly its base price and warns at most
      about a short validity. */
  lemma NoOverageWhenCoveredWithinQuota(trip: TravelPlan, usage: UsageProfile, rates: seq<Rate>, pkg: RoamingPackage)
    requires ValidTrip(trip) && ValidPackage(pkg)
    requires |trip.countries| > 0 && CoversAll(trip, pkg)
    requires Within(TripVolume(usage, trip.duration), Quota(pkg, RequiredPackages(pkg.validity, trip.duration)))
    ensures var r := CalculatePackageCost(trip, usage, rates, pkg);
      && r.Some?
      && r.value.overageCost == 0.0
      && r.value.totalCost == r.value.baseCost
      && r.value.warnings
         == if pkg.validity < trip.duration
            then [ValidityShort(pkg.validity, RequiredPackages(pkg.validity, trip.duration))]
            else []
  {
    assert trip.countries[0].code in pkg.countries;
    UncoveredEmptyIffCoversAll(trip, pkg);
  }

  /** A bundle estimate reports a surcharge warning exactly when some trip
      country lies outside the bundle, and that warning is the last one. */
  lemma NotCoveredWarningIffPartialCoverage(trip: TravelPlan, usage: UsageProfile, rates: seq<Rate>, pkg: RoamingPackage)
    requires ValidTrip(trip) && ValidPackage(pkg) && Covers(trip, pkg)
    ensures var r := CalculatePackageCost(trip, usage, rates, pkg);
      && r.Some?
      && ((exists w :: w in r.value.warnings && w.NotCovered?) <==> !CoversAll(trip, pkg))
      && (!CoversAll(trip, pkg) ==> r.value.warnings[|r.value.warnings| - 1].NotCovered?)
  {
    PackageWarningsLayout(trip, usage, rates, pkg);
    var units := RequiredPackages(pkg.validity, trip.duration);
    var short := if pkg.validity < trip.duration then [ValidityShort(pkg.validity, units)] else [];
    var over := OverageWarnings(TripVolume(usage, trip.duration), Quota(pkg, units));
    var back := NotCoveredWarnings(trip, pkg, UncoveredSurcharge(trip, usage, rates, pkg));
    NotCoveredComesLast(short, over, back);
  }

  lemma NotCoveredComesLast(short: seq<Warning>, over: seq<Warning>, back: seq<Warning>)
    requires forall w :: w in short ==> w.ValidityShort?
    requires forall w :: w in over ==> w.DataOverage? || w.VoiceOverage? || w.SmsOverage?
    requires |back| <= 1 && forall w :: w in back ==> w.NotCovered?
    ensures var ws := short + over + back;
      && ((exists w :: w in ws && w.NotCovered?) <==> |back| == 1)
      && (|back| == 1 ==> ws[|ws| - 1].NotCovered?)
  {
    var ws := short + over + back;
    assert forall w :: w in ws <==> w in short || w in over || w in back;
    if |back| == 1 {
      assert ws[|ws| - 1] == back[0];
      assert back[0] in ws;
    }
  }

  /** A bundle's overage charge is the usage beyond its (repeated) quotas,
      priced at the mean rate of the covered trip countries, plus the
      surcharge for the uncovered ones. */
  lemma PackageOverageCost(trip: TravelPlan, usage: UsageProfile, rates: seq<Rate>, pkg: RoamingPackage)
    requires ValidTrip(trip) && ValidPackage(pkg) && Covers(trip, pkg)
    ensures var r := CalculatePackageCost(trip, usage, rates, pkg);
      var units := RequiredPackages(pkg.validity, trip.duration);
      var excess := Excess(TripVolume(usage, trip.duration), Quota(pkg, units));
      var avg := GetAverageRate(Covered(TripCodes(trip), pkg.countries), rates);
      && r.Some?
      && r.value.overageCost == Price(excess, avg) + UncoveredSurcharge(trip, usage, rates, pkg)
  {
    CoveredEmptyIffNotCovers(trip, pkg);
    var units := RequiredPackages(pkg.validity, trip.duration);
    var avg := GetAverageRate(Covered(TripCodes(trip), pkg.countries), rates);
    UsageOverageIsExcessPrice(TripVolume(usage, trip.duration), Quota(pkg, units), avg);
  }

  /** The overage rate lies between the cheapest and the dearest covered
      country with a rate entry, so the overage charge lies between the
      excess priced at those bounds, plus the surcharge. */
  lemma PackageOverageWithinBounds(trip: TravelPlan, usage: UsageProfile, rates: seq<Rate>, pkg: RoamingPackage, lo: Tariff, hi: Tariff)
    requires ValidTrip(trip) && ValidPackage(pkg) && Covers(trip, pkg)
    requires var found := RatesFor(Covered(TripCodes(trip), pkg.countries), rates);
      |found| > 0 && forall i :: 0 <= i < |found| ==> AtLeast(found[i], lo) && AtMost(found[i], hi)
    ensures var r := CalculatePackageCost(trip, usage, rates, pkg);
      var units := RequiredPackages(pkg.validity, trip.duration);
      var excess := Excess(TripVolume(usage, trip.duration), Quota(pkg, units));
      var s := UncoveredSurcharge(trip, usage, rates, pkg);
      && r.Some?
      && Price(excess, lo) + s <= r.value.overageCost <= Price(excess, hi) + s
  {
    var covered := Covered(TripCodes(trip), pkg.countries);
    var units := RequiredPackages(pkg.validity, trip.duration);
    var excess := Excess(TripVolume(usage, trip.duration), Quota(pkg, units));
    var avg := GetAverageRate(covered, rates);
    PackageOverageCost(trip, usage, rates, pkg);
    AverageRateWithinBounds(covered, rates, lo, hi);
    PriceMonotone(excess, lo, avg);
    PriceMonotone(excess, avg, hi);
  }

  /** An estimate's warnings come at most one of each kind, in the order
      short validity, data, voice, SMS, uncovered countries. */
  lemma PackageWarningsOrdered(trip: TravelPlan, usage: UsageProfile, rates: seq<Rate>, pkg: RoamingPackage)
    requires ValidTrip(trip) && ValidPackage(pkg) && Covers(trip, pkg)
    ensures var r := CalculatePackageCost(trip, usage, rates, pkg);
      r.Some? && KindOrdered(r.value.warnings)
  {
    PackageWarningsLayout(trip, usage, rates, pkg);
    var units := RequiredPackages(pkg.validity, trip.duration);
    var short := if pkg.validity < trip.duration then [ValidityShort(pkg.validity, units)] else [];
    var back := NotCoveredWarnings(trip, pkg, UncoveredSurcharge(trip, usage, rates, pkg));
    var ws := CalculatePackageCost(trip, usage, rates, pkg).value.warnings;
    WarningListOrdered(ws, short, TripVolume(usage, trip.duration), Quota(pkg, units), back);
  }

  /** An estimate warns about a quota exactly when the trip's usage exceeds
      it, and the warning carries the excess. */
  lemma PackageQuotaWarnings(trip: TravelPlan, usage: UsageProfile, rates: seq<Rate>, pkg: RoamingPackage) returns (e: CostEstimate)
    requires ValidTrip(trip) && ValidPackage(pkg) && Covers(trip, pkg)
    ensures CalculatePackageCost(trip, usage, rates, pkg) == Some(e)
    ensures QuotaWarningsMatch(e.warnings, TripVolume(usage, trip.duration),
                               Quota(pkg, RequiredPackages(pkg.validity, trip.duration)))
  {
    PackageWarningsLayout(trip, usage, rates, pkg);
    e := CalculatePackageCost(trip, usage, rates, pkg).value;
    var units := RequiredPackages(pkg.validity, trip.duration);
    var short := if pkg.validity < trip.duration then [ValidityShort(pkg.validity, units)] else [];
    var back := NotCoveredWarnings(trip, pkg, UncoveredSurcharge(trip, usage, rates, pkg));
    WarningListOrdered(e.warnings, short, TripVolume(usage, trip.duration), Quota(pkg, units), back);
  }

  /** A validity warning, the quota warnings and a coverage warning, in that
      order, form a kind-ordered list in which each quota warning is present
      exactly when its quota is exceeded. */
  lemma WarningListOrdered(ws: seq<Warning>, short: seq<Warning>, used: Volume, quota: Volume, back: seq<Warning>)
    requires |short| <= 1 && forall w :: w in short ==> w.ValidityShort?
    requires |back| <= 1 && forall w :: w in back ==> w.NotCovered?
    requires ws == short + OverageWarnings(used, quota) + back
    ensures KindOrdered(ws)
    ensures QuotaWarningsMatch(ws, used, quota)
  {
    var over := OverageWarnings(used, quota);
    OverageWarningsMatchQuotas(used, quota);
    KindOrderedAround(short, over, back);
    InThree(short, over, back, DataOverage(used.data - quota.data));
    InThree(short, over, back, VoiceOverage(used.voice - quota.voice));
    InThree(short, over, back, SmsOverage(used.sms - quota.sms));
  }

  /** Quota warnings between a validity and a coverage warning stay ordered. */
  lemma KindOrderedAround(short: seq<Warning>, over: seq<Warning>, back: seq<Warning>)
    requires |short| <= 1 && forall w :: w in short ==> w.ValidityShort?
    requires |back| <= 1 && forall w :: w in back ==> w.NotCovered?
    requires KindOrdered(over) && forall w :: w in over ==> w.DataOverage? || w.VoiceOverage? || w.SmsOverage?
    ensures KindOrdered(short + over + back)
  {
    assert forall j :: 0 <= j < |over| ==> 1 <= WarningKind(over[j]) <= 3 by {
      forall j | 0 <= j < |over| ensures 1 <= WarningKind(over[j]) <= 3 {
        assert over[j] in over;
      }
    }
    if |short| == 1 {
      assert short[0] in short;
    }
    if |back| == 1 {
      assert back[0] in back;
    }
    KindOrderedAppend(short, over, 1);
    KindOrderedAppend(short + over, back, 4);
  }

  /** Every uncovered code belongs to some trip country. */
  lemma UncoveredAreTripCountries(trip: TravelPlan, pkg: RoamingPackage)
    ensures forall c :: c in Uncovered(TripCodes(trip), pkg.countries) ==> HasCountry(trip.countries, c)
  {
    var codes := TripCodes(trip);
    CoveredMembers(codes, pkg.countries);
    forall c | c in Uncovered(codes, pkg.countries) ensures HasCountry(trip.countries, c) {
      var j :| 0 <= j < |codes| && codes[j] == c;
      assert trip.countries[j].code == c;
    }
  }

  /** For a bundle covering only part of the trip, the last warning is the
      coverage warning. It names each uncovered trip country, in trip order,
      by the name of the first trip country with that code, and reports the
      surcharge that is added to the overage. */
  lemma CoverageWarningContent(trip: TravelPlan, usage: UsageProfile, rates: seq<Rate>, pkg: RoamingPackage) returns (e: CostEstimate)
    requires ValidTrip(trip) && ValidPackage(pkg) && Covers(trip, pkg) && !CoversAll(trip, pkg)
    ensures CalculatePackageCost(trip, usage, rates, pkg) == Some(e)
    ensures |e.warnings| > 0 && e.warnings[|e.warnings| - 1].NotCovered?
    ensures e.warnings[|e.warnings| - 1].surcharge == UncoveredSurcharge(trip, usage, rates, pkg)
    ensures NamesFirstMatches(e.warnings[|e.warnings| - 1].countryNames, trip.countries,
                              Uncovered(TripCodes(trip), pkg.countries))
  {
    PackageWarningsLayout(trip, usage, rates, pkg);
    e := CalculatePackageCost(trip, usage, rates, pkg).value;
    var unc := Uncovered(TripCodes(trip), pkg.countries);
    UncoveredEmptyIffCoversAll(trip, pkg);
    var w := NotCovered(NamesOf(trip.countries, unc), UncoveredSurcharge(trip, usage, rates, pkg));
    assert NotCoveredWarnings(trip, pkg, UncoveredSurcharge(trip, usage, rates, pkg)) == [w];
    assert e.warnings[|e.warnings| - 1] == w;
    UncoveredAreTripCountries(trip, pkg);
    NamesOfFirst(trip.countries, unc);
  }
}
