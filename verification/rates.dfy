/** Metered-rate lookup and averaging (`rates.find`, `getAverageRate` in
    src/utils/costCalculator.ts). */
module Rates {
  import opened Wrappers
  import opened Types

  /** The rate set used for overage when no covered country has a rate entry. */
  const DefaultTariff := Tariff(0.20, 3.0, 1.0)

  /** The first catalog entry for `code`, as `Array.prototype.find` returns it. */
  function FindRate(rates: seq<Rate>, code: string): (r: Option<Rate>)
  {
    if |rates| == 0 then None
    else if rates[0].country == code then Some(rates[0])
    else FindRate(rates[1..], code)
  }

  /** The lookup fails exactly when no entry has the code, and otherwise
      yields the first entry that has it. */
  lemma {:induction false} FindRateFirst(rates: seq<Rate>, code: string)
    ensures FindRate(rates, code).None? <==> forall i :: 0 <= i < |rates| ==> rates[i].country != code
    ensures FindRate(rates, code).Some? ==>
      exists i :: 0 <= i < |rates| && rates[i] == FindRate(rates, code).value && IsFirstEntry(rates, code, i)
  {
    if |rates| > 0 {
      if rates[0].country == code {
        assert IsFirstEntry(rates, code, 0);
      } else {
        FindRateFirst(rates[1..], code);
        if FindRate(rates[1..], code).Some? {
          var i :| 0 <= i < |rates[1..]| && rates[1..][i] == FindRate(rates[1..], code).value && IsFirstEntry(rates[1..], code, i);
          assert IsFirstEntry(rates, code, i + 1);
        } else {
          forall i | 0 <= i < |rates| ensures rates[i].country != code {
            if i > 0 { assert rates[i] == rates[1..][i - 1]; }
          }
        }
      }
    }
  }

  /** The lookup yields the first entry with the code. */
  lemma {:induction false} FindRateAt(rates: seq<Rate>, code: string, i: int)
    requires 0 <= i < |rates| && IsFirstEntry(rates, code, i)
    ensures FindRate(rates, code) == Some(rates[i])
  {
    if i > 0 {
      assert rates[0].country != code;
      assert IsFirstEntry(rates[1..], code, i - 1);
      FindRateAt(rates[1..], code, i - 1);
    }
  }

  /** `rates[i]` is the first entry whose country is `code`. */
  predicate IsFirstEntry(rates: seq<Rate>, code: string, i: int)
    requires 0 <= i < |rates|
  {
    rates[i].country == code && forall j :: 0 <= j < i ==> rates[j].country != code
  }

  /** The rate entries found for `codes`, in order, skipping codes without an
      entry (`codes.map(find).filter(Boolean)`). */
  function RatesFor(codes: seq<string>, rates: seq<Rate>): (found: seq<Rate>)
  {
    if |codes| == 0 then []
    else
      var rest := RatesFor(codes[1..], rates);
      match FindRate(rates, codes[0])
      case None => rest
      case Some(r) => [r] + rest
  }

  /** At most one entry per code is found, each one is a catalog entry for a
      code of `codes`, and nothing is found exactly when no code has an entry. */
  lemma {:induction false} RatesForFound(codes: seq<string>, rates: seq<Rate>)
    ensures var found := RatesFor(codes, rates);
      && |found| <= |codes|
      && (forall r :: r in found ==> r in rates && r.country in codes)
      && (|found| == 0 <==> forall c :: c in codes ==> FindRate(rates, c).None?)
  {
    if |codes| > 0 {
      RatesForFound(codes[1..], rates);
      FindRateFirst(rates, codes[0]);
      assert forall c :: c in codes <==> c == codes[0] || c in codes[1..];
    }
  }

  /** Component-wise sum of a sequence of rates. */
  function SumTariff(rs: seq<Rate>): Tariff {
    if |rs| == 0 then ZeroTariff else SumTariff(rs[1..]).Plus(rs[0])
  }

  /** `getAverageRate`: the component-wise mean of the rates found for
      `codes`, or the default rate set when none is found. */
  function GetAverageRate(codes: seq<string>, rates: seq<Rate>): (t: Tariff)
  {
    MeanTariff(RatesFor(codes, rates))
  }

  /** When no code of `codes` has a rate entry the fallback rate set is used. */
  lemma AverageRateDefault(codes: seq<string>, rates: seq<Rate>)
    requires forall c :: c in codes ==> FindRate(rates, c).None?
    ensures GetAverageRate(codes, rates) == DefaultTariff
  {
    RatesForFound(codes, rates);
  }

  /** The component-wise arithmetic mean of `found`, falling back to the
      default rate set for an empty sequence. */
  function MeanTariff(found: seq<Rate>): (t: Tariff)
    ensures |found| == 0 ==> t == DefaultTariff
  {
    if |found| == 0 then DefaultTariff
    else
      var n := |found| as real;
      var s := SumTariff(found);
      Tariff(s.dataPerMb / n, s.voicePerMin / n, s.smsPerUnit / n)
  }

  /** `t` is the component-wise mean of `found`: each price of `t` times the
      number of rates is the sum of that price over them. */
  predicate IsMean(t: Tariff, found: seq<Rate>) {
    var n := |found| as real;
    var s := SumTariff(found);
    t.dataPerMb * n == s.dataPerMb && t.voicePerMin * n == s.voicePerMin && t.smsPerUnit * n == s.smsPerUnit
  }

  /** `getAverageRate` is the mean of every rate found for the codes, not of
      some of them. */
  lemma AverageRateIsMean(codes: seq<string>, rates: seq<Rate>)
    requires |RatesFor(codes, rates)| > 0
    ensures IsMean(GetAverageRate(codes, rates), RatesFor(codes, rates))
  {
    MeanTimesCount(RatesFor(codes, rates));
  }

  /** The mean times the number of rates is the sum, component by component. */
  lemma MeanTimesCount(found: seq<Rate>)
    requires |found| > 0
    ensures IsMean(MeanTariff(found), found)
  {
    var n := |found| as real;
    var s := SumTariff(found);
    DivideThenMultiply(s.dataPerMb, n);
    DivideThenMultiply(s.voicePerMin, n);
    DivideThenMultiply(s.smsPerUnit, n);
  }

  lemma DivideThenMultiply(s: real, n: real)
    requires n > 0.0
    ensures (s / n) * n == s
  {
  }

  /** `lo <= r` component-wise. */
  predicate AtLeast(r: Rate, lo: Tariff) {
    lo.dataPerMb <= r.dataPerMb && lo.voicePerMin <= r.voicePerMin && lo.smsPerUnit <= r.smsPerUnit
  }

  /** `r <= hi` component-wise. */
  predicate AtMost(r: Rate, hi: Tariff) {
    r.dataPerMb <= hi.dataPerMb && r.voicePerMin <= hi.voicePerMin && r.smsPerUnit <= hi.smsPerUnit
  }

  /** A sum of `n` rates, each at least `lo`, is at least `n * lo`. */
  lemma {:induction false} SumTariffLowerBound(rs: seq<Rate>, lo: Tariff)
    requires forall i :: 0 <= i < |rs| ==> AtLeast(rs[i], lo)
    ensures var s := SumTariff(rs); var n := |rs| as real;
      n * lo.dataPerMb <= s.dataPerMb && n * lo.voicePerMin <= s.voicePerMin && n * lo.smsPerUnit <= s.smsPerUnit
  {
    if |rs| > 0 {
      SumTariffLowerBound(rs[1..], lo);
      var m := |rs[1..]| as real;
      assert AtLeast(rs[0], lo);
      assert (m + 1.0) * lo.dataPerMb == m * lo.dataPerMb + lo.dataPerMb;
      assert (m + 1.0) * lo.voicePerMin == m * lo.voicePerMin + lo.voicePerMin;
      assert (m + 1.0) * lo.smsPerUnit == m * lo.smsPerUnit + lo.smsPerUnit;
    }
  }

  /** A sum of `n` rates, each at most `hi`, is at most `n * hi`. */
  lemma {:induction false} SumTariffUpperBound(rs: seq<Rate>, hi: Tariff)
    requires forall i :: 0 <= i < |rs| ==> AtMost(rs[i], hi)
    ensures var s := SumTariff(rs); var n := |rs| as real;
      s.dataPerMb <= n * hi.dataPerMb && s.voicePerMin <= n * hi.voicePerMin && s.smsPerUnit <= n * hi.smsPerUnit
  {
    if |rs| > 0 {
      SumTariffUpperBound(rs[1..], hi);
      var m := |rs[1..]| as real;
      assert AtMost(rs[0], hi);
      assert (m + 1.0) * hi.dataPerMb == m * hi.dataPerMb + hi.dataPerMb;
      assert (m + 1.0) * hi.voicePerMin == m * hi.voicePerMin + hi.voicePerMin;
      assert (m + 1.0) * hi.smsPerUnit == m * hi.smsPerUnit + hi.smsPerUnit;
    }
  }

  /** Rates found in a catalog of non-negative rates are non-negative. */
  lemma FoundRatesNonNegative(codes: seq<string>, rates: seq<Rate>)
    requires NonNegativeRates(rates)
    ensures forall r :: r in RatesFor(codes, rates) ==> AtLeast(r, ZeroTariff)
  {
    var found := RatesFor(codes, rates);
    RatesForFound(codes, rates);
    forall r | r in found
      ensures AtLeast(r, ZeroTariff)
    {
      var j :| 0 <= j < |rates| && rates[j] == r;
      assert NonNegativeRate(rates[j]);
    }
  }

  /** The mean of a non-empty sequence of rates lies, component by component,
      between any lower and upper bound of its elements. */
  lemma MeanTariffWithinBounds(found: seq<Rate>, lo: Tariff, hi: Tariff)
    requires |found| > 0
    requires forall i :: 0 <= i < |found| ==> AtLeast(found[i], lo) && AtMost(found[i], hi)
    ensures var t := MeanTariff(found);
      && lo.dataPerMb <= t.dataPerMb <= hi.dataPerMb
      && lo.voicePerMin <= t.voicePerMin <= hi.voicePerMin
      && lo.smsPerUnit <= t.smsPerUnit <= hi.smsPerUnit
  {
    MeanAtLeast(found, lo);
    MeanAtMost(found, hi);
  }

  lemma MeanAtLeast(found: seq<Rate>, lo: Tariff)
    requires |found| > 0
    requires forall i :: 0 <= i < |found| ==> AtLeast(found[i], lo)
    ensures var t := MeanTariff(found);
      lo.dataPerMb <= t.dataPerMb && lo.voicePerMin <= t.voicePerMin && lo.smsPerUnit <= t.smsPerUnit
  {
    SumTariffLowerBound(found, lo);
    var n := |found| as real;
    var s := SumTariff(found);
    QuotientAtLeast(s.dataPerMb, n, lo.dataPerMb);
    QuotientAtLeast(s.voicePerMin, n, lo.voicePerMin);
    QuotientAtLeast(s.smsPerUnit, n, lo.smsPerUnit);
  }

  lemma MeanAtMost(found: seq<Rate>, hi: Tariff)
    requires |found| > 0
    requires forall i :: 0 <= i < |found| ==> AtMost(found[i], hi)
    ensures var t := MeanTariff(found);
      t.dataPerMb <= hi.dataPerMb && t.voicePerMin <= hi.voicePerMin && t.smsPerUnit <= hi.smsPerUnit
  {
    SumTariffUpperBound(found, hi);
    var n := |found| as real;
    var s := SumTariff(found);
    QuotientAtMost(s.dataPerMb, n, hi.dataPerMb);
    QuotientAtMost(s.voicePerMin, n, hi.voicePerMin);
    QuotientAtMost(s.smsPerUnit, n, hi.smsPerUnit);
  }

  /** The averaged overage rate lies, component by component, between the
      lowest and the highest rate of the covered countries that have an entry. */
  lemma AverageRateWithinBounds(codes: seq<string>, rates: seq<Rate>, lo: Tariff, hi: Tariff)
    requires var found := RatesFor(codes, rates);
      |found| > 0 && forall i :: 0 <= i < |found| ==> AtLeast(found[i], lo) && AtMost(found[i], hi)
    ensures var t := GetAverageRate(codes, rates);
      && lo.dataPerMb <= t.dataPerMb <= hi.dataPerMb
      && lo.voicePerMin <= t.voicePerMin <= hi.voicePerMin
      && lo.smsPerUnit <= t.smsPerUnit <= hi.smsPerUnit
  {
    MeanTariffWithinBounds(RatesFor(codes, rates), lo, hi);
  }

  /** With non-negative catalog rates the averaged rate is non-negative. */
  lemma AverageRateNonNegative(codes: seq<string>, rates: seq<Rate>)
    requires NonNegativeRates(rates)
    ensures NonNegativeTariff(GetAverageRate(codes, rates))
  {
    var found := RatesFor(codes, rates);
    if |found| > 0 {
      FoundRatesNonNegative(codes, rates);
      assert forall i :: 0 <= i < |found| ==> AtLeast(found[i], ZeroTariff) by {
        forall i | 0 <= i < |found| ensures AtLeast(found[i], ZeroTariff) {
          assert found[i] in found;
        }
      }
      SumTariffLowerBound(found, ZeroTariff);
      var n := |found| as real;
      var s := SumTariff(found);
      QuotientAtLeast(s.dataPerMb, n, 0.0);
      QuotientAtLeast(s.voicePerMin, n, 0.0);
      QuotientAtLeast(s.smsPerUnit, n, 0.0);
    }
  }

  lemma QuotientAtLeast(s: real, n: real, lo: real)
    requires n > 0.0 && n * lo <= s
    ensures lo <= s / n
  {
    assert s / n - lo == (s - n * lo) / n;
  }

  lemma QuotientAtMost(s: real, n: real, hi: real)
    requires n > 0.0 && s <= n * hi
    ensures s / n <= hi
  {
    assert hi - s / n == (n * hi - s) / n;
  }
}
