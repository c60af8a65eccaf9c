/** The trip form's pure logic (src/components/TravelPlanForm.tsx): the
    inclusive day count, the country-selection toggle and the guard that
    emits a plan only when it is complete. A date is the millisecond instant
    `Date.getTime()` yields for it; an empty date field is `None`. */
module TravelPlanForm {
  import opened Wrappers
  import opened Types

  /** Milliseconds per day, `1000 * 60 * 60 * 24`. */
  const MsPerDay: nat := 86400000

  function Abs(x: int): nat {
    if x < 0 then -x else x
  }

  /** `calculateDuration`: 0 when a date is missing, otherwise the whole days
      between the dates, rounded up, plus one so both ends count. */
  function CalculateDuration(start: Option<int>, end: Option<int>): (d: nat)
    ensures start.None? || end.None? ==> d == 0
    ensures start.Some? && end.Some? ==>
      var gap := Abs(end.value - start.value);
      && d >= 1
      && (d - 1) * MsPerDay >= gap
      && (d == 1 || (d - 2) * MsPerDay < gap)
  {
    match (start, end)
    case (Some(s), Some(e)) =>
      CeilDivIsCeiling(Abs(e - s), MsPerDay);
      CeilDiv(Abs(e - s), MsPerDay) + 1
    case _ => 0
  }

  /** The day count does not depend on which date is the start. */
  lemma DurationSymmetric(s: int, e: int)
    ensures CalculateDuration(Some(s), Some(e)) == CalculateDuration(Some(e), Some(s))
  {
    assert Abs(e - s) == Abs(s - e);
  }

  /** A trip that starts and ends on the same instant lasts one day. */
  lemma DurationSameDay(s: int)
    ensures CalculateDuration(Some(s), Some(s)) == 1
  {
  }

  /** For dates at the start of days `a` and `b` the count is inclusive:
      `|b - a| + 1`. */
  lemma DurationOfDayNumbers(a: int, b: int)
    ensures CalculateDuration(Some(a * MsPerDay), Some(b * MsPerDay)) == Abs(b - a) + 1
  {
    var k := Abs(b - a);
    assert Abs(b * MsPerDay - a * MsPerDay) == k * MsPerDay;
    var d := CalculateDuration(Some(a * MsPerDay), Some(b * MsPerDay));
    assert (d - 1) * MsPerDay >= k * MsPerDay;
  }

  /** Some selected country has `code`. */
  predicate HasCode(cs: seq<Country>, code: string) {
    exists i :: 0 <= i < |cs| && cs[i].code == code
  }

  /** No two selected countries share a code. */
  predicate UniqueCodes(cs: seq<Country>) {
    forall i, j :: 0 <= i < j < |cs| ==> cs[i].code != cs[j].code
  }

  /** `filter(c => c.code !== code)`. */
  function WithoutCode(cs: seq<Country>, code: string): (r: seq<Country>)
    ensures |r| <= |cs|
  {
    if |cs| == 0 then []
    else (if cs[0].code != code then [cs[0]] else []) + WithoutCode(cs[1..], code)
  }

  /** The filter keeps exactly the countries without `code`. */
  lemma {:induction false} WithoutCodeMembers(cs: seq<Country>, code: string)
    ensures forall c :: c in WithoutCode(cs, code) <==> c in cs && c.code != code
  {
    if |cs| > 0 {
      WithoutCodeMembers(cs[1..], code);
      assert forall c :: c in cs <==> c == cs[0] || c in cs[1..];
    }
  }

  /** `handleCountryToggle`: a selected code is removed (every entry with
      it), an unselected country is appended. */
  function ToggleCountry(selected: seq<Country>, country: Country): (r: seq<Country>)
    ensures HasCode(r, country.code) <==> !HasCode(selected, country.code)
    ensures HasCode(selected, country.code) ==>
      forall c :: c in r <==> c in selected && c.code != country.code
    ensures !HasCode(selected, country.code) ==>
      |r| == |selected| + 1 && r[..|selected|] == selected && r[|selected|] == country
  {
    if HasCode(selected, country.code) then
      var r := WithoutCode(selected, country.code);
      WithoutCodeMembers(selected, country.code);
      assert !HasCode(r, country.code) by {
        forall i | 0 <= i < |r| ensures r[i].code != country.code {
          assert r[i] in r;
        }
      }
      r
    else
      var r := selected + [country];
      assert r[|selected|].code == country.code;
      r
  }

  /** Filtering keeps codes unique. */
  lemma {:induction false} WithoutCodeKeepsUniqueCodes(cs: seq<Country>, code: string)
    requires UniqueCodes(cs)
    ensures UniqueCodes(WithoutCode(cs, code))
  {
    if |cs| > 0 {
      assert UniqueCodes(cs[1..]);
      WithoutCodeKeepsUniqueCodes(cs[1..], code);
      if cs[0].code != code {
        var rest := WithoutCode(cs[1..], code);
        assert WithoutCode(cs, code) == [cs[0]] + rest;
        HeadCodeNotInTail(cs);
        WithoutCodeMembers(cs[1..], code);
        ConsKeepsUniqueCodes(cs[0], rest);
      }
    }
  }

  /** In a list with unique codes the head's code does not occur later. */
  lemma HeadCodeNotInTail(cs: seq<Country>)
    requires |cs| > 0 && UniqueCodes(cs)
    ensures forall c :: c in cs[1..] ==> c.code != cs[0].code
  {
    forall c | c in cs[1..] ensures c.code != cs[0].code {
      var j :| 0 <= j < |cs[1..]| && cs[1..][j] == c;
      assert cs[j + 1] == c;
    }
  }

  /** A country whose code is new can go in front of a list with unique codes. */
  lemma ConsKeepsUniqueCodes(x: Country, rest: seq<Country>)
    requires UniqueCodes(rest) && forall c :: c in rest ==> c.code != x.code
    ensures UniqueCodes([x] + rest)
  {
    var r := [x] + rest;
    forall i, j | 0 <= i < j < |r| ensures r[i].code != r[j].code {
      assert r[j] == rest[j - 1] && rest[j - 1] in rest;
      if i > 0 {
        assert r[i] == rest[i - 1];
      }
    }
  }

  /** Toggling keeps the codes of the selection unique. */
  lemma ToggleKeepsUniqueCodes(selected: seq<Country>, country: Country)
    requires UniqueCodes(selected)
    ensures UniqueCodes(ToggleCountry(selected, country))
  {
    if HasCode(selected, country.code) {
      WithoutCodeKeepsUniqueCodes(selected, country.code);
    } else {
      var r := ToggleCountry(selected, country);
      forall i, j | 0 <= i < j < |r| ensures r[i].code != r[j].code {
        if j == |selected| {
          assert r[i] == selected[i];
        }
      }
    }
  }

  /** Removing a code nobody has changes nothing. */
  lemma {:induction false} WithoutAbsentCode(cs: seq<Country>, code: string)
    requires !HasCode(cs, code)
    ensures WithoutCode(cs, code) == cs
  {
    if |cs| > 0 {
      var tail := cs[1..];
      assert cs[0].code != code;
      assert !HasCode(tail, code) by {
        forall i | 0 <= i < |tail| ensures tail[i].code != code {
          assert tail[i] == cs[i + 1];
        }
      }
      WithoutAbsentCode(tail, code);
      assert WithoutCode(cs, code) == [cs[0]] + WithoutCode(tail, code);
      assert cs == [cs[0]] + tail;
    }
  }

  /** Removing a code from an extended list removes it from each part. */
  lemma {:induction false} WithoutCodeAppend(cs: seq<Country>, x: Country, code: string)
    ensures WithoutCode(cs + [x], code) == WithoutCode(cs, code) + (if x.code != code then [x] else [])
  {
    if |cs| > 0 {
      var tail := cs[1..];
      assert (cs + [x])[1..] == tail + [x] && (cs + [x])[0] == cs[0];
      WithoutCodeAppend(tail, x, code);
      var head := if cs[0].code != code then [cs[0]] else [];
      var last := if x.code != code then [x] else [];
      assert WithoutCode(cs + [x], code) == head + (WithoutCode(tail, code) + last);
      assert WithoutCode(cs, code) == head + WithoutCode(tail, code);
      assert head + (WithoutCode(tail, code) + last) == (head + WithoutCode(tail, code)) + last;
    }
  }

  /** Adding a country and toggling it again restores the selection exactly. */
  lemma ToggleTwiceRestores(selected: seq<Country>, country: Country)
    requires !HasCode(selected, country.code)
    ensures ToggleCountry(ToggleCountry(selected, country), country) == selected
  {
    var once := ToggleCountry(selected, country);
    assert once == selected + [country];
    WithoutCodeAppend(selected, country, country.code);
    WithoutAbsentCode(selected, country.code);
  }

  /** `updateTravelPlan`: a plan is emitted only with at least one country
      and both dates present. */
  function UpdateTravelPlan(countries: seq<Country>, start: Option<int>, end: Option<int>): (r: Option<TravelPlan>)
    ensures r.Some? <==> |countries| > 0 && start.Some? && end.Some?
    ensures r.Some? ==>
      && r.value.countries == countries
      && r.value.startDate == start.value
      && r.value.endDate == end.value
      && r.value.duration == CalculateDuration(start, end)
      && r.value.duration >= 1
      && ValidTrip(r.value)
  {
    if |countries| > 0 && start.Some? && end.Some? then
      Some(TravelPlan(countries, start.value, end.value, CalculateDuration(start, end)))
    else None
  }
}
