/** The top-up merge (src/components/TopUpCalculator.tsx): an extra amount
    of data, voice and SMS for the whole trip is spread evenly over the
    trip's days and added to the daily profile. */
module TopUpCalculator {
  import opened Types
  import PackageCost

  /** Extra amounts for the whole trip: data in MB, voice in minutes, SMS. */
  datatype TopUp = TopUp(data: real, voice: real, sms: real)

  const NoTopUp := TopUp(0.0, 0.0, 0.0)

  /** `handleCalculateWithTopUp`: each daily amount grows by its top-up over
      the trip's days; the result is a custom profile. */
  function HandleCalculateWithTopUp(usage: UsageProfile, duration: int, t: TopUp): (next: UsageProfile)
    requires duration > 0
    ensures next.profileType == Custom
    ensures var d := duration as real;
      && next.dailyData * d == usage.dailyData * d + t.data
      && next.dailyVoice * d == usage.dailyVoice * d + t.voice
      && next.dailySms * d == usage.dailySms * d + t.sms
  {
    var d := duration as real;
    SpreadOverDays(usage.dailyData, t.data, d);
    SpreadOverDays(usage.dailyVoice, t.voice, d);
    SpreadOverDays(usage.dailySms, t.sms, d);
    UsageProfile(
      dailyData := usage.dailyData + t.data / d,
      dailyVoice := usage.dailyVoice + t.voice / d,
      dailySms := usage.dailySms + t.sms / d,
      profileType := Custom)
  }

  lemma SpreadOverDays(daily: real, extra: real, d: real)
    requires d > 0.0
    ensures (daily + extra / d) * d == daily * d + extra
  {
    assert (extra / d) * d == extra;
  }

  /** Over the trip the merged profile uses exactly the old usage plus the
      top-up, the "after top-up" totals the calculator displays. */
  lemma MergedTripVolume(usage: UsageProfile, duration: int, t: TopUp)
    requires duration > 0
    ensures PackageCost.TripVolume(HandleCalculateWithTopUp(usage, duration, t), duration)
         == AfterTopUpTotals(usage, duration, t)
  {
  }

  /** The totals shown under "after top-up": the trip's usage plus the top-up. */
  function AfterTopUpTotals(usage: UsageProfile, duration: int, t: TopUp): (v: PackageCost.Volume)
    ensures v.data - t.data == PackageCost.TripVolume(usage, duration).data
    ensures v.voice - t.voice == PackageCost.TripVolume(usage, duration).voice
    ensures v.sms - t.sms == PackageCost.TripVolume(usage, duration).sms
  {
    var before := PackageCost.TripVolume(usage, duration);
    PackageCost.Volume(before.data + t.data, before.voice + t.voice, before.sms + t.sms)
  }

  /** A zero top-up keeps every daily amount and only forces the custom tag. */
  lemma ZeroTopUpKeepsUsage(usage: UsageProfile, duration: int)
    requires duration > 0
    ensures HandleCalculateWithTopUp(usage, duration, NoTopUp) == usage.(profileType := Custom)
  {
  }

  /** `handleReset`: every top-up amount back to zero. */
  function HandleReset(t: TopUp): (r: TopUp)
    ensures r.data == 0.0 && r.voice == 0.0 && r.sms == 0.0
  {
    NoTopUp
  }

  /** Merging right after a reset leaves the daily amounts as they were. */
  lemma MergeAfterResetKeepsUsage(usage: UsageProfile, duration: int, t: TopUp)
    requires duration > 0
    ensures var next := HandleCalculateWithTopUp(usage, duration, HandleReset(t));
      next.dailyData == usage.dailyData && next.dailyVoice == usage.dailyVoice && next.dailySms == usage.dailySms
  {
    ZeroTopUpKeepsUsage(usage, duration);
  }
}
