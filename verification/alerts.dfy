/** Advisory alerts (`generateAlerts` in src/utils/costCalculator.ts). They
    depend only on the trip and the usage profile. */
module Alerts {
  import opened Types

  /** Trips longer than this many days get the long-trip warning. */
  const LongTripDays := 30

  /** Daily data (MB) above which the heavy-usage notice is shown. */
  const HeavyDailyDataMb: real := 1000.0

  /** Position of each topic in the source's fixed emission order. */
  function TopicRank(t: AlertTopic): nat {
    match t
    case LongTrip => 0
    case HeavyUsage => 1
    case MultiCountry => 2
  }

  /** `generateAlerts`. */
  function GenerateAlerts(trip: TravelPlan, usage: UsageProfile): (alerts: seq<Alert>)
    ensures |alerts| <= 3
    ensures Alert(Warn, LongTrip) in alerts <==> trip.duration > LongTripDays
    ensures Alert(Info, HeavyUsage) in alerts <==> usage.dailyData > HeavyDailyDataMb
    ensures Alert(Info, MultiCountry) in alerts <==> |trip.countries| > 1
    ensures forall a :: a in alerts ==> (a.severity == Warn <==> a.topic == LongTrip) && a.severity != Error
    ensures forall i, j :: 0 <= i < j < |alerts| ==> TopicRank(alerts[i].topic) < TopicRank(alerts[j].topic)
  {
    (if trip.duration > LongTripDays then [Alert(Warn, LongTrip)] else [])
    + (if usage.dailyData > HeavyDailyDataMb then [Alert(Info, HeavyUsage)] else [])
    + (if |trip.countries| > 1 then [Alert(Info, MultiCountry)] else [])
  }
}
