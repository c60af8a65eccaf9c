# Roaming cost simulator — Dafny model

This project models the cost-simulation engine of a roaming-package advisor.
Given a trip (its countries and its length in days), a daily usage profile
(data in MB, voice minutes, SMS count), a catalog of roaming bundles and a
table of per-country metered ("pay-as-you-go") rates, the engine:

- prices every bundle that covers at least one trip country. A bundle whose
  validity is shorter than the trip is bought `ceil(duration / validity)`
  times. Usage beyond the repeated quotas is charged at the mean metered rate
  of the covered countries. Trip countries outside the bundle add a surcharge
  for `ceil(duration * k / n)` days of full usage at their own rates;
- always adds the metered baseline, where every country gets
  `ceil(duration / n)` days at its own rates;
- sorts all estimates by total cost (stably), flags the cheapest, and keeps the
  first three as recommendations;
- emits up to three advisory alerts: long trip, heavy data use, several
  countries.

It also models three form transitions that produce the engine's inputs:
- the trip form: inclusive day count, country toggle, and emitting a plan only
  once it is complete;
- the usage-profile form: presets, the custom tag, and which preset is shown
  as selected;
- the top-up calculator: a total top-up spread over the trip's days, and reset.

The model is functional. Entities are immutable datatypes. Money, rates and
usage are exact `real`s, and day counts are integers. `Math.ceil(a / b)` on
integers is `CeilDiv`. The price of several bundles, `price * requiredPackages`,
is written as repeated addition (`BaseCost`) and proved equal to the product
(`BaseCostIsProduct`). `NameOf` gives the empty string for a code the trip lacks, which is what `join`
prints for the `undefined` the source's lookup gives there; uncovered codes come
from the trip, so the case does not arise.
The two catalogs are parameters. The concrete catalog
values appear only in the `Scenarios` module, where whole runs of the engine
are derived from the general lemmas.

Modules:
- `Types`: the entities.
- `Rates`: rate lookup and the averaged rate.
- `PackageCost`: one bundle's estimate.
- `PayAsYouGo`: the metered baseline.
- `Ranking`: the stable sort.
- `Alerts`: the advisory alerts.
- `Calculator`: `calculateAll`.
- `TravelPlanForm`, `UsageProfileForm`, `TopUpCalculator`: the form transitions.
- `Scenarios`: worked examples on the bundled catalog.

## Model

| member | source | states |
|---|---|---|
| Types.TripCodes | src/utils/costCalculator.ts:64 | The trip's country codes, one per trip country, in trip order. |
| Types.CeilDivIsCeiling | src/utils/costCalculator.ts:86 | `CeilDiv(a, b)` is the least `r` with `r * b >= a`, i.e. `Math.ceil(a / b)` for a non-negative numerator. |
| Rates.FindRateFirst | src/utils/costCalculator.ts:165 | The rate lookup fails exactly when no entry has the code; otherwise it yields the first entry with that code, as `Array.prototype.find` does. |
| Rates.FindRateAt | src/utils/costCalculator.ts:198 | If entry `i` is the first with the code, the lookup yields entry `i`. |
| Rates.RatesForFound | src/utils/costCalculator.ts:197-199 | Mapping codes to entries and dropping misses gives at most one entry per code. Each entry found is a catalog entry for one of the codes. Nothing is found exactly when no code has an entry. |
| Rates.AverageRateDefault | src/utils/costCalculator.ts:201-203 | When no code has a rate entry, the averaged rate is the fallback 0.20 / 3.0 / 1.0. |
| Rates.MeanTariff | src/utils/costCalculator.ts:201-209 | The mean of an empty list of found rates is the fallback rate set. |
| Rates.MeanTimesCount | src/utils/costCalculator.ts:205-209 | For a non-empty list, each component of the mean times the number of rates equals the sum of that component: it is the arithmetic mean. |
| Rates.AverageRateIsMean | src/utils/costCalculator.ts:196-210 | When at least one rate is found, each averaged price times the number of found rates is the sum of that price over all of them. The average is the mean of every found rate, not of a subset. |
| Rates.MeanTariffWithinBounds | src/utils/costCalculator.ts:205-209 | The mean lies, component by component, between any lower and any upper bound of the rates averaged. |
| Rates.AverageRateWithinBounds | src/utils/costCalculator.ts:196-210 | The overage rate lies, component by component, between the lowest and highest rate of the covered countries that have an entry. |
| Rates.AverageRateNonNegative | src/utils/costCalculator.ts:196-210 | With non-negative catalog rates the averaged rate is non-negative, the fallback included. |
| PackageCost.CoveredMembers | src/utils/costCalculator.ts:67-69 | The covered codes are exactly the trip codes the bundle offers. The uncovered codes are exactly the trip codes it does not offer. |
| PackageCost.CoveredUncoveredPartition | src/utils/costCalculator.ts:126-128 | The covered and uncovered counts add up to the number of trip countries. |
| PackageCost.CoveredEmptyIffNotCovers | src/utils/costCalculator.ts:67-73 | The covered list is empty exactly when no trip country is in the bundle, which is when the estimate is `null`. |
| PackageCost.UncoveredEmptyIffCoversAll | src/utils/costCalculator.ts:126-130 | The uncovered list is empty exactly when the bundle offers every trip country. |
| PackageCost.RequiredPackages | src/utils/costCalculator.ts:81-88 | At least one bundle is needed. When the validity spans the trip, exactly one is needed. |
| PackageCost.RequiredPackagesSpanTrip | src/utils/costCalculator.ts:84-86 | For a short validity, the repeat count is the least number of back-to-back bundles whose validities together span the trip. |
| PackageCost.BaseCostIsProduct | src/utils/costCalculator.ts:91 | The base cost of `n` bundles is the price times `n`. |
| PackageCost.SplitBase | src/utils/costCalculator.ts:99 | The breakdown sums to the base cost. It is in ratio 7 : 2 : 1 whatever the usage mix. |
| PackageCost.ExcessOver | src/utils/costCalculator.ts:102-103 | The excess over one quota is non-negative, zero exactly when usage is within the quota, and otherwise the amount by which usage exceeds it. |
| PackageCost.Overage | src/utils/costCalculator.ts:102-105 | Nothing is charged within the quota. An exceeded quota is charged the excess times the unit price. The charge is non-negative for a non-negative unit price, and positive when the quota is exceeded at a positive price. |
| PackageCost.UsageOverage | src/utils/costCalculator.ts:101-123 | Usage within all three quotas costs nothing extra. With a non-negative averaged rate the overage is non-negative. |
| PackageCost.UsageOverageIsExcessPrice | src/utils/costCalculator.ts:101-123 | The quota overage is the usage beyond each of the three quotas, priced at the averaged rate for that kind of usage. |
| PackageCost.OverageWarnings | src/utils/costCalculator.ts:101-123 | At most three quota warnings, none exactly when usage is within all quotas, all of quota kind. The data warning carries the excess MB and appears exactly when the data quota is exceeded. |
| PackageCost.OverageWarningsMatchQuotas | src/utils/costCalculator.ts:101-123 | The data, voice and SMS warnings each appear exactly when their own quota is exceeded, carry that excess, and come in the order data, voice, SMS. |
| PackageCost.CalculateUncoveredDays | src/utils/costCalculator.ts:212-217 | The days billed for uncovered countries never exceed the trip's length. |
| PackageCost.UncoveredDaysIsCeiling | src/utils/costCalculator.ts:212-217 | The billed days are `ceil(duration * k / n)` for `k` uncovered of `n` countries. |
| PackageCost.UncoveredCostAtSummedRates | src/utils/costCalculator.ts:219-236 | The surcharge equals the daily usage priced at the summed rates of the countries that have an entry, times the days. Countries without an entry contribute nothing. |
| PackageCost.UncoveredCostNonNegative | src/utils/costCalculator.ts:219-236 | Non-negative usage, rates and days give a non-negative surcharge. |
| PackageCost.UncoveredSurcharge | src/utils/costCalculator.ts:130-133 | A bundle that leaves no trip country uncovered adds no surcharge. |
| PackageCost.UncoveredSurchargeAtSummedRates | src/utils/costCalculator.ts:212-236 | With k of the n trip countries uncovered, the surcharge is a day of usage at the summed rates of the uncovered countries that have an entry, times ceil(duration · k / n) days. |
| PackageCost.UncoveredSurchargeNonNegative | src/utils/costCalculator.ts:130-133 | With non-negative usage and rates the surcharge is non-negative. |
| PackageCost.NotCoveredWarnings | src/utils/costCalculator.ts:130-139 | At most one coverage warning is added, and exactly one when some trip country lies outside the bundle. |
| PackageCost.NameOfFirst | src/utils/costCalculator.ts:135-137 | For a code that some trip country has, the name found is that of the first trip country with that code, as `find` returns it. |
| PackageCost.NamesOfFirst | src/utils/costCalculator.ts:135-137 | When every listed code belongs to a trip country, the names list has one entry per code, in order, each the name of the first trip country with that code. |
| PackageCost.UncoveredAreTripCountries | src/utils/costCalculator.ts:126-128 | Every uncovered code is the code of some trip country. |
| PackageCost.CoverageWarningContent | src/utils/costCalculator.ts:126-138 | For a bundle covering some but not all trip countries, the estimate exists and its last warning is the coverage warning. The warning names each uncovered code, in trip order, by the name of the first trip country with that code. The surcharge it reports is the one added to the overage. |
| PackageCost.CalculatePackageCost | src/utils/costCalculator.ts:62-152 | The result is `null` exactly when no trip country is covered. The estimate is identified by the bundle and unflagged. Total is base plus overage; base is price times repeat count; the breakdown is 0.7 / 0.2 / 0.1 of the base. The validity issue is flagged, with a leading warning, exactly when the validity is shorter than the trip. |
| PackageCost.PackageOverageCost | src/utils/costCalculator.ts:98-133 | An estimate's overage is the usage beyond the repeated quotas priced at the mean rate of the covered trip countries, plus the uncovered-country surcharge. |
| PackageCost.PackageOverageWithinBounds | src/utils/costCalculator.ts:101-123 | If every covered country with a rate entry lies between tariffs lo and hi, the overage lies between the excess priced at lo and at hi, each plus the surcharge. |
| PackageCost.PackageWarningsOrdered | src/utils/costCalculator.ts:84-139 | An estimate has at most one warning of each kind, in the order short validity, data, voice, SMS, uncovered countries. |
| PackageCost.PackageQuotaWarnings | src/utils/costCalculator.ts:101-123 | An estimate warns about the data, voice or SMS quota exactly when the trip's usage exceeds it, and the warning carries the excess. |
| PackageCost.PackageOverageNonNegative | src/utils/costCalculator.ts:98-146 | With non-negative usage and rates the overage is non-negative, so a bundle never costs less than its base price. |
| PackageCost.NoOverageWhenCoveredWithinQuota | src/utils/costCalculator.ts:94-146 | A bundle covering every trip country, with trip usage within its repeated quotas (data GB × 1024), costs exactly its base price. It warns at most about a short validity. |
| PackageCost.NotCoveredWarningIffPartialCoverage | src/utils/costCalculator.ts:125-139 | A coverage warning is present exactly when some trip country is uncovered, and it is then the last warning. |
| PayAsYouGo.CalculateCountryDays | src/utils/costCalculator.ts:238-241 | A country's share of the trip is never more than the trip. |
| PayAsYouGo.CountryDaysIsCeiling | src/utils/costCalculator.ts:238-241 | Each country gets `ceil(duration / n)` days, so together the countries' days cover the trip. |
| PayAsYouGo.MeteredTotalIsBreakdownTotal | src/utils/costCalculator.ts:173-180 | The separately accumulated total equals the sum of the accumulated data, voice and SMS breakdown. |
| PayAsYouGo.MeteredTotalIsCountryCost | src/utils/costCalculator.ts:164-181 | The metered loop total equals the uncovered-country formula applied to every trip country. Pricing usage × days × rate equals pricing daily usage × rate, times days. |
| PayAsYouGo.CalculatePayAsYouGoCost | src/utils/costCalculator.ts:154-193 | The baseline has no bundle id, no validity issue and no flag. Overage is 0 and base equals total. The breakdown sums to the total. There is exactly the one billing-risk warning. An empty trip costs 0. |
| PayAsYouGo.BaselineAtSummedRates | src/utils/costCalculator.ts:164-181 | The baseline equals the daily usage priced at the summed rates of the trip countries that have an entry, times `ceil(duration / n)`. Countries without an entry contribute nothing. |
| PayAsYouGo.BaselineNonNegative | src/utils/costCalculator.ts:154-193 | With non-negative usage and rates the baseline is non-negative. |
| Ranking.SortedByCostIsOrdered | src/utils/costCalculator.ts:45 | Adjacent order by cost is equivalent to every estimate costing at most every later one. |
| Ranking.Insert | src/utils/costCalculator.ts:45 | Inserting into a sorted list keeps it sorted and adds one element, which is either the new one or the old head at the front. |
| Ranking.InsertPermutes | src/utils/costCalculator.ts:45 | Inserting adds exactly the new estimate, as a multiset. |
| Ranking.InsertWithCost | src/utils/costCalculator.ts:45 | The inserted estimate goes in front of the estimates of its own cost. Every other cost class is unchanged. |
| Ranking.SortByCost | src/utils/costCalculator.ts:45 | The sorted list is ordered by total cost and has the same length. |
| Ranking.SortByCostPermutes | src/utils/costCalculator.ts:45 | Sorting is a permutation: the same estimates, each as often. |
| Ranking.SortByCostStable | src/utils/costCalculator.ts:45 | Sorting is stable: the estimates of each cost keep their original relative order. |
| Ranking.SortedHeadIsCheapest | src/utils/costCalculator.ts:45-47 | The first sorted estimate costs at most as much as any input estimate. |
| Ranking.SortSortedIsIdentity | src/utils/costCalculator.ts:45 | Sorting a sorted list returns it unchanged. |
| Calculator.CoveringPackages | src/utils/costCalculator.ts:30-35 | The bundles that yield an estimate are exactly the catalog bundles covering some trip country. |
| Calculator.PackageEstimates | src/utils/costCalculator.ts:30-35 | The catalog loop yields at most one estimate per bundle. |
| Calculator.PackageEstimatesUnflagged | src/utils/costCalculator.ts:30-35 | Every bundle estimate names its bundle, and none is flagged before ranking. |
| Calculator.PackageEstimatesOfCoveringPackages | src/utils/costCalculator.ts:30-35 | The loop yields the estimates of the covering bundles in catalog order; non-covering bundles produce nothing. |
| Calculator.EstimatesOfAt | src/utils/costCalculator.ts:31-33 | The `i`-th estimate of the covering bundles is the `i`-th covering bundle's estimate. |
| Calculator.Candidates | src/utils/costCalculator.ts:38-39 | The metered baseline is always appended last, so there is always at least one candidate. |
| Calculator.CandidatesUnflagged | src/utils/costCalculator.ts:30-39 | No candidate is flagged before ranking. |
| Calculator.FlagBest | src/utils/costCalculator.ts:49-52 | Only the first estimate changes; it gets the recommendation flag. Ignoring flags, the list is unchanged. |
| Calculator.Rank | src/utils/costCalculator.ts:45-52 | The ranked list is sorted by cost and, ignoring flags, is exactly the stable sort of the candidates. Its first element is flagged and no other is. |
| Calculator.SortedUnflagged | src/utils/costCalculator.ts:45 | Sorting unflagged candidates leaves them unflagged. |
| Calculator.CalculateAll | src/utils/costCalculator.ts:25-60 | The calculations are non-empty and sorted by cost. Ignoring flags, they are the stable sort of the candidates (covering-bundle estimates plus baseline). The best option is the first and is flagged, and no other is flagged. The recommendations are the first min(3, n). The alerts are the generated alerts. |
| Calculator.CalculateAllPermutes | src/utils/costCalculator.ts:25-52 | Ignoring flags, the calculations are a permutation of the candidates: the same estimates, each as often. |
| Calculator.CalculateAllStable | src/utils/costCalculator.ts:45 | Among equal totals the calculations keep catalog order, with the baseline after every bundle of its cost. |
| Calculator.BestOptionIsCheapest | src/utils/costCalculator.ts:45-47 | The best option costs no more than any candidate, including the baseline and every covering bundle. |
| Calculator.AlertsIgnoreCatalogs | src/utils/costCalculator.ts:42 | The alerts do not depend on the bundle or rate catalogs. |
| Alerts.GenerateAlerts | src/utils/costCalculator.ts:243-273 | There are at most three alerts. The long-trip warning appears iff duration > 30, the heavy-use info iff daily data > 1000 MB, and the multi-country info iff there is more than one country. Only the long-trip alert is a warning. They come in that fixed order. |
| TravelPlanForm.CalculateDuration | src/components/TravelPlanForm.tsx:21-28 | 0 when a date is missing. Otherwise at least 1, and the least `d` with `(d - 1)` days spanning the gap between the dates. |
| TravelPlanForm.DurationSymmetric | src/components/TravelPlanForm.tsx:25-27 | Swapping start and end does not change the day count. |
| TravelPlanForm.DurationSameDay | src/components/TravelPlanForm.tsx:25-27 | Start equal to end gives one day. |
| TravelPlanForm.DurationOfDayNumbers | src/components/TravelPlanForm.tsx:23-27 | For dates at the start of days `a` and `b` the count is `|b - a| + 1`: both ends included. |
| TravelPlanForm.WithoutCode | src/components/TravelPlanForm.tsx:35 | Filtering never lengthens the selection. |
| TravelPlanForm.WithoutCodeMembers | src/components/TravelPlanForm.tsx:35 | The filter keeps exactly the selected countries with a different code. |
| TravelPlanForm.ToggleCountry | src/components/TravelPlanForm.tsx:30-38 | After a toggle the code is selected iff it was not before. A present code is removed (every entry with it) and nothing else. An absent country is appended at the end with the rest unchanged. |
| TravelPlanForm.WithoutCodeKeepsUniqueCodes | src/components/TravelPlanForm.tsx:35 | Filtering keeps the selected codes unique. |
| TravelPlanForm.ToggleKeepsUniqueCodes | src/components/TravelPlanForm.tsx:31-38 | Toggling keeps the selected codes unique. |
| TravelPlanForm.WithoutAbsentCode | src/components/TravelPlanForm.tsx:35 | Filtering out a code nobody has leaves the selection as it is. |
| TravelPlanForm.WithoutCodeAppend | src/components/TravelPlanForm.tsx:35-37 | Filtering an extended list filters the prefix and the appended country separately. |
| TravelPlanForm.ToggleTwiceRestores | src/components/TravelPlanForm.tsx:35-37 | Adding an absent country and toggling it again restores the selection exactly. |
| TravelPlanForm.UpdateTravelPlan | src/components/TravelPlanForm.tsx:50-60 | A plan is emitted iff there is at least one country and both dates are present. It carries those countries and dates and the computed duration, which is at least 1. |
| UsageProfileForm.Preset | src/data/mockData.ts:132-151 | The preset for a tag carries that tag. |
| UsageProfileForm.HandleProfileTypeChange | src/components/UsageProfileForm.tsx:14-24 | The new tag is the chosen one. Custom keeps all three amounts; a preset replaces the whole profile with the preset, which is then shown as selected. |
| UsageProfileForm.HandleCustomChange | src/components/UsageProfileForm.tsx:26-32 | The edited field takes the new value, the other two are unchanged, and the tag becomes custom. |
| UsageProfileForm.SelectedIffPreset | src/components/UsageProfileForm.tsx:58-61 | A preset button is highlighted exactly when the profile equals that preset. |
| UsageProfileForm.ProfileTypeChangeIdempotent | src/components/UsageProfileForm.tsx:14-24 | Choosing the same entry twice equals choosing it once. |
| UsageProfileForm.CustomChangeDeselectsPresets | src/components/UsageProfileForm.tsx:58-61 | After any field edit no preset is shown as selected. |
| UsageProfileForm.CustomChangeToSameValue | src/components/UsageProfileForm.tsx:26-32 | Setting a field to its current value is the same as choosing custom. |
| TopUpCalculator.HandleCalculateWithTopUp | src/components/TopUpCalculator.tsx:20-32 | The tag becomes custom. Over the trip's days, each merged amount equals the old amount plus the top-up. |
| TopUpCalculator.AfterTopUpTotals | src/components/TopUpCalculator.tsx:148-150 | The displayed "after top-up" totals exceed the trip totals by exactly the top-up. |
| TopUpCalculator.MergedTripVolume | src/components/TopUpCalculator.tsx:148-150 | The merged profile's trip usage equals the displayed "after top-up" totals. |
| TopUpCalculator.ZeroTopUpKeepsUsage | src/components/TopUpCalculator.tsx:24-27 | A zero top-up changes only the tag. |
| TopUpCalculator.HandleReset | src/components/TopUpCalculator.tsx:34-38 | Reset sets all three top-up amounts to zero. |
| TopUpCalculator.MergeAfterResetKeepsUsage | src/components/TopUpCalculator.tsx:34-38 | Merging right after a reset leaves the daily amounts as they were. |
| Scenarios.GermanyWeekOnEuWeekly | src/data/mockData.ts:43-56 | A light 7-day trip to Germany on the weekly European bundle costs exactly 149, with no warning and no validity issue. |
| Scenarios.GermanyWeekOnThreeDayBundle | src/utils/costCalculator.ts:84-91 | With a 3-day validity the same trip needs 3 bundles: base and total 447, and one validity warning. |
| Scenarios.GermanyUsaCoverage | src/utils/costCalculator.ts:67-69 | Of Germany and the USA, the European bundles cover Germany only. |
| Scenarios.UsaRateFound | src/data/mockData.ts:121 | The US lookup finds the sixth rate entry. |
| Scenarios.GermanyUsaSurcharge | src/utils/costCalculator.ts:130-133 | With one of two countries uncovered, 4 days are billed at US rates: a surcharge of 390. |
| Scenarios.GermanyUsaWeekOnEuWeekly | src/utils/costCalculator.ts:125-139 | The weekly European bundle on Germany + USA costs 149 + 390 = 539, and the one warning names "Amerika". |
| Scenarios.UsaWeekCoverage | src/data/mockData.ts:72-76 | The weekly US bundle covers a US trip entirely, and the mean rate of the covered country is the US rate 0.25 / 4.0 / 1.5. |
| Scenarios.UsaWeekHeavyOnUsaWeekly | src/utils/costCalculator.ts:101-123 | A heavy week in the US on the weekly US bundle overruns all three quotas: 3928 MB, 220 minutes and 75 SMS at US rates give an overage of 1974.5 and a total of 2173.5, with one warning per quota in order. |
| Scenarios.GermanyWeekBaseline | src/utils/costCalculator.ts:154-193 | The metered baseline for the light week in Germany is 420. |
| Scenarios.GermanyWeekOnCoveringBundle | src/data/mockData.ts:42-113 | Each bundle covering Germany holds a light week within its quotas and costs its price. |
| Scenarios.GermanyWeekCoverage | src/data/mockData.ts:42-113 | The two European bundles and the global bundle cover Germany; the US and Middle-East bundles do not. |
| Scenarios.GermanyWeekEstimates | src/utils/costCalculator.ts:30-35 | The catalog loop yields the estimates of the two European bundles and the global bundle, in catalog order. |
| Scenarios.GermanyWeekLaterEstimates | src/utils/costCalculator.ts:30-35 | The last four catalog bundles yield the monthly European and global estimates. |
| Scenarios.GermanyWeekLastEstimates | src/utils/costCalculator.ts:30-35 | The last three catalog bundles yield only the global estimate. |
| Scenarios.GermanyWeekCandidates | src/utils/costCalculator.ts:30-39 | The candidates cost 149, 399, 599 and then the baseline 420, all unflagged. |
| Scenarios.GermanyWeekNoAlerts | src/utils/costCalculator.ts:243-273 | A light week in one country raises no alert. |
| Scenarios.GermanyWeekRanking | src/utils/costCalculator.ts:25-60 | End to end, for the light week in Germany on the whole catalog: four calculations, in the order weekly European 149 (best), monthly European 399, metered 420, global 599. There are three recommendations and no alert. |

## Left out

- Display text: warning and alert wording, `toFixed` formatting, titles, messages and action labels. Warnings are a datatype carrying the figures they report. Alerts are a severity and a topic.
- Floating point: every amount is an exact `real`, so IEEE-754 rounding of JS numbers is not modelled.
- PackageCost.CalculateUncoveredDays: computes the exact `ceil(duration * k / n)`. The source multiplies by the floating ratio `k / n`, which can round a product just above an integer and bill one more day.
- Division by zero: bundles need `validity >= 1`, where the source would divide by 0 and get Infinity. Trips need `duration >= 0`.
- TopUpCalculator.HandleCalculateWithTopUp: requires `duration > 0`. With a zero duration the source divides by 0 and gets Infinity or NaN.
- Dates: date strings are the millisecond instants `Date.getTime()` gives for them, and an empty date field is `None`. Parsing, time zones and invalid strings (which give NaN) are not modelled.
- Catalogs: the bundle and rate catalogs are parameters rather than module constants. The bundled values are used only in `Scenarios`.
- Unused fields: bundle description and features, the country flag, the user list of mockData.ts, and the `getCountryDays` parameter that the source ignores.
- React: component state, hooks, rendering and `handleDateChange` (which only stores the dates and calls `updateTravelPlan`) are not modelled.
- Shared objects: `bestOption.isRecommended = true` mutates one object that `calculations`, `recommendations` and `bestOption` all share. The model flags element 0 of the sorted sequence and derives the other two views from it, which gives the same observable result.
- Empty results: the calculations are never empty and the best option always exists, because the metered baseline is always appended. Code paths for an empty result with no best option therefore do not arise and are not modelled.
- Comparator edge cases: NaN totals, and the sort comparator's behaviour on them, are not modelled.
