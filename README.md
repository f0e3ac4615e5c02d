# smart-run scheduling core in Dafny

smart-run tells a household when to run its appliances so that they use the
cheapest half-hours of a time-of-use electricity tariff. This project models
the decision-making core of the Go implementation and proves properties of it:

- **Constraint filter** (`internal/engine/engine.go`): a price slot is kept
  when it passes six checks. These are the price cap, the allowed windows,
  the blocked windows, quiet hours for noisy appliances, start-by and
  finish-by. Time windows are "HH:MM" ranges on chosen ISO weekdays. A range
  whose end comes before its start runs on past midnight.
- **Cheapest-window search** (`BestWindows`): every contiguous run of
  ⌈runMinutes / 30⌉ feasible slots is costed and given a price band (the
  "reason"). The runs are sorted by cost and the cheapest `topN` are
  returned.
- **Multi-day recommendations** (`internal/engine/smart.go`):
  - A standalone appliance gets today's cheapest window.
  - A washer paired with a dryer gets options for each day it may wait.
    A day that has prices and a feasible washer window gets a tumble-dry
    option. If that day is also sunny and the dryer is weather-dependent,
    it gets a line-dry option too. Each option
    records its savings over the first one, and the cheapest option is
    marked best.
- **Practical adapter** (`internal/engine/practical.go`): manual appliances
  may only start while someone is at home, plus a frequency gate.
- **Helpers from the data clients**:
  - the bubble sort that puts tariff slots in time order;
  - the nearest-reading weather lookup;
  - the loop that turns the daily forecast arrays into day records with a
    "good drying" flag.

Time is a whole number of minutes since 1970-01-01 00:00 UTC. The day
number is `t / 1440` and the time of day is `t % 1440`. Maps keyed by
"2006-01-02" dates are keyed by day number, and the current time `now` is a
parameter. Prices, energy and costs are `real`. Go's nil-able fields
are `Option`s, and Go's error returns are `Result`s.

Code that loops and appends in Go is an imperative method. Each such method
is proved equal to a specification function, and the properties are lemmas
about those functions. `ApplyPracticalConstraints` mutates a `Constraints`
by reference, so it is a method on a class holding those fields.
`sortSlotsByTime` sorts a slice in place, so it works on an `array`.

## Model

| member | source | states |
|---|---|---|
| `Types.TimeOfDay` | internal/engine/engine.go:166-168 | A time is its day's midnight plus a minute of the day in 0..1439, the date and clock fields the window check rebuilds. |
| `Types.IsoWeekday` | internal/engine/engine.go:141-144 | The weekday is in 1..7, Sunday is 7 and every other day keeps Go's number. |
| `Sorting.SortBy` | internal/engine/engine.go:72-75 | The sorted list is in ascending key order and is a permutation of the input. |
| `Sorting.PrefixDominates` | internal/engine/engine.go:77-80 | In a sorted list, everything in a prefix has a key no larger than anything left out of it. |
| `Engine.ParseTimeOfDay` | internal/engine/engine.go:178-181 | A parsed "H:MM"/"HH:MM" clock time is a minute of the day, 0..1439, and a string of any other length is refused. |
| `Engine.OneDigitHour` | internal/engine/engine.go:178-181 | "H:MM" reads as the same time as "0H:MM". |
| `Engine.ClockExamples` | internal/engine/engine.go:178-181 | "7:00" is minute 420 and "23:30" is minute 1410. "24:00" and "7:60" are refused. |
| `Engine.ParseFormatClock` | internal/engine/engine.go:178-181 | Every minute of the day, written as "HH:MM", parses back to itself. |
| `Engine.FormatClockParsed` | internal/engine/engine.go:178-181 | Every five-character string that parses is the canonical "HH:MM" spelling of its value, so parsing is one-to-one on those strings. |
| `Engine.MatchesTimeWindowIff` | internal/engine/engine.go:137-176 | A time matches a window exactly when its ISO weekday is listed (or none are), both bounds parse, and its time of day is in [start, end). When end < start the condition is just start <= time of day. |
| `Engine.EmptyWindowNeverMatches` | internal/engine/engine.go:170-175 | A window whose start equals its end matches no time at all. |
| `Engine.OvernightWindowStopsAtMidnight` | internal/engine/engine.go:166-175 | An overnight window never matches the early-morning hours before its start, so its after-midnight part is never used. |
| `Engine.FeasibleSlotsSound` | internal/engine/engine.go:86-124 | Every slot the filter keeps is an input slot that passes all six checks. |
| `Engine.FeasibleSlotsComplete` | internal/engine/engine.go:86-124 | Every input slot that passes all six checks is kept. |
| `Engine.FeasibleSlotsIsSubsequence` | internal/engine/engine.go:86-124 | The kept slots appear in their input order. |
| `Engine.FeasibleSlotsKeepsAll` | internal/engine/engine.go:86-124 | When every slot passes, the filter returns the input unchanged. |
| `Engine.FeasibleSlotsIdempotent` | internal/engine/engine.go:86-124 | Filtering twice with the same constraints equals filtering once. |
| `Engine.NoConstraintsKeepAll` | internal/engine/engine.go:86-124 | The zero-value constraints keep every slot. |
| `Engine.PriceCapExample` | internal/engine/engine_test.go:154-190 | Of slots priced 10p, 25p and 15p, a 20p cap keeps exactly the 10p and 15p slots, and no constraints keep all three. |
| `Engine.FilterByConstraints` | internal/engine/engine.go:86-124 | The loop returns exactly the filtered list. |
| `Engine.ContiguousSpan` | internal/engine/engine.go:183-191 | A contiguous run of half-hour slots spans 30 minutes per slot. |
| `Engine.RequiredSlots` | internal/engine/engine.go:29-30 | The slot count is ⌈runMinutes / 30⌉: at least 1, and the smallest n with 30·n ≥ runMinutes. |
| `Engine.EffectiveTopN` | internal/engine/engine.go:25-27 | A positive topN is kept, and a zero or negative one becomes 3. |
| `Engine.WindowCostIsShareOfSum` | internal/engine/engine.go:49-52 | A run's pence equal the per-slot energy share times the sum of its prices. |
| `Engine.CountBelowPermutation` | internal/engine/engine.go:196-200 | Sorting the prices does not change how many lie below the average. |
| `Engine.FirstAtLeastCounts` | internal/engine/engine.go:204-209 | In sorted prices, the index of the first price at least the average equals the number of prices below it. |
| `Engine.PercentileBounds` | internal/engine/engine.go:202-209 | The percentile is in [0, 1). |
| `Engine.PercentileFromSorted` | internal/engine/engine.go:196-209 | For any value v, the percentile is i / n for the first sorted index i whose price is at least v. It is 0 when every price is below v. |
| `Engine.PenceAboveEveryPriceIsExcellent` | internal/engine/engine.go:202-212 | A run whose pence per slot (totalPence / len) exceed every price of the day is put in the "excellent" band with percentile 0. |
| `Engine.GenerateReason` | internal/engine/engine.go:194-220 | The sorting and scanning loop yields the band of totalPence / len among all prices. |
| `Engine.ReasonRanksShareTimesMean` | internal/engine/engine.go:49-63 | A recommendation's reason is the band, among all prices, of its pence per slot, which is the per-slot energy times the run's mean price, not the mean price itself. |
| `Engine.EnergyScalesBand` | internal/engine/engine.go:194-220 | With slots at 10p to 50p and 5 kWh per slot, the cheapest half-hour run is banded "higher" at percentile 0.8, because its 50p per slot is ranked against prices per kWh. |
| `Engine.CandidatesSound` | internal/engine/engine.go:38-66 | Every candidate is the costed recommendation of a contiguous run of n consecutive filtered slots. |
| `Engine.CandidatesComplete` | internal/engine/engine.go:38-66 | Every contiguous run of n consecutive filtered slots scanned so far yields a candidate. |
| `Engine.RunPence` | internal/engine/engine.go:49-52 | The inner loop's total is the run's cost in pence. |
| `Engine.CollectCandidates` | internal/engine/engine.go:38-66 | The scan over start indices builds exactly the candidate list. |
| `Engine.BestWindows` | internal/engine/engine.go:18-83 | The method returns the search result. It gives an invalid-input error exactly when there are no slots or runMinutes <= 0. |
| `Engine.TopWindowsNoFeasible` | internal/engine/engine.go:34-36 | With valid input, the search fails with "no feasible slots" exactly when no contiguous run of the required length exists among the filtered slots. |
| `Engine.AllCandidatesSound` | internal/engine/engine.go:38-66 | Every candidate of the search is the recommendation of a contiguous run of the required length of filtered slots. |
| `Engine.AllCandidatesComplete` | internal/engine/engine.go:38-66 | Every contiguous run of the required length of filtered slots is a candidate. |
| `Engine.TopWindowsRanked` | internal/engine/engine.go:72-82 | A success returns min(topN, #candidates) ≥ 1 candidates in ascending score. No candidate left out scores lower than one returned. |
| `Engine.ScorePrefix` | internal/engine/engine.go:72-80 | The first m candidates in score order are ascending and drawn from the candidates. |
| `Engine.ScorePrefixLeast` | internal/engine/engine.go:72-80 | No candidate outside the first m in score order scores lower than one inside. |
| `Engine.TopWindowsAreRuns` | internal/engine/engine.go:38-80 | Every returned recommendation comes from a contiguous run of the required number of filtered slots. |
| `Engine.MakeRecommendationFacts` | internal/engine/engine.go:53-64 | The cost in pounds is the score in pence / 100, and the score is share × price sum. Start and end are the run's first start and last end. A contiguous half-hour run lasts 30 minutes per slot. |
| `Engine.RunRecommendationFacts` | internal/engine/engine.go:18-83 | A returned window is a contiguous run of ⌈runMinutes/30⌉ input slots that all pass the constraints, costed as share × price sum. With half-hour slots it lasts at least runMinutes. |
| `Engine.RunOfFiltered` | internal/engine/engine.go:38-66 | The same facts for a window built from any list of feasible input slots. |
| `Engine.TopWindowsOptimal` | internal/engine/engine.go:38-80 | The first returned window costs no more than any contiguous run of the required length of filtered slots. |
| `Engine.ScoreFirstLeast` | internal/engine/engine.go:72-75 | The first candidate in score order scores no higher than any candidate. |
| `Practical.PracticalConstraints` | internal/engine/practical.go:5-23 | Only Allowed can change, and only for a manual appliance. A manual appliance gets the household's hours when there are any, and always some allowed window. |
| `Practical.ConstraintsVar.constructor` | internal/engine/practical.go:5 | The pointed-to record holds the given constraints. |
| `Practical.ApplyPracticalConstraints` | internal/engine/practical.go:5-23 | The constraints after the in-place update are the adapted constraints of the old ones, and only Allowed is written. |
| `Practical.PracticalIdempotent` | internal/engine/practical.go:5-23 | Applying the adapter twice equals applying it once. |
| `Practical.DefaultAvailabilityMatches` | internal/engine/practical.go:12-17 | The default window admits start times from 07:00 up to but not including 23:30, on every day. |
| `Practical.ManualDefaultFilter` | internal/engine/practical.go:12-17 | With no household hours, a manual appliance's slot is kept exactly when it passes the other checks and starts in 07:00-23:30, whatever Allowed held before. |
| `Practical.ShouldShowRecommendation` | internal/engine/practical.go:27-49 | The result is shown exactly for daily, 3x-weekly and weekly appliances, never for on-demand ones or unknown values. |
| `Prices.SortSlotsByTime` | internal/prices/octopus.go:118-127 | The array ends in ascending start order and is a permutation of the input. Slots with equal starts keep their order (stable), and sorted input is left unchanged. |
| `Prices.BubblePass` | internal/prices/octopus.go:121-125 | One inner pass grows the sorted, dominating tail by one slot and keeps every slot and every equal-start run. |
| `Prices.Swap` | internal/prices/octopus.go:122-124 | Exchanging two neighbours with different starts keeps the slots and every equal-start run. |
| `Prices.SwapKeepsRuns` | internal/prices/octopus.go:122-124 | Swapping neighbours whose starts differ keeps the order of slots with equal starts. |
| `Prices.SortedRunsUnique` | internal/prices/octopus.go:118-127 | Two start-ordered arrangements with the same equal-start runs are the same sequence. |
| `Prices.PassStep` | internal/prices/octopus.go:121-125 | The compare-and-swap step keeps the pass invariant. |
| `Prices.PassDone` | internal/prices/octopus.go:120-126 | At the end of a pass the sorted tail has grown by one. |
| `OpenMeteo.AbsDuration` | internal/weather/openmeteo.go:123-128 | The result is non-negative and equals d or -d. |
| `OpenMeteo.Distance` | internal/weather/openmeteo.go:110-113 | A reading's distance from t is non-negative and is zero exactly when it was taken at t. |
| `OpenMeteo.GetWeatherForTime` | internal/weather/openmeteo.go:103-121 | The result is nothing exactly for no readings. Otherwise it is the index of the reading nearest t, the first among equally near ones. |
| `OpenMeteo.ClosestUnique` | internal/weather/openmeteo.go:108-118 | At most one index is the first-nearest reading. |
| `OpenMeteo.ExactReadingIsClosest` | internal/weather/openmeteo.go:103-121 | The first reading taken exactly at t is the one returned. |
| `Forecast.DaysIn` | internal/weather/forecast.go:66 | Every month has 28 to 31 days. |
| `Forecast.NextDateIsNextDay` | internal/weather/forecast.go:66 | Consecutive dates of a month are consecutive day numbers. |
| `Forecast.Midnight` | internal/weather/forecast.go:66 | A parsed date is midnight UTC of its own day number. |
| `Forecast.ParseYmd` | internal/weather/forecast.go:66 | A parsed "YYYY-MM-DD" is a valid calendar date with a four-digit year. |
| `Forecast.ParseDate` | internal/weather/forecast.go:66-69 | A date string parses exactly when its fields do, to midnight of that date. |
| `Forecast.ParseFormatDate` | internal/weather/forecast.go:66 | Every valid date, written as "YYYY-MM-DD", parses back to itself. |
| `Forecast.FormatParsedDate` | internal/weather/forecast.go:66 | Every string that parses is the canonical spelling of its date. |
| `Forecast.DateExamples` | internal/weather/forecast.go:66 | "2024-12-01" is day 20058. 29 February parses in 2024 but not in 2023. Month 13 and a one-digit month are refused. |
| `Forecast.DayRecord` | internal/weather/forecast.go:71-91 | A day's record has the parsed date and the seconds of sunshine as hours. Missing sunshine or rain values are 0, and IsSunny holds exactly for more than 3 h sun, under 30% rain and over 12 °C. |
| `Forecast.ParsedEntries` | internal/weather/forecast.go:64-69 | The indices kept are increasing, all have parseable dates, and include every such index. |
| `Forecast.ForecastsAreRecords` | internal/weather/forecast.go:64-92 | The loop's output holds one record per parseable date, in input order, and nothing else. |
| `Forecast.ForecastsDatesIncrease` | internal/weather/forecast.go:64-92 | Dates that increase in the input give records with increasing dates. |
| `Forecast.ForecastsAllParsed` | internal/weather/forecast.go:64-92 | When every date parses, record i is built from entry i. |
| `Forecast.BuildForecasts` | internal/weather/forecast.go:64-92 | The loop builds exactly the forecast list. |
| `Smart.CoveredSlotsSound` | internal/engine/smart.go:198-203 | Every counted slot is a price slot starting in [start, end). |
| `Smart.EvenSplitIsMeanPrice` | internal/engine/smart.go:209-214 | Splitting the energy evenly over the covered slots costs the energy times their mean price. |
| `Smart.EstimatedCostNonNegative` | internal/engine/smart.go:194-218 | With non-negative prices and energy, the dryer estimate is never negative. |
| `Smart.EstimatedCostFlatRate` | internal/engine/smart.go:194-218 | At a flat rate the estimate is kWh × rate / 100 pounds, whatever the number of covered slots. |
| `Smart.MeanOfFlat` | internal/engine/smart.go:209-214 | The mean of a flat-rate set of slots is the rate. |
| `Smart.EstimateCost` | internal/engine/smart.go:194-218 | The two loops give 0 when no slot is covered, and otherwise kWh × the mean covered price / 100. |
| `Smart.CountCovered` | internal/engine/smart.go:198-203 | The counting loop counts the covered slots. |
| `Smart.CoveredPence` | internal/engine/smart.go:209-215 | The second loop totals the covered slots' pence at the even share. |
| `Smart.DayName` | internal/engine/smart.go:183-192 | Offset 0 is "Today" and 1 is "Tomorrow". Any other offset gives an English weekday name. |
| `Smart.DayNameWeekly` | internal/engine/smart.go:189-190 | Beyond tomorrow, the day name repeats every seven days. |
| `Smart.WeekLater` | internal/engine/smart.go:190 | A week later falls on the same weekday. |
| `Smart.DaysToCheck` | internal/engine/smart.go:79-85 | At most 3 days are checked. At least one is checked exactly when CanWaitDays >= 0. A CanWaitDays of 0 checks exactly today, 1..3 is taken as is, and above 3 gives exactly 3. |
| `Smart.BestWindowIsCheapest` | internal/engine/smart.go:97-103 | A day has a washer window exactly when the search succeeds. That window costs no more than any contiguous run of the washer's length of feasible slots that day. |
| `Smart.BestWindowIsRun` | internal/engine/smart.go:97-103 | A day's best window is the costed recommendation of a contiguous run of the required number of slots that pass the constraints. |
| `Smart.WasherSlotsAt` | internal/engine/smart.go:89-101 | The washer window of day offset d is the best window of the prices on now's day + d, or none. |
| `Smart.DayOptions` | internal/engine/smart.go:109-161 | A day contributes at most two options. |
| `Smart.WithSavings` | internal/engine/smart.go:130-132 | Every option after the first records the first option's total minus its own total. Nothing else about the options changes. |
| `Smart.WithSavingsAppend` | internal/engine/smart.go:130-138 | Appending an option appends it with its savings over the first option, when there is one. |
| `Smart.CheapestIndex` | internal/engine/smart.go:168-174 | The index is of a cheapest option, and the first among equally cheap ones. |
| `Smart.RawOptionsCount` | internal/engine/smart.go:88-162 | k days give at most 2k options. |
| `Smart.RawOptionsOfDays` | internal/engine/smart.go:106-161 | Every option is one of a checked day's options, with that day's washer window, date, day name and weather, and zero savings. A tumble-dry option runs the dryer straight after the washer. Its dryer cost is the estimate over that day's prices, and its total is both costs. A line-dry option is only on a sunny day with a weather-dependent dryer and costs the washer alone. |
| `Smart.RawOptionsComplete` | internal/engine/smart.go:106-161 | Every checked day with a washer window contributes its tumble-dry option when there is a dryer. On a sunny day with a weather-dependent dryer it also contributes its line-dry option. |
| `Smart.CoupledFromComplete` | internal/engine/smart.go:88-180 | With a dryer, the result succeeds whenever some checked day has a washer window. Each such day's tumble-dry option, and on a line-drying day its line-dry option, is among the options, up to its savings. |
| `Smart.CoupledResultCoversDay` | internal/engine/smart.go:88-180 | With a dryer, a day within the waiting range on which the washer search succeeds shows up in the result with its options. |
| `Smart.TumbleOptionIs` | internal/engine/smart.go:110-139 | The tumble-dry option of a day has the shape, costs, date, name and weather described above. |
| `Smart.LineDryOptionIs` | internal/engine/smart.go:141-161 | The line-dry option of a line-drying day has the shape, cost, date, name and weather described above. |
| `Smart.RawOptionsOrder` | internal/engine/smart.go:141-161 | A line-dry option directly follows the same day's tumble-dry option. |
| `Smart.DayOptionShape` | internal/engine/smart.go:109-161 | A day's options are a tumble-dry option then a line-dry option. |
| `Smart.RawOptionsEmpty` | internal/engine/smart.go:110-166 | There are no options exactly when there is no dryer or no checked day has a washer window. |
| `Smart.LineDryNoDearer` | internal/engine/smart.go:110-161 | With non-negative prices and energy, a day's line-dry option never costs more than its tumble-dry option. |
| `Smart.CoupledFromFacts` | internal/engine/smart.go:164-180 | A success names the washer and has between 1 and 2 × (days checked) options. It marks the first cheapest option as best. The first option keeps zero savings, and every later option records its savings over the first. |
| `Smart.GenerateCoupledRecommendation` | internal/engine/smart.go:68-181 | The day loop and the scan for the best index return the coupled result. |
| `Smart.FindWasherSlot` | internal/engine/smart.go:89-103 | The price lookup and search of one day give that day's washer window. |
| `Smart.AddDayOptions` | internal/engine/smart.go:106-161 | One loop iteration appends that day's options, with savings. |
| `Smart.AddTumbleOption` | internal/engine/smart.go:109-139 | The tumble-dry step appends the tumble-dry option when there is a dryer, and nothing otherwise. |
| `Smart.MakeTumbleOption` | internal/engine/smart.go:110-128 | The tumble-dry option built in place is the specified one. |
| `Smart.AddLineDryOption` | internal/engine/smart.go:141-161 | The line-dry step appends a line-dry option exactly on a sunny day with a weather-dependent dryer. |
| `Smart.AppendOption` | internal/engine/smart.go:130-138 | Appending with the savings adjustment extends the options-with-savings list by one. |
| `Smart.CheapestOption` | internal/engine/smart.go:168-174 | The scan returns the first cheapest index. |
| `Smart.StandaloneResult` | internal/engine/smart.go:32-66 | A failure is "no feasible slots". A success has exactly one option, marked best. |
| `Smart.StandaloneSucceedsIff` | internal/engine/smart.go:42-59 | The standalone search fails exactly when today has no price entry or the window search over today's prices fails. |
| `Smart.StandaloneWindowIsRun` | internal/engine/smart.go:42-55 | The option's window is the costed recommendation of a contiguous run of the required number of today's slots that pass the constraints. |
| `Smart.StandaloneIsCheapest` | internal/engine/smart.go:42-55 | The single option is "Today" at today's best window, costing that window alone. No contiguous run of the required length today is cheaper. |
| `Smart.GenerateStandaloneRecommendation` | internal/engine/smart.go:32-66 | The method returns the standalone result. |
| `Smart.SmartResult` | internal/engine/smart.go:9-30 | The dispatch fails with "unsupported" exactly when the appliance is neither standalone nor coupled with a partner given. Otherwise it returns the standalone or the coupled result. |
| `Smart.GenerateSmartRecommendations` | internal/engine/smart.go:9-30 | The method returns the dispatch result. |

## Left out

- I/O is not modelled: HTTP clients, JSON decoding, SQLite, the CLI and the UI server. The forecast loop takes the decoded daily arrays as input.
- Go's `time` package is not modelled: locations, DST, `Local()` and `time.Now()`. Time is UTC minutes, and "now" is a parameter.
- `getDayName` reads the clock itself and formats in local time. The model uses the same `now` as the rest of the search and UTC weekdays.
- Floating-point rounding is not modelled: prices, energy and costs are reals.
- The `fmt.Sprintf` texts are not modelled. A recommendation's reason is a band tag carrying its percentile. `RecommendationOption.Recommendation` is left out.
- `Options.CarbonWeight` and `PVWeight`, and the `household` parameter of the smart functions, are not modelled. The Go code never reads them there.
- A nil `*WeatherForecast` stored in `weatherByDay` is not modelled. The map holds values.
- Engine.TopWindows: Go's `sort.Slice` does not fix an order among equally cheap windows. The model breaks ties stably, with the earlier run first, so where several windows cost the same `BestWindow`, `StandaloneResult` and `CoupledResult` may pick a different one than the Go code. `sort.Float64s` in `generateReason` is unaffected, because equal prices are interchangeable.
- Engine.GenerateReason: Go sorts a fresh `allPrices` slice in place. The model takes the sorted prices from the sort function over a sequence, so the in-place update of that local slice is not modelled.
- Forecast.Forecasts, Forecast.ForecastsAreRecords, Forecast.ForecastsDatesIncrease, Forecast.ForecastsAllParsed and Forecast.BuildForecasts require `TemperaturesCover`: every entry whose date parses has a MaxTemp and a MinTemp value. The Go code indexes both arrays without a bounds check and panics on a shorter array. That panic is not modelled.
- OpenMeteo.AbsDuration: the int64 overflow of `-d` at the smallest duration is not modelled, because durations are unbounded integers.
- Smart.TumbleOption: when a day has no price list, the dryer cost is estimated over an empty list (0). This is only reached on days that have prices.
- The search loops of `BestWindows`, `estimateCost` and `generateCoupledRecommendation` are split into helper methods, one per loop body. These are `CollectCandidates`, `RunPence`, `CountCovered`, `CoveredPence`, `FindWasherSlot`, `AddDayOptions`, `AddTumbleOption`, `MakeTumbleOption`, `AddLineDryOption`, `AppendOption` and `CheapestOption`. They keep the Go code's statements in their order.

Behaviour the model keeps as the code has it:

- An overnight window such as 22:00-07:00 is evaluated on the time's own date. It matches from its start until midnight, and never in the early hours.
- The band of a window ranks its pence per slot (totalPence / len), the per-slot energy times its mean price, against prices per kWh. The band therefore depends on the energy: a 5 kWh half-hour in the day's cheapest slot can be banded "higher". When the pence per slot exceed every price of the day, the scan finds nothing and the percentile stays 0, so that window is banded "excellent".
- A negative `CanWaitDays` checks no day at all, so the coupled search fails with "no feasible options". The code clamps only 0 up to 1 and values above 3 down to 3. The model follows the code here, not a reading in which at least today is always checked.
