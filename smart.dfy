/** The multi-day recommendations of internal/engine/smart.go: a standalone
    appliance gets today's cheapest window; a washer coupled with a dryer
    gets, for each day it may wait, a tumble-dry option and, on a sunny day
    with a weather-dependent dryer, a line-dry option, and the cheapest of
    them is marked as best.

    Prices and weather are keyed by day number (days since the epoch) in
    place of "2006-01-02" strings, and the current time is a parameter. */
module Smart {
  import opened Types
  import opened Engine

  datatype SmartError =
    | UnsupportedClass    // neither standalone nor coupled with a coupled appliance
    | NoFeasibleSlots     // standalone: no window today
    | NoFeasibleOptions   // coupled: no option on any day checked

  // ---------------------------------------------------------------------
  // estimateCost
  // ---------------------------------------------------------------------

  /** A price slot starting in [start, end). */
  predicate Covers(p: PriceSlot, start: Time, end: Time) {
    start <= p.Start < end
  }

  /** The slots starting in [start, end), in input order. */
  function CoveredSlots(prices: seq<PriceSlot>, start: Time, end: Time): (r: seq<PriceSlot>)
    ensures |r| <= |prices|
  {
    if prices == [] then []
    else
      var last := prices[|prices| - 1];
      CoveredSlots(prices[..|prices| - 1], start, end) + (if Covers(last, start, end) then [last] else [])
  }

  /** The covered slots are slots of the input that start in [start, end). */
  lemma {:induction false} CoveredSlotsSound(prices: seq<PriceSlot>, start: Time, end: Time)
    ensures forall x :: x in CoveredSlots(prices, start, end) ==> x in prices && Covers(x, start, end)
  {
    if prices != [] {
      var front := prices[..|prices| - 1];
      CoveredSlotsSound(front, start, end);
      SliceMembers(prices, 0, |prices| - 1);
      assert prices[0..|prices| - 1] == front;
    }
  }

  /** The mean price of a non-empty run of slots, in pence per kWh. */
  function MeanPrice(w: seq<PriceSlot>): real
    requires w != []
  {
    PriceSum(w) / |w| as real
  }

  /** What estimateCost computes, in pounds: the energy at the mean price of
      the slots that start in [start, end), and nothing when no slot does. */
  function EstimatedCost(prices: seq<PriceSlot>, start: Time, end: Time, kwh: real): real {
    var covered := CoveredSlots(prices, start, end);
    if covered == [] then 0.0 else kwh * MeanPrice(covered) / 100.0
  }

  /** Splitting the energy evenly over the slots and paying each share at
      its own slot's price costs the energy at the mean price. */
  lemma EvenSplitIsMeanPrice(w: seq<PriceSlot>, kwh: real)
    requires w != []
    ensures WindowCost(w, kwh / |w| as real) == kwh * MeanPrice(w)
  {
    var n := |w| as real;
    WindowCostIsShareOfSum(w, kwh / n);
    DivMulSwap(kwh, PriceSum(w), n);
  }

  lemma DivMulSwap(a: real, b: real, n: real)
    requires n > 0.0
    ensures (a / n) * b == a * (b / n)
  {
    assert (a / n) * n == a;
    assert (b / n) * n == b;
  }

  lemma {:induction false} PriceSumNonNegative(w: seq<PriceSlot>)
    requires forall p :: p in w ==> p.PencePerKWh >= 0.0
    ensures PriceSum(w) >= 0.0
  {
    if w != [] {
      assert w[|w| - 1] in w;
      assert forall p :: p in w[..|w| - 1] ==> p in w;
      PriceSumNonNegative(w[..|w| - 1]);
    }
  }

  lemma {:induction false} PriceSumFlat(w: seq<PriceSlot>, rate: real)
    requires forall p :: p in w ==> p.PencePerKWh == rate
    ensures PriceSum(w) == |w| as real * rate
  {
    if w != [] {
      assert w[|w| - 1] in w;
      assert forall p :: p in w[..|w| - 1] ==> p in w;
      PriceSumFlat(w[..|w| - 1], rate);
    }
  }

  /** With no negative prices, running costs nothing or more. */
  lemma EstimatedCostNonNegative(prices: seq<PriceSlot>, start: Time, end: Time, kwh: real)
    requires kwh >= 0.0
    requires forall p :: p in prices ==> p.PencePerKWh >= 0.0
    ensures EstimatedCost(prices, start, end, kwh) >= 0.0
  {
    var covered := CoveredSlots(prices, start, end);
    if covered != [] {
      CoveredSlotsSound(prices, start, end);
      PriceSumNonNegative(covered);
      NonNegativeProduct(kwh, MeanPrice(covered));
    }
  }

  lemma NonNegativeProduct(a: real, b: real)
    requires a >= 0.0 && b >= 0.0
    ensures a * b / 100.0 >= 0.0
  {
  }

  /** At a flat rate the estimate is the energy times the rate, whatever
      the number of covered slots. */
  lemma EstimatedCostFlatRate(prices: seq<PriceSlot>, start: Time, end: Time, kwh: real, rate: real)
    requires CoveredSlots(prices, start, end) != []
    requires forall p :: p in prices ==> p.PencePerKWh == rate
    ensures EstimatedCost(prices, start, end, kwh) == kwh * rate / 100.0
  {
    CoveredSlotsSound(prices, start, end);
    MeanOfFlat(CoveredSlots(prices, start, end), rate);
  }

  /** Slots that all cost the same have that price as their mean. */
  lemma MeanOfFlat(w: seq<PriceSlot>, rate: real)
    requires w != []
    requires forall p :: p in w ==> p.PencePerKWh == rate
    ensures MeanPrice(w) == rate
  {
    PriceSumFlat(w, rate);
    MulDivCancel(|w| as real, rate);
  }

  lemma MulDivCancel(n: real, rate: real)
    requires n > 0.0
    ensures (n * rate) / n == rate
  {
  }

  /** One more slot of the input is covered or not. */
  lemma CoveredSlotsStep(prices: seq<PriceSlot>, i: int, start: Time, end: Time)
    requires 0 <= i < |prices|
    ensures CoveredSlots(prices[..i + 1], start, end) ==
      CoveredSlots(prices[..i], start, end) + (if Covers(prices[i], start, end) then [prices[i]] else [])
  {
    assert prices[..i + 1][..i] == prices[..i];
  }

  lemma WindowCostAppend(w: seq<PriceSlot>, x: PriceSlot, kwhPerSlot: real)
    ensures WindowCost(w + [x], kwhPerSlot) == WindowCost(w, kwhPerSlot) + x.PencePerKWh * kwhPerSlot
  {
    assert (w + [x])[..|w|] == w;
  }

  /** Go's estimateCost: one loop counts the slots that start in
      [start, end), a second one pays each of them an even share of the
      energy at its own price; no such slot means no cost. */
  method EstimateCost(prices: seq<PriceSlot>, start: Time, end: Time, kwh: real) returns (cost: real)
    ensures cost == EstimatedCost(prices, start, end, kwh)
  {
    var slots := CountCovered(prices, start, end);
    if slots == 0 {
      return 0.0;
    }
    var kwhPerSlot := kwh / slots as real;
    var totalCostPence := CoveredPence(prices, start, end, kwhPerSlot);
    EvenSplitIsMeanPrice(CoveredSlots(prices, start, end), kwh);
    return totalCostPence / 100.0;
  }

  /** The counting loop of estimateCost. */
  method CountCovered(prices: seq<PriceSlot>, start: Time, end: Time) returns (slots: int)
    ensures slots == |CoveredSlots(prices, start, end)|
  {
    slots := 0;
    for i := 0 to |prices|
      invariant slots == |CoveredSlots(prices[..i], start, end)|
    {
      CoveredSlotsStep(prices, i, start, end);
      if start <= prices[i].Start && prices[i].Start < end {
        slots := slots + 1;
      }
    }
    assert prices[..|prices|] == prices;
  }

  /** The costing loop of estimateCost, in pence. */
  method CoveredPence(prices: seq<PriceSlot>, start: Time, end: Time, kwhPerSlot: real) returns (totalCostPence: real)
    ensures totalCostPence == WindowCost(CoveredSlots(prices, start, end), kwhPerSlot)
  {
    totalCostPence := 0.0;
    for i := 0 to |prices|
      invariant totalCostPence == WindowCost(CoveredSlots(prices[..i], start, end), kwhPerSlot)
    {
      CoveredSlotsStep(prices, i, start, end);
      ghost var w := CoveredSlots(prices[..i], start, end);
      if start <= prices[i].Start && prices[i].Start < end {
        WindowCostAppend(w, prices[i], kwhPerSlot);
        totalCostPence := totalCostPence + prices[i].PencePerKWh * kwhPerSlot;
      } else {
        assert w + [] == w;
      }
    }
    assert prices[..|prices|] == prices;
  }

  // ---------------------------------------------------------------------
  // getDayName and the days checked
  // ---------------------------------------------------------------------

  /** time.Weekday names, Sunday first. */
  const WeekdayNames: seq<string> :=
    ["Sunday", "Monday", "Tuesday", "Wednesday", "Thursday", "Friday", "Saturday"]

  /** Go's getDayName: "Today", "Tomorrow", then the weekday's name. */
  function DayName(now: Time, dayOffset: int): (name: string)
    ensures dayOffset == 0 ==> name == "Today"
    ensures dayOffset == 1 ==> name == "Tomorrow"
    ensures dayOffset != 0 && dayOffset != 1 ==> name in WeekdayNames
  {
    if dayOffset == 0 then "Today"
    else if dayOffset == 1 then "Tomorrow"
    else WeekdayNames[GoWeekday(now + dayOffset * MinutesPerDay)]
  }

  /** Beyond tomorrow, the name repeats every seven days. */
  lemma DayNameWeekly(now: Time, dayOffset: int)
    requires dayOffset >= 2
    ensures DayName(now, dayOffset + 7) == DayName(now, dayOffset)
  {
    var t := now + dayOffset * MinutesPerDay;
    assert now + (dayOffset + 7) * MinutesPerDay == t + 7 * MinutesPerDay;
    WeekLater(t);
  }

  /** A week later falls on the same weekday. */
  lemma WeekLater(t: Time)
    ensures GoWeekday(t + 7 * MinutesPerDay) == GoWeekday(t)
  {
    var d, m := DayOf(t), TimeOfDay(t);
    assert t + 7 * MinutesPerDay == (d + 7) * MinutesPerDay + m;
    assert DayOf(t + 7 * MinutesPerDay) == d + 7;
  }

  /** How many days a coupled washer considers: CanWaitDays, with 0 meaning
      today only and at most 3; a negative value checks no day at all. */
  function DaysToCheck(canWaitDays: int): (n: int)
    ensures n <= 3
    ensures n >= 1 <==> canWaitDays >= 0
    ensures 1 <= canWaitDays <= 3 ==> n == canWaitDays
    ensures canWaitDays == 0 ==> n == 1
    ensures canWaitDays > 3 ==> n == 3
  {
    if canWaitDays == 0 then 1
    else if canWaitDays > 3 then 3
    else canWaitDays
  }

  // ---------------------------------------------------------------------
  // Options of one day
  // ---------------------------------------------------------------------

  /** The first window of BestWindows with topN = 1, when it succeeds. */
  function BestWindow(prices: seq<PriceSlot>, cycleMinutes: int, c: Constraints, opts: Options): Option<Recommendation> {
    var recs := TopWindows(prices, cycleMinutes, c, opts, 1);
    if recs.Success? && |recs.value| > 0 then Some(recs.value[0]) else None
  }

  /** There is a best window exactly when the search succeeds, and then no
      contiguous run of the required length among the slots that pass the
      constraints costs less (BestWindowIsRun says it is such a run). */
  lemma BestWindowIsCheapest(prices: seq<PriceSlot>, cycleMinutes: int, c: Constraints, opts: Options, i: int)
    ensures BestWindow(prices, cycleMinutes, c, opts).Some? <==> TopWindows(prices, cycleMinutes, c, opts, 1).Success?
    ensures (&& BestWindow(prices, cycleMinutes, c, opts).Some? && cycleMinutes > 0
             && 0 <= i && i + RequiredSlots(cycleMinutes) <= |FeasibleSlots(prices, c)|
             && IsContiguous(Window(FeasibleSlots(prices, c), i, RequiredSlots(cycleMinutes)))) ==>
      BestWindow(prices, cycleMinutes, c, opts).value.Score <=
        WindowCost(Window(FeasibleSlots(prices, c), i, RequiredSlots(cycleMinutes)), opts.EstKWh / RequiredSlots(cycleMinutes) as real)
  {
    var recs := TopWindows(prices, cycleMinutes, c, opts, 1);
    if recs.Success? {
      TopWindowsRanked(prices, cycleMinutes, c, opts, 1);
      if cycleMinutes > 0 && 0 <= i && i + RequiredSlots(cycleMinutes) <= |FeasibleSlots(prices, c)|
        && IsContiguous(Window(FeasibleSlots(prices, c), i, RequiredSlots(cycleMinutes)))
      {
        TopWindowsOptimal(prices, cycleMinutes, c, opts, 1, i);
      }
    }
  }

  /** What the coupled search reads: the washer, the optional dryer, the
      per-day prices and weather, the washer's constraints and options, and
      the current time. */
  datatype CoupledInputs = CoupledInputs(
    washer: Appliance,
    dryer: Option<Appliance>,
    pricesByDay: map<int, seq<PriceSlot>>,
    weatherByDay: map<int, WeatherForecast>,
    washerConstraints: Constraints,
    washerOpts: Options,
    now: Time)

  /** The day number dayOffset days from now. */
  function CheckDay(inp: CoupledInputs, dayOffset: int): int {
    DayOf(inp.now) + dayOffset
  }

  /** The washer's best window on a day, if the day has prices and a window. */
  function DaySlot(pricesByDay: map<int, seq<PriceSlot>>, day: int, washer: Appliance, c: Constraints, opts: Options)
    : Option<Recommendation>
  {
    if day !in pricesByDay then None else BestWindow(pricesByDay[day], washer.CycleMinutes, c, opts)
  }

  /** f(0), ..., f(n - 1). */
  function Tabulate<T>(f: int -> T, n: nat): (r: seq<T>)
    ensures |r| == n
  {
    if n == 0 then [] else Tabulate(f, n - 1) + [f(n - 1)]
  }

  lemma {:induction false} TabulateAt<T>(f: int -> T, n: nat, d: int)
    requires 0 <= d < n
    ensures Tabulate(f, n)[d] == f(d)
  {
    if d < n - 1 {
      TabulateAt(f, n - 1, d);
    }
  }

  /** The washer's best window on the day at a given offset from today. */
  function WasherDay(inp: CoupledInputs): int -> Option<Recommendation> {
    d => DaySlot(inp.pricesByDay, CheckDay(inp, d), inp.washer, inp.washerConstraints, inp.washerOpts)
  }

  /** The washer's best window on each of the first n days. */
  function WasherSlots(inp: CoupledInputs, n: nat): (r: seq<Option<Recommendation>>)
    ensures |r| == n
  {
    Tabulate(WasherDay(inp), n)
  }

  lemma WasherSlotsAt(inp: CoupledInputs, n: nat, d: int)
    requires 0 <= d < n
    ensures WasherSlots(inp, n)[d] ==
      DaySlot(inp.pricesByDay, CheckDay(inp, d), inp.washer, inp.washerConstraints, inp.washerOpts)
  {
    TabulateAt(WasherDay(inp), n, d);
  }

  /** The prices of the day, or none. */
  function PricesOn(inp: CoupledInputs, dayOffset: int): seq<PriceSlot> {
    var day := CheckDay(inp, dayOffset);
    if day in inp.pricesByDay then inp.pricesByDay[day] else []
  }

  function WeatherOn(inp: CoupledInputs, dayOffset: int): Option<WeatherForecast> {
    var day := CheckDay(inp, dayOffset);
    if day in inp.weatherByDay then Some(inp.weatherByDay[day]) else None
  }

  /** Line drying is offered on a sunny day when the dryer is weather dependent. */
  predicate LineDryDay(inp: CoupledInputs, dayOffset: int) {
    var weather := WeatherOn(inp, dayOffset);
    weather.Some? && weather.value.IsSunny && inp.dryer.Some? && inp.dryer.value.Class == ClassWeatherDependent
  }

  /** Tumble drying right after the wash: the dryer starts when the washer
      ends, runs its cycle, and its cost is estimated from that day's prices. */
  function TumbleOption(inp: CoupledInputs, dayOffset: int, washerSlot: Recommendation, dryer: Appliance): RecommendationOption {
    var dryerStart := washerSlot.End;
    var dryerEnd := dryerStart + dryer.CycleMinutes;
    var dryerCost := EstimatedCost(PricesOn(inp, dayOffset), dryerStart, dryerEnd, dryer.EstKWh);
    RecommendationOption(
      DayName(inp.now, dayOffset), inp.now + dayOffset * MinutesPerDay, washerSlot,
      Some(Recommendation(dryerStart, dryerEnd, dryerCost, Unexplained, 0.0)),
      washerSlot.CostGBP + dryerCost, WeatherOn(inp, dayOffset), false, 0.0)
  }

  /** Hanging the wash outside: only the washer costs anything. */
  function LineDryOption(inp: CoupledInputs, dayOffset: int, washerSlot: Recommendation): RecommendationOption {
    RecommendationOption(
      DayName(inp.now, dayOffset), inp.now + dayOffset * MinutesPerDay, washerSlot, None,
      washerSlot.CostGBP, WeatherOn(inp, dayOffset), true, 0.0)
  }

  /** The options of one day whose washer window is ws, before savings are
      filled in: none without a window; else tumble drying when there is a
      dryer, then line drying when the day allows it. */
  function DayOptions(inp: CoupledInputs, dayOffset: int, ws: Option<Recommendation>): (r: seq<RecommendationOption>)
    ensures |r| <= 2
  {
    match ws
    case None => []
    case Some(slot) => TumblePart(inp, dayOffset, slot) + LinePart(inp, dayOffset, slot)
  }

  /** The tumble-dry option of a day, when there is a dryer. */
  function TumblePart(inp: CoupledInputs, dayOffset: int, slot: Recommendation): seq<RecommendationOption> {
    if inp.dryer.Some? then [TumbleOption(inp, dayOffset, slot, inp.dryer.value)] else []
  }

  /** The line-dry option of a day, when the day allows it. */
  function LinePart(inp: CoupledInputs, dayOffset: int, slot: Recommendation): seq<RecommendationOption> {
    if LineDryDay(inp, dayOffset) then [LineDryOption(inp, dayOffset, slot)] else []
  }

  /** The options of the first k days, in day order, given each day's washer window. */
  function RawOptions(inp: CoupledInputs, slots: seq<Option<Recommendation>>, k: int): seq<RecommendationOption>
    requires k <= |slots|
    decreases k
  {
    if k <= 0 then [] else RawOptions(inp, slots, k - 1) + DayOptions(inp, k - 1, slots[k - 1])
  }

  /** An option appended after others records how much it saves over the
      first option. */
  function Saved(first: RecommendationOption, o: RecommendationOption): RecommendationOption {
    o.(SavingsVsToday := first.TotalCostGBP - o.TotalCostGBP)
  }

  /** The options with savings filled in: the first one keeps its zero
      savings, every later one records the difference to the first. */
  function WithSavings(raw: seq<RecommendationOption>): (r: seq<RecommendationOption>)
    ensures |r| == |raw|
    ensures |raw| > 0 ==> r[0] == raw[0]
    ensures forall i :: 0 < i < |r| ==> r[i].SavingsVsToday == r[0].TotalCostGBP - r[i].TotalCostGBP
    ensures forall i :: 0 <= i < |r| ==> r[i].(SavingsVsToday := raw[i].SavingsVsToday) == raw[i]
  {
    seq(|raw|, i requires 0 <= i < |raw| => if i == 0 then raw[0] else Saved(raw[0], raw[i]))
  }

  /** Appending an option appends it with its savings over the first one. */
  lemma WithSavingsAppend(raw: seq<RecommendationOption>, o: RecommendationOption)
    ensures var w := WithSavings(raw);
      WithSavings(raw + [o]) == w + [if |w| > 0 then o.(SavingsVsToday := w[0].TotalCostGBP - o.TotalCostGBP) else o]
  {
    var l, r := WithSavings(raw + [o]), WithSavings(raw) + [if raw == [] then o else Saved(raw[0], o)];
    assert |l| == |r|;
    forall i | 0 <= i < |l| ensures l[i] == r[i] {
      if i < |raw| {
        assert (raw + [o])[i] == raw[i];
      }
    }
  }

  /** The index of the first cheapest option. */
  function CheapestIndex(o: seq<RecommendationOption>): (idx: int)
    requires |o| > 0
    ensures 0 <= idx < |o|
    ensures forall i :: 0 <= i < |o| ==> o[idx].TotalCostGBP <= o[i].TotalCostGBP
    ensures forall i :: 0 <= i < idx ==> o[i].TotalCostGBP > o[idx].TotalCostGBP
  {
    if |o| == 1 then 0
    else
      var b := CheapestIndex(o[..|o| - 1]);
      assert forall i :: 0 <= i < |o| - 1 ==> o[..|o| - 1][i] == o[i];
      if o[|o| - 1].TotalCostGBP < o[b].TotalCostGBP then |o| - 1 else b
  }

  /** The number of days the search looks at, never negative. */
  function DaysSearched(canWaitDays: int): nat {
    var n := DaysToCheck(canWaitDays);
    if n < 0 then 0 else n
  }

  /** The result of the search given each day's washer window. */
  function CoupledFrom(inp: CoupledInputs, slots: seq<Option<Recommendation>>): Result<SmartRecommendation, SmartError> {
    var options := WithSavings(RawOptions(inp, slots, |slots|));
    if |options| == 0 then Failure(NoFeasibleOptions)
    else Success(SmartRecommendation(inp.washer.Name, options, CheapestIndex(options)))
  }

  /** What generateCoupledRecommendation returns. */
  function CoupledResult(inp: CoupledInputs): Result<SmartRecommendation, SmartError> {
    CoupledFrom(inp, WasherSlots(inp, DaysSearched(inp.washer.CanWaitDays)))
  }

  // ---------------------------------------------------------------------
  // Properties of the coupled options
  // ---------------------------------------------------------------------

  /** A tumble-dry option of the given day with washer window ws: the dryer
      runs its cycle straight after the washer, and the total is both costs. */
  ghost predicate IsTumbleOption(inp: CoupledInputs, o: RecommendationOption, dayOffset: int, ws: Option<Recommendation>) {
    && inp.dryer.Some?
    && ws == Some(o.PrimarySlot)
    && !o.UsesNaturalDry
    && o.CoupledSlot.Some?
    && o.CoupledSlot.value.Start == o.PrimarySlot.End
    && o.CoupledSlot.value.End == o.PrimarySlot.End + inp.dryer.value.CycleMinutes
    && o.CoupledSlot.value.CostGBP ==
         EstimatedCost(PricesOn(inp, dayOffset), o.PrimarySlot.End, o.PrimarySlot.End + inp.dryer.value.CycleMinutes, inp.dryer.value.EstKWh)
    && o.TotalCostGBP == o.PrimarySlot.CostGBP + o.CoupledSlot.value.CostGBP
    && o.Date == inp.now + dayOffset * MinutesPerDay
    && o.Day == DayName(inp.now, dayOffset)
    && o.Weather == WeatherOn(inp, dayOffset)
    && o.SavingsVsToday == 0.0
  }

  /** A line-dry option of the given day with washer window ws: sunny
      weather, a weather-dependent dryer, no dryer slot, and only the washer
      to pay for. */
  ghost predicate IsLineDryOption(inp: CoupledInputs, o: RecommendationOption, dayOffset: int, ws: Option<Recommendation>) {
    && ws == Some(o.PrimarySlot)
    && o.UsesNaturalDry
    && o.CoupledSlot.None?
    && o.Weather.Some? && o.Weather.value.IsSunny
    && inp.dryer.Some? && inp.dryer.value.Class == ClassWeatherDependent
    && o.TotalCostGBP == o.PrimarySlot.CostGBP
    && o.Date == inp.now + dayOffset * MinutesPerDay
    && o.Day == DayName(inp.now, dayOffset)
    && o.Weather == WeatherOn(inp, dayOffset)
    && o.SavingsVsToday == 0.0
  }

  /** An option of one of the first k days. */
  ghost predicate IsOptionOfDays(inp: CoupledInputs, o: RecommendationOption, slots: seq<Option<Recommendation>>, k: int)
    requires k <= |slots|
  {
    exists d :: 0 <= d < k && (IsTumbleOption(inp, o, d, slots[d]) || IsLineDryOption(inp, o, d, slots[d]))
  }

  /** A line-dry option directly follows the tumble-dry option of its day. */
  ghost predicate LineDryFollowsTumble(o: seq<RecommendationOption>) {
    forall i :: 0 <= i < |o| && o[i].UsesNaturalDry ==>
      && i > 0 && !o[i - 1].UsesNaturalDry
      && o[i - 1].PrimarySlot == o[i].PrimarySlot && o[i - 1].Date == o[i].Date
  }

  /** There are at most two options a day. */
  lemma {:induction false} RawOptionsCount(inp: CoupledInputs, slots: seq<Option<Recommendation>>, k: int)
    requires k <= |slots|
    ensures |RawOptions(inp, slots, k)| <= 2 * (if k < 0 then 0 else k)
  {
    if k > 0 {
      RawOptionsCount(inp, slots, k - 1);
    }
  }

  /** Every option of the first k days is a tumble-dry or a line-dry option
      of one of those days, with that day's washer window. */
  lemma {:induction false} RawOptionsOfDays(inp: CoupledInputs, slots: seq<Option<Recommendation>>, k: int)
    requires k <= |slots|
    ensures forall i :: 0 <= i < |RawOptions(inp, slots, k)| ==> IsOptionOfDays(inp, RawOptions(inp, slots, k)[i], slots, k)
  {
    if k > 0 {
      RawOptionsOfDays(inp, slots, k - 1);
      var front, day := RawOptions(inp, slots, k - 1), DayOptions(inp, k - 1, slots[k - 1]);
      var o := RawOptions(inp, slots, k);
      assert o == front + day;
      forall i | 0 <= i < |o| ensures IsOptionOfDays(inp, o[i], slots, k) {
        if i < |front| {
          assert o[i] == front[i];
          assert IsOptionOfDays(inp, front[i], slots, k - 1);
          var d :| 0 <= d < k - 1 && (IsTumbleOption(inp, front[i], d, slots[d]) || IsLineDryOption(inp, front[i], d, slots[d]));
        } else {
          DayOptionShape(inp, k - 1, slots[k - 1], i - |front|);
          assert o[i] == day[i - |front|];
        }
      }
    }
  }

  /** Conversely, every checked day with a washer window contributes its
      tumble-dry option when there is a dryer, and its line-dry option when
      the day is sunny and the dryer weather dependent. */
  lemma {:induction false} RawOptionsComplete(inp: CoupledInputs, slots: seq<Option<Recommendation>>, k: int, d: int)
    requires k <= |slots| && 0 <= d < k && slots[d].Some?
    ensures inp.dryer.Some? ==> TumbleOption(inp, d, slots[d].value, inp.dryer.value) in RawOptions(inp, slots, k)
    ensures LineDryDay(inp, d) ==> LineDryOption(inp, d, slots[d].value) in RawOptions(inp, slots, k)
  {
    assert RawOptions(inp, slots, k) == RawOptions(inp, slots, k - 1) + DayOptions(inp, k - 1, slots[k - 1]);
    if d < k - 1 {
      RawOptionsComplete(inp, slots, k - 1, d);
    }
  }

  /** A line-dry option directly follows the tumble-dry option of its day. */
  lemma {:induction false} RawOptionsOrder(inp: CoupledInputs, slots: seq<Option<Recommendation>>, k: int)
    requires k <= |slots|
    ensures LineDryFollowsTumble(RawOptions(inp, slots, k))
  {
    if k > 0 {
      RawOptionsOrder(inp, slots, k - 1);
      var front, day := RawOptions(inp, slots, k - 1), DayOptions(inp, k - 1, slots[k - 1]);
      var o := RawOptions(inp, slots, k);
      assert o == front + day;
      forall i | 0 <= i < |o| && o[i].UsesNaturalDry
        ensures i > 0 && !o[i - 1].UsesNaturalDry
        ensures o[i - 1].PrimarySlot == o[i].PrimarySlot && o[i - 1].Date == o[i].Date
      {
        if i < |front| {
          assert o[i] == front[i] && o[i - 1] == front[i - 1];
        } else {
          DayOptionShape(inp, k - 1, slots[k - 1], i - |front|);
          assert o[i] == day[i - |front|];
          assert i - |front| == 1;
          assert o[i - 1] == day[0];
        }
      }
    }
  }

  /** The options of one day: a tumble-dry option first, then a line-dry one. */
  lemma DayOptionShape(inp: CoupledInputs, dayOffset: int, ws: Option<Recommendation>, j: int)
    requires 0 <= j < |DayOptions(inp, dayOffset, ws)|
    ensures var day := DayOptions(inp, dayOffset, ws);
      && (IsTumbleOption(inp, day[j], dayOffset, ws) || IsLineDryOption(inp, day[j], dayOffset, ws))
      && (day[j].UsesNaturalDry ==>
            j == 1 && !day[0].UsesNaturalDry && day[0].PrimarySlot == day[1].PrimarySlot && day[0].Date == day[1].Date)
  {
    var slot := ws.value;
    if inp.dryer.Some? {
      TumbleOptionIs(inp, dayOffset, slot);
    }
    if LineDryDay(inp, dayOffset) {
      LineDryOptionIs(inp, dayOffset, slot);
    }
  }

  /** The tumble-dry option of a day is one in the sense of IsTumbleOption. */
  lemma TumbleOptionIs(inp: CoupledInputs, dayOffset: int, slot: Recommendation)
    requires inp.dryer.Some?
    ensures IsTumbleOption(inp, TumbleOption(inp, dayOffset, slot, inp.dryer.value), dayOffset, Some(slot))
  {
  }

  /** The line-dry option of a sunny day is one in the sense of IsLineDryOption. */
  lemma LineDryOptionIs(inp: CoupledInputs, dayOffset: int, slot: Recommendation)
    requires LineDryDay(inp, dayOffset)
    ensures IsLineDryOption(inp, LineDryOption(inp, dayOffset, slot), dayOffset, Some(slot))
  {
  }

  /** The search comes up empty exactly when there is no dryer or no day in
      range has a washer window. */
  lemma {:induction false} RawOptionsEmpty(inp: CoupledInputs, slots: seq<Option<Recommendation>>, k: int)
    requires k <= |slots|
    ensures RawOptions(inp, slots, k) == [] <==>
      inp.dryer.None? || forall d :: 0 <= d < k ==> slots[d].None?
  {
    if k > 0 {
      RawOptionsEmpty(inp, slots, k - 1);
      assert RawOptions(inp, slots, k) == RawOptions(inp, slots, k - 1) + DayOptions(inp, k - 1, slots[k - 1]);
      if inp.dryer.None? {
        assert !LineDryDay(inp, k - 1);
      }
    }
  }

  /** With no negative prices and a dryer that uses energy, line drying
      never costs more than tumble drying on the same day. */
  lemma LineDryNoDearer(inp: CoupledInputs, dayOffset: int, ws: Option<Recommendation>)
    requires |DayOptions(inp, dayOffset, ws)| == 2
    requires inp.dryer.Some? && inp.dryer.value.EstKWh >= 0.0
    requires forall p :: p in PricesOn(inp, dayOffset) ==> p.PencePerKWh >= 0.0
    ensures DayOptions(inp, dayOffset, ws)[1].UsesNaturalDry
    ensures DayOptions(inp, dayOffset, ws)[1].TotalCostGBP <= DayOptions(inp, dayOffset, ws)[0].TotalCostGBP
  {
    var slot := ws.value;
    var d := inp.dryer.value;
    EstimatedCostNonNegative(PricesOn(inp, dayOffset), slot.End, slot.End + d.CycleMinutes, d.EstKWh);
  }

  /** A coupled result reports the options of the days checked with their
      savings, and the cheapest of them, the first among equals. */
  lemma CoupledFromFacts(inp: CoupledInputs, slots: seq<Option<Recommendation>>)
    requires CoupledFrom(inp, slots).Success?
    ensures var r := CoupledFrom(inp, slots).value;
      && r.ApplianceName == inp.washer.Name
      && 1 <= |r.Options| <= 2 * |slots|
      && r.Options[0].SavingsVsToday == 0.0
      && 0 <= r.BestOptionIndex < |r.Options|
      && (forall i :: 0 <= i < |r.Options| ==> r.Options[r.BestOptionIndex].TotalCostGBP <= r.Options[i].TotalCostGBP)
      && (forall i :: 0 <= i < r.BestOptionIndex ==> r.Options[i].TotalCostGBP > r.Options[r.BestOptionIndex].TotalCostGBP)
      && (forall i :: 0 < i < |r.Options| ==> r.Options[i].SavingsVsToday == r.Options[0].TotalCostGBP - r.Options[i].TotalCostGBP)
  {
    RawOptionsCount(inp, slots, |slots|);
    RawOptionsOfDays(inp, slots, |slots|);
    var raw := RawOptions(inp, slots, |slots|);
    assert IsOptionOfDays(inp, raw[0], slots, |slots|);
  }

  /** Every checked day with a washer window shows up in a coupled result:
      its tumble-dry option, and on a line-drying day its line-dry option,
      each with its savings filled in. */
  lemma CoupledFromComplete(inp: CoupledInputs, slots: seq<Option<Recommendation>>, d: int)
    requires 0 <= d < |slots| && slots[d].Some? && inp.dryer.Some?
    ensures CoupledFrom(inp, slots).Success?
    ensures var opts := CoupledFrom(inp, slots).value.Options;
      exists i :: 0 <= i < |opts| && opts[i].(SavingsVsToday := 0.0) == TumbleOption(inp, d, slots[d].value, inp.dryer.value)
    ensures var opts := CoupledFrom(inp, slots).value.Options;
      LineDryDay(inp, d) ==> exists i :: 0 <= i < |opts| && opts[i].(SavingsVsToday := 0.0) == LineDryOption(inp, d, slots[d].value)
  {
    RawOptionsComplete(inp, slots, |slots|, d);
    var raw := RawOptions(inp, slots, |slots|);
    var opts := WithSavings(raw);
    var t := TumbleOption(inp, d, slots[d].value, inp.dryer.value);
    var i :| 0 <= i < |raw| && raw[i] == t;
    assert opts[i].(SavingsVsToday := 0.0) == t;
    if LineDryDay(inp, d) {
      var l := LineDryOption(inp, d, slots[d].value);
      var j :| 0 <= j < |raw| && raw[j] == l;
      assert opts[j].(SavingsVsToday := 0.0) == l;
    }
  }

  /** The search's own result: a checked day on which the washer has a
      window contributes its tumble-dry option, and on a line-drying day
      its line-dry option too. */
  lemma CoupledResultCoversDay(inp: CoupledInputs, d: int)
    requires inp.dryer.Some? && 0 <= d < DaysSearched(inp.washer.CanWaitDays)
    requires WasherDay(inp)(d).Some?
    ensures CoupledResult(inp).Success?
    ensures var ws := WasherDay(inp)(d).value;
      var opts := CoupledResult(inp).value.Options;
      && (exists i :: 0 <= i < |opts| && opts[i].(SavingsVsToday := 0.0) == TumbleOption(inp, d, ws, inp.dryer.value))
      && (LineDryDay(inp, d) ==> exists i :: 0 <= i < |opts| && opts[i].(SavingsVsToday := 0.0) == LineDryOption(inp, d, ws))
  {
    var slots := WasherSlots(inp, DaysSearched(inp.washer.CanWaitDays));
    TabulateAt(WasherDay(inp), |slots|, d);
    CoupledFromComplete(inp, slots, d);
  }

  // ---------------------------------------------------------------------
  // generateCoupledRecommendation
  // ---------------------------------------------------------------------

  /** Go's generateCoupledRecommendation: the day loop, then the scan for
      the cheapest option. */
  method GenerateCoupledRecommendation(
    washer: Appliance, dryer: Option<Appliance>,
    pricesByDay: map<int, seq<PriceSlot>>, weatherByDay: map<int, WeatherForecast>,
    household: Household, washerConstraints: Constraints, washerOpts: Options, now: Time)
    returns (r: Result<SmartRecommendation, SmartError>)
    ensures r == CoupledResult(CoupledInputs(washer, dryer, pricesByDay, weatherByDay, washerConstraints, washerOpts, now))
  {
    var inp := CoupledInputs(washer, dryer, pricesByDay, weatherByDay, washerConstraints, washerOpts, now);
    ghost var slots := WasherSlots(inp, DaysSearched(washer.CanWaitDays));
    var options: seq<RecommendationOption> := [];
    var daysToCheck := washer.CanWaitDays;
    if daysToCheck == 0 {
      daysToCheck := 1;
    }
    if daysToCheck > 3 {
      daysToCheck := 3;
    }
    var dayOffset := 0;
    while dayOffset < daysToCheck
      invariant 0 <= dayOffset <= |slots|
      invariant daysToCheck > 0 ==> |slots| == daysToCheck
      invariant options == WithSavings(RawOptions(inp, slots, dayOffset))
    {
      var ws := FindWasherSlot(inp, |slots|, dayOffset);
      options := AddDayOptions(inp, slots, dayOffset, ws, options);
      dayOffset := dayOffset + 1;
    }
    assert dayOffset == |slots|;
    if |options| == 0 {
      return Failure(NoFeasibleOptions);
    }
    var bestIdx := CheapestOption(options);
    return Success(SmartRecommendation(washer.Name, options, bestIdx));
  }

  /** The scan for the first cheapest option. */
  method CheapestOption(options: seq<RecommendationOption>) returns (bestIdx: int)
    requires |options| > 0
    ensures bestIdx == CheapestIndex(options)
  {
    bestIdx := 0;
    var i := 1;
    while i < |options|
      invariant 1 <= i <= |options|
      invariant bestIdx == CheapestIndex(options[..i])
    {
      assert options[..i + 1][..i] == options[..i];
      if options[i].TotalCostGBP < options[bestIdx].TotalCostGBP {
        bestIdx := i;
      }
      i := i + 1;
    }
    assert options[..i] == options;
  }

  /** The price lookup and the washer search of the day loop. */
  method FindWasherSlot(inp: CoupledInputs, ghost n: nat, dayOffset: int) returns (ws: Option<Recommendation>)
    requires 0 <= dayOffset < n
    ensures ws == WasherSlots(inp, n)[dayOffset]
  {
    WasherSlotsAt(inp, n, dayOffset);
    var day := CheckDay(inp, dayOffset);
    if day !in inp.pricesByDay {
      return None;
    }
    var washerRecs := BestWindows(inp.pricesByDay[day], inp.washer.CycleMinutes, inp.washerConstraints, inp.washerOpts, 1);
    if washerRecs.Failure? || |washerRecs.value| == 0 {
      return None;
    }
    return Some(washerRecs.value[0]);
  }

  /** The rest of the day loop: the tumble-dry and the line-dry option of
      one day, each with its savings over the first option. */
  method AddDayOptions(
    inp: CoupledInputs, ghost slots: seq<Option<Recommendation>>, dayOffset: int,
    ws: Option<Recommendation>, options: seq<RecommendationOption>)
    returns (next: seq<RecommendationOption>)
    requires 0 <= dayOffset < |slots| && slots[dayOffset] == ws
    requires options == WithSavings(RawOptions(inp, slots, dayOffset))
    ensures next == WithSavings(RawOptions(inp, slots, dayOffset + 1))
  {
    ghost var raw := RawOptions(inp, slots, dayOffset);
    assert RawOptions(inp, slots, dayOffset + 1) == raw + DayOptions(inp, dayOffset, ws);
    if ws.None? {
      assert raw + [] == raw;
      return options;
    }
    var washerSlot := ws.value;
    next := AddTumbleOption(inp, dayOffset, washerSlot, options, raw);
    next := AddLineDryOption(inp, dayOffset, washerSlot, next, raw + TumblePart(inp, dayOffset, washerSlot));
    assert raw + TumblePart(inp, dayOffset, washerSlot) + LinePart(inp, dayOffset, washerSlot)
      == raw + DayOptions(inp, dayOffset, ws);
  }

  /** Option 1 of the day loop: tumble drying, when there is a dryer. */
  method AddTumbleOption(
    inp: CoupledInputs, dayOffset: int, washerSlot: Recommendation,
    options: seq<RecommendationOption>, ghost raw: seq<RecommendationOption>)
    returns (next: seq<RecommendationOption>)
    requires options == WithSavings(raw)
    ensures next == WithSavings(raw + TumblePart(inp, dayOffset, washerSlot))
  {
    if inp.dryer.None? {
      assert raw + [] == raw;
      return options;
    }
    var option := MakeTumbleOption(inp, dayOffset, washerSlot, inp.dryer.value);
    next := AppendOption(options, raw, option);
  }

  /** The tumble-dry option itself: the weather of the day, the dryer run
      straight after the washer and its estimated cost. */
  method MakeTumbleOption(inp: CoupledInputs, dayOffset: int, washerSlot: Recommendation, dryer: Appliance)
    returns (option: RecommendationOption)
    ensures option == TumbleOption(inp, dayOffset, washerSlot, dryer)
  {
    var day := DayOf(inp.now) + dayOffset;
    var weather: Option<WeatherForecast> := None;
    if day in inp.weatherByDay {
      weather := Some(inp.weatherByDay[day]);
    }
    var dryerStart := washerSlot.End;
    var dryerEnd := dryerStart + dryer.CycleMinutes;
    var prices := if day in inp.pricesByDay then inp.pricesByDay[day] else [];
    var dryerCost := EstimateCost(prices, dryerStart, dryerEnd, dryer.EstKWh);
    var totalCost := washerSlot.CostGBP + dryerCost;
    option := RecommendationOption(DayName(inp.now, dayOffset), inp.now + dayOffset * MinutesPerDay, washerSlot,
      Some(Recommendation(dryerStart, dryerEnd, dryerCost, Unexplained, 0.0)), totalCost, weather, false, 0.0);
  }

  /** Option 2 of the day loop: line drying, when the weather allows it. */
  method AddLineDryOption(
    inp: CoupledInputs, dayOffset: int, washerSlot: Recommendation,
    options: seq<RecommendationOption>, ghost raw: seq<RecommendationOption>)
    returns (next: seq<RecommendationOption>)
    requires options == WithSavings(raw)
    ensures next == WithSavings(raw + LinePart(inp, dayOffset, washerSlot))
  {
    var day := DayOf(inp.now) + dayOffset;
    var hasWeather := day in inp.weatherByDay;
    if hasWeather && inp.weatherByDay[day].IsSunny && inp.dryer.Some? && inp.dryer.value.Class == ClassWeatherDependent {
      var option := RecommendationOption(DayName(inp.now, dayOffset), inp.now + dayOffset * MinutesPerDay, washerSlot,
        None, washerSlot.CostGBP, Some(inp.weatherByDay[day]), true, 0.0);
      assert option == LineDryOption(inp, dayOffset, washerSlot);
      next := AppendOption(options, raw, option);
    } else {
      assert raw + [] == raw;
      next := options;
    }
  }

  /** Appends an option, first recording its savings over the first option
      when there is one. */
  method AppendOption(options: seq<RecommendationOption>, ghost raw: seq<RecommendationOption>, option: RecommendationOption)
    returns (next: seq<RecommendationOption>)
    requires options == WithSavings(raw)
    ensures next == WithSavings(raw + [option])
  {
    WithSavingsAppend(raw, option);
    var o := option;
    if |options| > 0 {
      o := o.(SavingsVsToday := options[0].TotalCostGBP - option.TotalCostGBP);
    }
    next := options + [o];
  }

  // ---------------------------------------------------------------------
  // generateStandaloneRecommendation and the dispatch
  // ---------------------------------------------------------------------

  /** A best window is a real run: the costed recommendation of a contiguous
      run of the required number of slots that pass the constraints. */
  lemma BestWindowIsRun(prices: seq<PriceSlot>, cycleMinutes: int, c: Constraints, opts: Options)
    requires BestWindow(prices, cycleMinutes, c, opts).Some?
    ensures cycleMinutes > 0
    ensures IsWindowOf(BestWindow(prices, cycleMinutes, c, opts).value, FeasibleSlots(prices, c),
      RequiredSlots(cycleMinutes), opts.EstKWh / RequiredSlots(cycleMinutes) as real, prices)
  {
    var recs := TopWindows(prices, cycleMinutes, c, opts, 1).value;
    TopWindowsAreRuns(prices, cycleMinutes, c, opts, 1);
    assert recs[0] in recs;
  }

  /** What generateStandaloneRecommendation returns: today's best window as
      the only option, or an error when today has no prices or no window. */
  function StandaloneResult(appliance: Appliance, pricesByDay: map<int, seq<PriceSlot>>, c: Constraints, opts: Options, now: Time)
    : (r: Result<SmartRecommendation, SmartError>)
    ensures r.Failure? ==> r.error == NoFeasibleSlots
    ensures r.Success? ==> |r.value.Options| == 1 && r.value.BestOptionIndex == 0
  {
    var today := DayOf(now);
    var rec := if today in pricesByDay then BestWindow(pricesByDay[today], appliance.CycleMinutes, c, opts) else None;
    match rec
    case None => Failure(NoFeasibleSlots)
    case Some(w) =>
      Success(SmartRecommendation(appliance.Name,
        [RecommendationOption("Today", w.Start, w, None, w.CostGBP, None, false, 0.0)], 0))
  }

  /** The standalone search fails exactly when today has no prices or the
      window search over them fails. */
  lemma StandaloneSucceedsIff(appliance: Appliance, pricesByDay: map<int, seq<PriceSlot>>, c: Constraints, opts: Options, now: Time)
    ensures StandaloneResult(appliance, pricesByDay, c, opts, now).Success? <==>
      DayOf(now) in pricesByDay && TopWindows(pricesByDay[DayOf(now)], appliance.CycleMinutes, c, opts, 1).Success?
  {
    if DayOf(now) in pricesByDay {
      BestWindowIsCheapest(pricesByDay[DayOf(now)], appliance.CycleMinutes, c, opts, 0);
    }
  }

  /** The standalone option's window is a contiguous run of the required
      number of today's slots that pass the constraints. */
  lemma StandaloneWindowIsRun(appliance: Appliance, pricesByDay: map<int, seq<PriceSlot>>, c: Constraints, opts: Options, now: Time)
    requires StandaloneResult(appliance, pricesByDay, c, opts, now).Success?
    ensures DayOf(now) in pricesByDay && appliance.CycleMinutes > 0
    ensures var n := RequiredSlots(appliance.CycleMinutes);
      IsWindowOf(StandaloneResult(appliance, pricesByDay, c, opts, now).value.Options[0].PrimarySlot,
        FeasibleSlots(pricesByDay[DayOf(now)], c), n, opts.EstKWh / n as real, pricesByDay[DayOf(now)])
  {
    BestWindowIsRun(pricesByDay[DayOf(now)], appliance.CycleMinutes, c, opts);
  }

  /** A standalone recommendation is today's cheapest run: no contiguous run
      of the required number of feasible slots today is cheaper. */
  lemma StandaloneIsCheapest(appliance: Appliance, pricesByDay: map<int, seq<PriceSlot>>, c: Constraints, opts: Options, now: Time, i: int)
    requires StandaloneResult(appliance, pricesByDay, c, opts, now).Success?
    requires DayOf(now) in pricesByDay && appliance.CycleMinutes > 0
    requires var f := FeasibleSlots(pricesByDay[DayOf(now)], c);
      0 <= i && i + RequiredSlots(appliance.CycleMinutes) <= |f| && IsContiguous(Window(f, i, RequiredSlots(appliance.CycleMinutes)))
    ensures var o := StandaloneResult(appliance, pricesByDay, c, opts, now).value.Options[0];
      var f := FeasibleSlots(pricesByDay[DayOf(now)], c);
      var n := RequiredSlots(appliance.CycleMinutes);
      && o.Day == "Today" && o.TotalCostGBP == o.PrimarySlot.CostGBP && o.Date == o.PrimarySlot.Start
      && o.PrimarySlot.Score <= WindowCost(Window(f, i, n), opts.EstKWh / n as real)
  {
    TopWindowsOptimal(pricesByDay[DayOf(now)], appliance.CycleMinutes, c, opts, 1, i);
  }

  /** Go's generateStandaloneRecommendation. */
  method GenerateStandaloneRecommendation(
    appliance: Appliance, pricesByDay: map<int, seq<PriceSlot>>, household: Household,
    constraints: Constraints, opts: Options, now: Time)
    returns (r: Result<SmartRecommendation, SmartError>)
    ensures r == StandaloneResult(appliance, pricesByDay, constraints, opts, now)
  {
    var options: seq<RecommendationOption> := [];
    var today := DayOf(now);
    if today in pricesByDay {
      var recs := BestWindows(pricesByDay[today], appliance.CycleMinutes, constraints, opts, 1);
      if recs.Success? && |recs.value| > 0 {
        var w := recs.value[0];
        options := [RecommendationOption("Today", w.Start, w, None, w.CostGBP, None, false, 0.0)];
      }
    }
    if |options| == 0 {
      return Failure(NoFeasibleSlots);
    }
    return Success(SmartRecommendation(appliance.Name, options, 0));
  }

  /** What GenerateSmartRecommendations returns: the standalone result for
      a standalone appliance, the coupled result for a coupled one that has
      its partner, and an error for anything else. */
  function SmartResult(
    appliance: Appliance, coupledAppliance: Option<Appliance>,
    pricesByDay: map<int, seq<PriceSlot>>, weatherByDay: map<int, WeatherForecast>,
    constraints: Constraints, opts: Options, now: Time)
    : (r: Result<SmartRecommendation, SmartError>)
    ensures r == Failure(UnsupportedClass) <==>
      !(appliance.Class == ClassStandalone || (appliance.Class == ClassCoupled && coupledAppliance.Some?))
    ensures appliance.Class == ClassStandalone ==> r == StandaloneResult(appliance, pricesByDay, constraints, opts, now)
    ensures appliance.Class == ClassCoupled && coupledAppliance.Some? ==>
      r == CoupledResult(CoupledInputs(appliance, coupledAppliance, pricesByDay, weatherByDay, constraints, opts, now))
  {
    if appliance.Class == ClassStandalone then
      StandaloneResult(appliance, pricesByDay, constraints, opts, now)
    else if appliance.Class == ClassCoupled && coupledAppliance.Some? then
      CoupledResult(CoupledInputs(appliance, coupledAppliance, pricesByDay, weatherByDay, constraints, opts, now))
    else
      Failure(UnsupportedClass)
  }

  /** Go's GenerateSmartRecommendations: dispatch on the appliance class. */
  method GenerateSmartRecommendations(
    appliance: Appliance, coupledAppliance: Option<Appliance>,
    pricesByDay: map<int, seq<PriceSlot>>, weatherByDay: map<int, WeatherForecast>,
    household: Household, constraints: Constraints, opts: Options, now: Time)
    returns (r: Result<SmartRecommendation, SmartError>)
    ensures r == SmartResult(appliance, coupledAppliance, pricesByDay, weatherByDay, constraints, opts, now)
  {
    if appliance.Class == ClassStandalone {
      r := GenerateStandaloneRecommendation(appliance, pricesByDay, household, constraints, opts, now);
      return;
    }
    if appliance.Class == ClassCoupled && coupledAppliance.Some? {
      r := GenerateCoupledRecommendation(appliance, coupledAppliance, pricesByDay, weatherByDay, household, constraints, opts, now);
      return;
    }
    return Failure(UnsupportedClass);
  }
}
