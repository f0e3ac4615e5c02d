/** The constraint filter and the cheapest-window search of
    internal/engine/engine.go. */
module Engine {
  import opened Types
  import opened Sorting

  datatype EngineError = ErrInvalidInput | ErrNoFeasibleSlots

  // ---------------------------------------------------------------------
  // "HH:MM" parsing (Go's time.Parse with layout "15:04")
  // ---------------------------------------------------------------------

  predicate IsDigit(c: char) { '0' <= c <= '9' }

  function DigitValue(c: char): (d: int)
    requires IsDigit(c)
    ensures 0 <= d <= 9
  {
    c as int - '0' as int
  }

  function DigitChar(d: int): (c: char)
    requires 0 <= d <= 9
    ensures IsDigit(c) && DigitValue(c) == d
  {
    ('0' as int + d) as char
  }

  /** Minutes since midnight for an "H:MM" or "HH:MM" string, as the layout
      "15:04" accepts it: an hour of one or two digits below 24, a colon, a
      minute of exactly two digits below 60, and nothing after. */
  function ParseTimeOfDay(s: string): (r: Option<int>)
    ensures r.Some? ==> 0 <= r.value < MinutesPerDay
    ensures |s| != 4 && |s| != 5 ==> r.None?
  {
    if |s| == 5 && IsDigit(s[0]) && IsDigit(s[1]) && s[2] == ':' && IsDigit(s[3]) && IsDigit(s[4]) then
      var h := 10 * DigitValue(s[0]) + DigitValue(s[1]);
      var m := 10 * DigitValue(s[3]) + DigitValue(s[4]);
      if h < 24 && m < 60 then Some(60 * h + m) else None
    else if |s| == 4 && IsDigit(s[0]) && s[1] == ':' && IsDigit(s[2]) && IsDigit(s[3]) then
      var m := 10 * DigitValue(s[2]) + DigitValue(s[3]);
      if m < 60 then Some(60 * DigitValue(s[0]) + m) else None
    else
      None
  }

  /** The canonical "HH:MM" spelling of a minute of the day. */
  function FormatClock(m: int): (s: string)
    requires 0 <= m < MinutesPerDay
    ensures |s| == 5
  {
    var h := m / 60;
    var mm := m % 60;
    [DigitChar(h / 10), DigitChar(h % 10), ':', DigitChar(mm / 10), DigitChar(mm % 10)]
  }

  /** Every minute of the day survives formatting and parsing. */
  lemma ParseFormatClock(m: int)
    requires 0 <= m < MinutesPerDay
    ensures ParseTimeOfDay(FormatClock(m)) == Some(m)
  {
    var s := FormatClock(m);
    assert DigitValue(s[0]) == m / 60 / 10 && DigitValue(s[1]) == m / 60 % 10;
    assert DigitValue(s[3]) == m % 60 / 10 && DigitValue(s[4]) == m % 60 % 10;
  }

  /** An "H:MM" time reads as the same time written with a leading zero. */
  lemma OneDigitHour(s: string)
    requires |s| == 4
    ensures ParseTimeOfDay(s) == ParseTimeOfDay(['0'] + s)
  {
    var t := ['0'] + s;
    assert t[1..] == s;
    assert DigitValue('0') == 0;
  }

  /** "7:00" is 07:00, and "24:00" and "7:60" are refused. */
  lemma ClockExamples()
    ensures ParseTimeOfDay("7:00") == Some(420)
    ensures ParseTimeOfDay("23:30") == Some(1410)
    ensures ParseTimeOfDay("24:00") == None
    ensures ParseTimeOfDay("7:60") == None
  {
    assert DigitValue('7') == 7 && DigitValue('0') == 0;
    assert DigitValue('2') == 2 && DigitValue('3') == 3 && DigitValue('4') == 4 && DigitValue('6') == 6;
  }

  /** A five-character string that parses is the canonical spelling of its value. */
  lemma FormatClockParsed(s: string)
    requires |s| == 5 && ParseTimeOfDay(s).Some?
    ensures FormatClock(ParseTimeOfDay(s).value) == s
  {
    var m := ParseTimeOfDay(s).value;
    var h := 10 * DigitValue(s[0]) + DigitValue(s[1]);
    var mm := 10 * DigitValue(s[3]) + DigitValue(s[4]);
    assert m == 60 * h + mm;
    assert m / 60 == h && m % 60 == mm;
    var f := FormatClock(m);
    assert f[0] == s[0] && f[1] == s[1] && f[3] == s[3] && f[4] == s[4];
  }

  // ---------------------------------------------------------------------
  // Time windows
  // ---------------------------------------------------------------------

  /** Go's matchesTimeWindow: the weekday is in the window's days (or it has
      none), both bounds parse, and t lies in [start, end) on t's own date,
      where an end before the start is moved to the next day. */
  predicate MatchesTimeWindow(t: Time, w: TimeWindow) {
    && (|w.DaysOfWeek| == 0 || IsoWeekday(t) in w.DaysOfWeek)
    && ParseTimeOfDay(w.Start).Some?
    && ParseTimeOfDay(w.End).Some?
    && var todayStart := DayOf(t) * MinutesPerDay + ParseTimeOfDay(w.Start).value;
       var end0 := DayOf(t) * MinutesPerDay + ParseTimeOfDay(w.End).value;
       var todayEnd := if end0 < todayStart then end0 + MinutesPerDay else end0;
       todayStart <= t < todayEnd
  }

  /** Window membership in terms of the time of day alone. */
  lemma MatchesTimeWindowIff(t: Time, w: TimeWindow)
    ensures MatchesTimeWindow(t, w) <==>
      && (|w.DaysOfWeek| == 0 || IsoWeekday(t) in w.DaysOfWeek)
      && ParseTimeOfDay(w.Start).Some?
      && ParseTimeOfDay(w.End).Some?
      && var s, e := ParseTimeOfDay(w.Start).value, ParseTimeOfDay(w.End).value;
         if s <= e then s <= TimeOfDay(t) < e else s <= TimeOfDay(t)
  {
    var tod := TimeOfDay(t);
    assert t == DayOf(t) * MinutesPerDay + tod;
  }

  /** A window whose start equals its end matches nothing. */
  lemma EmptyWindowNeverMatches(t: Time, w: TimeWindow)
    requires w.Start == w.End
    ensures !MatchesTimeWindow(t, w)
  {
    MatchesTimeWindowIff(t, w);
  }

  /** An overnight window (end before start) only matches from its start up
      to midnight: the early-morning part after midnight never matches. */
  lemma OvernightWindowStopsAtMidnight(t: Time, w: TimeWindow)
    requires ParseTimeOfDay(w.Start).Some? && ParseTimeOfDay(w.End).Some?
    requires ParseTimeOfDay(w.End).value < ParseTimeOfDay(w.Start).value
    requires TimeOfDay(t) < ParseTimeOfDay(w.Start).value
    ensures !MatchesTimeWindow(t, w)
  {
    MatchesTimeWindowIff(t, w);
  }

  /** Go's isInTimeWindows: some window matches. */
  predicate InTimeWindows(t: Time, windows: seq<TimeWindow>) {
    exists i :: 0 <= i < |windows| && MatchesTimeWindow(t, windows[i])
  }

  // ---------------------------------------------------------------------
  // Constraint filter
  // ---------------------------------------------------------------------

  /** The six checks a slot must pass to be kept. */
  predicate SatisfiesConstraints(slot: PriceSlot, c: Constraints) {
    && (c.PriceCapPence.None? || slot.PencePerKWh <= c.PriceCapPence.value)
    && (|c.Allowed| == 0 || InTimeWindows(slot.Start, c.Allowed))
    && !(|c.Blocked| > 0 && InTimeWindows(slot.Start, c.Blocked))
    && !(c.NoiseLevel >= 3 && |c.QuietHours| > 0 && InTimeWindows(slot.Start, c.QuietHours))
    && (c.StartBy.None? || slot.Start <= c.StartBy.value)
    && (c.FinishBy.None? || slot.End <= c.FinishBy.value)
  }

  /** The slots that pass every check, in input order; a slot is kept
      exactly when it passes. */
  function FeasibleSlots(slots: seq<PriceSlot>, c: Constraints): (r: seq<PriceSlot>)
    ensures |r| <= |slots|
  {
    if slots == [] then []
    else
      var last := slots[|slots| - 1];
      FeasibleSlots(slots[..|slots| - 1], c) + (if SatisfiesConstraints(last, c) then [last] else [])
  }

  /** Every kept slot is an input slot that passes the checks. */
  lemma {:induction false} FeasibleSlotsSound(slots: seq<PriceSlot>, c: Constraints)
    ensures forall x :: x in FeasibleSlots(slots, c) ==> x in slots && SatisfiesConstraints(x, c)
  {
    if slots != [] {
      var front := slots[..|slots| - 1];
      FeasibleSlotsSound(front, c);
      SliceMembers(slots, 0, |slots| - 1);
      assert slots[0..|slots| - 1] == front;
    }
  }

  /** Every input slot that passes the checks is kept. */
  lemma {:induction false} FeasibleSlotsComplete(slots: seq<PriceSlot>, c: Constraints)
    ensures forall i :: 0 <= i < |slots| && SatisfiesConstraints(slots[i], c) ==> slots[i] in FeasibleSlots(slots, c)
  {
    if slots != [] {
      var front := slots[..|slots| - 1];
      FeasibleSlotsComplete(front, c);
      forall i | 0 <= i < |slots| - 1 && SatisfiesConstraints(slots[i], c)
        ensures slots[i] in FeasibleSlots(slots, c)
      {
        assert slots[i] == front[i];
      }
    }
  }

  /** r can be obtained from s by deleting elements. */
  ghost predicate IsSubsequence<T>(r: seq<T>, s: seq<T>)
    decreases |s|
  {
    if r == [] then true
    else if s == [] then false
    else
      (r[|r| - 1] == s[|s| - 1] && IsSubsequence(r[..|r| - 1], s[..|s| - 1]))
      || IsSubsequence(r, s[..|s| - 1])
  }

  /** Filtering keeps the input order. */
  lemma {:induction false} FeasibleSlotsIsSubsequence(slots: seq<PriceSlot>, c: Constraints)
    ensures IsSubsequence(FeasibleSlots(slots, c), slots)
  {
    if slots != [] {
      var front := slots[..|slots| - 1];
      FeasibleSlotsIsSubsequence(front, c);
      var r := FeasibleSlots(slots, c);
      if SatisfiesConstraints(slots[|slots| - 1], c) {
        assert r[..|r| - 1] == FeasibleSlots(front, c);
      } else {
        assert r == FeasibleSlots(front, c);
        if r != [] {
          assert IsSubsequence(r, front);
        }
      }
    }
  }

  /** A sequence whose every slot passes the checks is kept whole. */
  lemma {:induction false} FeasibleSlotsKeepsAll(slots: seq<PriceSlot>, c: Constraints)
    requires forall x :: x in slots ==> SatisfiesConstraints(x, c)
    ensures FeasibleSlots(slots, c) == slots
  {
    if slots != [] {
      var front := slots[..|slots| - 1];
      FeasibleSlotsKeepsAll(front, c);
      assert front + [slots[|slots| - 1]] == slots;
    }
  }

  /** Filtering twice with the same constraints is filtering once. */
  lemma FeasibleSlotsIdempotent(slots: seq<PriceSlot>, c: Constraints)
    ensures FeasibleSlots(FeasibleSlots(slots, c), c) == FeasibleSlots(slots, c)
  {
    FeasibleSlotsSound(slots, c);
    FeasibleSlotsKeepsAll(FeasibleSlots(slots, c), c);
  }

  /** The zero constraints keep every slot. */
  lemma NoConstraintsKeepAll(slots: seq<PriceSlot>)
    ensures FeasibleSlots(slots, NoConstraints) == slots
  {
    FeasibleSlotsKeepsAll(slots, NoConstraints);
  }

  /** The filter as the Go code runs it: a loop that appends every slot that
      survives the checks. */
  method FilterByConstraints(slots: seq<PriceSlot>, c: Constraints) returns (result: seq<PriceSlot>)
    ensures result == FeasibleSlots(slots, c)
  {
    result := [];
    var i := 0;
    while i < |slots|
      invariant 0 <= i <= |slots|
      invariant result == FeasibleSlots(slots[..i], c)
    {
      var slot := slots[i];
      assert slots[..i + 1][..i] == slots[..i];
      i := i + 1;
      if c.PriceCapPence.Some? && slot.PencePerKWh > c.PriceCapPence.value {
        continue;
      }
      if |c.Allowed| > 0 && !InTimeWindows(slot.Start, c.Allowed) {
        continue;
      }
      if |c.Blocked| > 0 && InTimeWindows(slot.Start, c.Blocked) {
        continue;
      }
      if c.NoiseLevel >= 3 && |c.QuietHours| > 0 && InTimeWindows(slot.Start, c.QuietHours) {
        continue;
      }
      if c.StartBy.Some? && slot.Start > c.StartBy.value {
        continue;
      }
      if c.FinishBy.Some? && slot.End > c.FinishBy.value {
        continue;
      }
      result := result + [slot];
    }
    assert slots[..i] == slots;
  }

  // ---------------------------------------------------------------------
  // Windows and their cost
  // ---------------------------------------------------------------------

  /** Go's isContiguous: each slot starts where the previous one ends. */
  predicate IsContiguous(w: seq<PriceSlot>) {
    forall i :: 1 <= i < |w| ==> w[i].Start == w[i - 1].End
  }

  predicate IsHalfHour(slot: PriceSlot) {
    slot.End == slot.Start + SlotMinutes
  }

  /** A contiguous run of half-hour slots spans 30 minutes per slot. */
  lemma {:induction false} ContiguousSpan(w: seq<PriceSlot>)
    requires |w| > 0 && IsContiguous(w)
    requires forall x :: x in w ==> IsHalfHour(x)
    ensures w[|w| - 1].End - w[0].Start == SlotMinutes * |w|
  {
    if |w| > 1 {
      ContiguousSpan(w[..|w| - 1]);
      assert w[|w| - 1].Start == w[|w| - 2].End;
      assert IsHalfHour(w[|w| - 1]);
    } else {
      assert IsHalfHour(w[0]);
    }
  }

  /** The number of half-hour slots a run needs: ceil(runMinutes / 30). */
  function RequiredSlots(runMinutes: int): (n: int)
    requires runMinutes > 0
    ensures n >= 1
    ensures SlotMinutes * (n - 1) < runMinutes <= SlotMinutes * n
  {
    (runMinutes + SlotMinutes - 1) / SlotMinutes
  }

  /** topN <= 0 means 3. */
  function EffectiveTopN(topN: int): (n: int)
    ensures n >= 1
    ensures topN > 0 ==> n == topN
    ensures topN <= 0 ==> n == 3
  {
    if topN <= 0 then 3 else topN
  }

  /** Pence for a run: each slot's price times its share of the energy. */
  function WindowCost(w: seq<PriceSlot>, kwhPerSlot: real): real {
    if w == [] then 0.0
    else WindowCost(w[..|w| - 1], kwhPerSlot) + w[|w| - 1].PencePerKWh * kwhPerSlot
  }

  lemma WindowCostStep(w: seq<PriceSlot>, k: int, kwhPerSlot: real)
    requires 0 <= k < |w|
    ensures WindowCost(w[..k + 1], kwhPerSlot) == WindowCost(w[..k], kwhPerSlot) + w[k].PencePerKWh * kwhPerSlot
  {
    assert w[..k + 1][..k] == w[..k];
  }

  /** The sum of a run's prices. */
  function PriceSum(w: seq<PriceSlot>): real {
    if w == [] then 0.0 else PriceSum(w[..|w| - 1]) + w[|w| - 1].PencePerKWh
  }

  /** Splitting the energy evenly makes the cost the share times the summed price. */
  lemma {:induction false} WindowCostIsShareOfSum(w: seq<PriceSlot>, kwhPerSlot: real)
    ensures WindowCost(w, kwhPerSlot) == kwhPerSlot * PriceSum(w)
  {
    if w != [] {
      WindowCostIsShareOfSum(w[..|w| - 1], kwhPerSlot);
    }
  }

  // ---------------------------------------------------------------------
  // Reason: the percentile band
  // ---------------------------------------------------------------------

  function PriceOf(p: real): real { p }

  function PricesOf(slots: seq<PriceSlot>): (r: seq<real>)
    ensures |r| == |slots|
    ensures forall i :: 0 <= i < |slots| ==> r[i] == slots[i].PencePerKWh
  {
    seq(|slots|, i requires 0 <= i < |slots| => slots[i].PencePerKWh)
  }

  /** How many prices lie strictly below avg. */
  function CountBelow(s: seq<real>, avg: real): (n: nat)
    ensures n <= |s|
  {
    if s == [] then 0
    else CountBelow(s[..|s| - 1], avg) + (if s[|s| - 1] < avg then 1 else 0)
  }

  /** Where avg falls among the prices: the share of prices strictly below
      it, or 0 when every price is below it (the scan of the sorted prices
      then finds no price at least avg and leaves the percentile at 0). */
  function Percentile(prices: seq<real>, avg: real): real {
    var below := CountBelow(prices, avg);
    if below < |prices| then below as real / |prices| as real else 0.0
  }

  function Band(percentile: real): Reason {
    if percentile < 0.2 then Excellent(percentile)
    else if percentile < 0.4 then Good(percentile)
    else if percentile < 0.6 then Moderate
    else Higher(percentile)
  }

  /** Go's generateReason: the band of totalPence / windowLen among the
      prices of all slots of the unfiltered input. */
  function ReasonFor(windowLen: int, totalPence: real, allSlots: seq<PriceSlot>): Reason
    requires windowLen > 0
  {
    Band(Percentile(PricesOf(allSlots), totalPence / windowLen as real))
  }

  lemma {:induction false} CountBelowAppend(a: seq<real>, b: seq<real>, avg: real)
    ensures CountBelow(a + b, avg) == CountBelow(a, avg) + CountBelow(b, avg)
  {
    if b != [] {
      CountBelowAppend(a, b[..|b| - 1], avg);
      assert (a + b)[..|a + b| - 1] == a + b[..|b| - 1];
    } else {
      assert a + b == a;
    }
  }

  /** Taking out the element at k removes it from the multiset and from the count. */
  lemma RemoveAt(t: seq<real>, k: int, avg: real)
    requires 0 <= k < |t|
    ensures multiset(t[..k] + t[k + 1..]) == multiset(t) - multiset{t[k]}
    ensures CountBelow(t, avg) == CountBelow(t[..k] + t[k + 1..], avg) + (if t[k] < avg then 1 else 0)
  {
    var x := t[k];
    assert t == t[..k] + ([x] + t[k + 1..]);
    assert multiset(t) == multiset(t[..k]) + multiset{x} + multiset(t[k + 1..]);
    CountBelowAppend(t[..k], [x] + t[k + 1..], avg);
    CountBelowAppend([x], t[k + 1..], avg);
    CountBelowAppend(t[..k], t[k + 1..], avg);
    assert [x][..0] == [];
  }

  /** The count below avg does not depend on the order of the prices. */
  lemma {:induction false} CountBelowPermutation(s: seq<real>, t: seq<real>, avg: real)
    requires multiset(s) == multiset(t)
    ensures CountBelow(s, avg) == CountBelow(t, avg)
    decreases |s|
  {
    if s == [] {
      assert |t| == |multiset(t)| == 0;
    } else {
      var x := s[|s| - 1];
      var front := s[..|s| - 1];
      assert s == front + [x];
      assert multiset(front) == multiset(s) - multiset{x};
      assert x in multiset(t);
      var k :| 0 <= k < |t| && t[k] == x;
      RemoveAt(t, k, avg);
      CountBelowPermutation(front, t[..k] + t[k + 1..], avg);
    }
  }

  /** In a sorted sequence, when the first element at least avg is at
      index i, exactly i elements lie below avg. */
  lemma FirstAtLeastCounts(s: seq<real>, avg: real, i: int)
    requires SortedBy(s, PriceOf)
    requires 0 <= i < |s| && avg <= s[i]
    requires forall j :: 0 <= j < i ==> s[j] < avg
    ensures CountBelow(s, avg) == i
  {
    var lo, hi := s[..i], s[i..];
    assert s == lo + hi;
    forall j | 0 <= j < |hi| ensures avg <= hi[j] {
      assert hi[j] == s[i + j];
      assert PriceOf(s[i]) <= PriceOf(s[i + j]);
    }
    CountBelowAppend(lo, hi, avg);
    CountAllBelow(lo, avg);
    CountNoneBelow(hi, avg);
  }

  lemma {:induction false} CountAllBelow(s: seq<real>, avg: real)
    requires forall j :: 0 <= j < |s| ==> s[j] < avg
    ensures CountBelow(s, avg) == |s|
  {
    if s != [] {
      CountAllBelow(s[..|s| - 1], avg);
    }
  }

  lemma {:induction false} CountNoneBelow(s: seq<real>, avg: real)
    requires forall j :: 0 <= j < |s| ==> avg <= s[j]
    ensures CountBelow(s, avg) == 0
  {
    if s != [] {
      CountNoneBelow(s[..|s| - 1], avg);
    }
  }

  /** The percentile always lies in [0, 1). */
  lemma PercentileBounds(prices: seq<real>, avg: real)
    ensures 0.0 <= Percentile(prices, avg) < 1.0
  {
    var below := CountBelow(prices, avg);
    if below < |prices| {
      var q := below as real / |prices| as real;
      assert q * |prices| as real == below as real;
    }
  }

  /** The percentile read off any sorted arrangement of the prices, as
      generateReason does: the index of the first price at least avg over
      the number of prices, or 0 when there is no such price. */
  lemma PercentileFromSorted(prices: seq<real>, sorted: seq<real>, avg: real)
    requires SortedBy(sorted, PriceOf) && multiset(sorted) == multiset(prices)
    ensures forall i :: 0 <= i < |sorted| && avg <= sorted[i] && (forall j :: 0 <= j < i ==> sorted[j] < avg) ==>
      Percentile(prices, avg) == i as real / |prices| as real
    ensures (forall j :: 0 <= j < |sorted| ==> sorted[j] < avg) ==> Percentile(prices, avg) == 0.0
  {
    CountBelowPermutation(sorted, prices, avg);
    assert |sorted| == |multiset(sorted)| == |prices|;
    forall i | 0 <= i < |sorted| && avg <= sorted[i] && (forall j :: 0 <= j < i ==> sorted[j] < avg)
      ensures Percentile(prices, avg) == i as real / |prices| as real
    {
      FirstAtLeastCounts(sorted, avg, i);
    }
    if forall j :: 0 <= j < |sorted| ==> sorted[j] < avg {
      CountAllBelow(sorted, avg);
    }
  }

  /** A run whose ranked value (its pence per slot) exceeds every price of
      the day falls through to percentile 0 and is labelled excellent. */
  lemma PenceAboveEveryPriceIsExcellent(windowLen: int, totalPence: real, allSlots: seq<PriceSlot>)
    requires windowLen > 0
    requires forall x :: x in allSlots ==> x.PencePerKWh < totalPence / windowLen as real
    ensures ReasonFor(windowLen, totalPence, allSlots) == Excellent(0.0)
  {
    var prices := PricesOf(allSlots);
    forall j | 0 <= j < |prices| ensures prices[j] < totalPence / windowLen as real {
      assert allSlots[j] in allSlots;
    }
    CountAllBelow(prices, totalPence / windowLen as real);
  }

  /** The scan of generateReason: fill the price array, sort it, and take
      the position of the first price at least the average. */
  method GenerateReason(windowLen: int, totalPence: real, allSlots: seq<PriceSlot>) returns (reason: Reason)
    requires windowLen > 0
    ensures reason == ReasonFor(windowLen, totalPence, allSlots)
  {
    var allPrices := new real[|allSlots|];
    var i := 0;
    while i < |allSlots|
      invariant 0 <= i <= |allSlots|
      invariant forall j :: 0 <= j < i ==> allPrices[j] == allSlots[j].PencePerKWh
    {
      allPrices[i] := allSlots[i].PencePerKWh;
      i := i + 1;
    }
    assert allPrices[..] == PricesOf(allSlots);
    var sorted := SortBy(allPrices[..], PriceOf);
    var avg := totalPence / windowLen as real;
    var percentile := 0.0;
    i := 0;
    while i < |sorted|
      invariant 0 <= i <= |sorted|
      invariant forall j :: 0 <= j < i ==> sorted[j] < avg
      invariant percentile == 0.0
    {
      if avg <= sorted[i] {
        percentile := i as real / |sorted| as real;
        break;
      }
      i := i + 1;
    }
    PercentileFromSorted(allPrices[..], sorted, avg);
    reason := Band(percentile);
  }

  // ---------------------------------------------------------------------
  // Candidate windows and the search
  // ---------------------------------------------------------------------

  /** The run of n slots starting at i. */
  function Window(f: seq<PriceSlot>, i: int, n: int): seq<PriceSlot>
    requires 0 <= i && 0 <= n && i + n <= |f|
  {
    f[i..i + n]
  }

  /** The recommendation built from one run of slots. */
  function MakeRecommendation(w: seq<PriceSlot>, kwhPerSlot: real, allSlots: seq<PriceSlot>): Recommendation
    requires |w| > 0
  {
    var totalPence := WindowCost(w, kwhPerSlot);
    Recommendation(w[0].Start, w[|w| - 1].End, totalPence / 100.0, ReasonFor(|w|, totalPence, allSlots), totalPence)
  }

  /** The value generateReason ranks a run by: its pence per slot. */
  function RankedValue(w: seq<PriceSlot>, kwhPerSlot: real): real
    requires |w| > 0
  {
    WindowCost(w, kwhPerSlot) / |w| as real
  }

  /** generateReason bands a run by its pence per slot, which is the
      per-slot energy times the run's mean price, not the mean price itself. */
  lemma RankedValueIsShareTimesMean(w: seq<PriceSlot>, kwhPerSlot: real)
    requires |w| > 0
    ensures RankedValue(w, kwhPerSlot) == kwhPerSlot * (PriceSum(w) / |w| as real)
  {
    WindowCostIsShareOfSum(w, kwhPerSlot);
    ShareOfMean(WindowCost(w, kwhPerSlot), kwhPerSlot, PriceSum(w), |w| as real);
  }

  /** A recommendation's reason is the band of its ranked value among all prices. */
  lemma ReasonIsBandOfRankedValue(w: seq<PriceSlot>, kwhPerSlot: real, allSlots: seq<PriceSlot>)
    requires |w| > 0
    ensures MakeRecommendation(w, kwhPerSlot, allSlots).Reason == Band(Percentile(PricesOf(allSlots), RankedValue(w, kwhPerSlot)))
  {
  }

  /** A recommendation's reason is the band, among all prices, of the
      per-slot energy times the run's mean price. */
  lemma ReasonRanksShareTimesMean(w: seq<PriceSlot>, kwhPerSlot: real, allSlots: seq<PriceSlot>)
    requires |w| > 0
    ensures MakeRecommendation(w, kwhPerSlot, allSlots).Reason ==
      Band(Percentile(PricesOf(allSlots), kwhPerSlot * (PriceSum(w) / |w| as real)))
  {
    ReasonIsBandOfRankedValue(w, kwhPerSlot, allSlots);
    RankedValueIsShareTimesMean(w, kwhPerSlot);
  }

  /** total / n is the share times the mean when total is the share times the sum. */
  lemma ShareOfMean(total: real, share: real, sum: real, n: real)
    requires n > 0.0 && total == share * sum
    ensures total / n == share * (sum / n)
  {
    assert (sum / n) * n == sum;
  }

  /** Because the ranked value scales with the energy, a 5 kWh half-hour run
      in the cheapest of five slots priced 10p to 50p is banded "higher":
      its 50p per slot is not below any price but the four cheaper ones. */
  lemma EnergyScalesBand()
    ensures var all := [PriceSlot(0, 30, 10.0, false), PriceSlot(30, 60, 20.0, false), PriceSlot(60, 90, 30.0, false),
                        PriceSlot(90, 120, 40.0, false), PriceSlot(120, 150, 50.0, false)];
      MakeRecommendation(all[..1], 5.0, all).Reason == Higher(0.8)
  {
    var all := [PriceSlot(0, 30, 10.0, false), PriceSlot(30, 60, 20.0, false), PriceSlot(60, 90, 30.0, false),
                PriceSlot(90, 120, 40.0, false), PriceSlot(120, 150, 50.0, false)];
    var w := all[..1];
    assert w[..0] == [];
    assert WindowCost(w, 5.0) == 50.0;
    var p := PricesOf(all);
    assert p == [10.0, 20.0, 30.0, 40.0, 50.0];
    assert p[..4][..3][..2][..1][..0] == [];
    assert CountBelow(p[..1], 50.0) == 1;
    assert CountBelow(p[..2], 50.0) == 2 by { assert p[..2][..1] == p[..1]; }
    assert CountBelow(p[..3], 50.0) == 3 by { assert p[..3][..2] == p[..2]; }
    assert CountBelow(p[..4], 50.0) == 4 by { assert p[..4][..3] == p[..3]; }
    assert CountBelow(p, 50.0) == 4 by { assert p[..|p| - 1] == p[..4]; }
  }

  /** rec is the recommendation of some contiguous run of n feasible slots. */
  ghost predicate IsWindowOf(rec: Recommendation, f: seq<PriceSlot>, n: int, kwhPerSlot: real, allSlots: seq<PriceSlot>)
    requires n >= 1
  {
    exists i :: 0 <= i && i + n <= |f| && IsContiguous(Window(f, i, n))
      && rec == MakeRecommendation(Window(f, i, n), kwhPerSlot, allSlots)
  }

  /** The recommendations of the contiguous runs starting before k, in
      order of their start index. */
  function Candidates(f: seq<PriceSlot>, n: int, kwhPerSlot: real, allSlots: seq<PriceSlot>, k: int): (r: seq<Recommendation>)
    requires n >= 1 && 0 <= k && k + n <= |f| + 1
    ensures |r| <= k
  {
    if k == 0 then []
    else
      var w := Window(f, k - 1, n);
      Candidates(f, n, kwhPerSlot, allSlots, k - 1)
        + (if IsContiguous(w) then [MakeRecommendation(w, kwhPerSlot, allSlots)] else [])
  }

  /** Every candidate is the recommendation of a contiguous run. */
  lemma {:induction false} CandidatesSound(f: seq<PriceSlot>, n: int, kwhPerSlot: real, allSlots: seq<PriceSlot>, k: int)
    requires n >= 1 && 0 <= k && k + n <= |f| + 1
    ensures forall x :: x in Candidates(f, n, kwhPerSlot, allSlots, k) ==> IsWindowOf(x, f, n, kwhPerSlot, allSlots)
  {
    if k > 0 {
      CandidatesSound(f, n, kwhPerSlot, allSlots, k - 1);
      var w := Window(f, k - 1, n);
      if IsContiguous(w) {
        assert IsWindowOf(MakeRecommendation(w, kwhPerSlot, allSlots), f, n, kwhPerSlot, allSlots);
      }
    }
  }

  /** Every contiguous run starting before k has its candidate. */
  lemma {:induction false} CandidatesComplete(f: seq<PriceSlot>, n: int, kwhPerSlot: real, allSlots: seq<PriceSlot>, k: int)
    requires n >= 1 && 0 <= k && k + n <= |f| + 1
    ensures forall i :: 0 <= i < k && IsContiguous(Window(f, i, n)) ==>
      MakeRecommendation(Window(f, i, n), kwhPerSlot, allSlots) in Candidates(f, n, kwhPerSlot, allSlots, k)
  {
    if k > 0 {
      CandidatesComplete(f, n, kwhPerSlot, allSlots, k - 1);
    }
  }

  lemma CandidatesStep(f: seq<PriceSlot>, n: int, kwhPerSlot: real, allSlots: seq<PriceSlot>, k: int)
    requires n >= 1 && 0 <= k && k + n <= |f|
    ensures Candidates(f, n, kwhPerSlot, allSlots, k + 1) ==
      Candidates(f, n, kwhPerSlot, allSlots, k)
        + (if IsContiguous(f[k..k + n]) then [MakeRecommendation(f[k..k + n], kwhPerSlot, allSlots)] else [])
  {
  }

  function ScoreOf(r: Recommendation): real { r.Score }

  /** Every candidate of the search: one per contiguous run of the required
      number of feasible slots. */
  function AllCandidates(slots: seq<PriceSlot>, runMinutes: int, c: Constraints, opts: Options): seq<Recommendation>
    requires runMinutes > 0
  {
    var n := RequiredSlots(runMinutes);
    var f := FeasibleSlots(slots, c);
    if |f| < n then [] else Candidates(f, n, opts.EstKWh / n as real, slots, |f| - n + 1)
  }

  /** What BestWindows returns: the cheapest topN candidates, ascending by score. */
  function TopWindows(slots: seq<PriceSlot>, runMinutes: int, c: Constraints, opts: Options, topN: int)
    : Result<seq<Recommendation>, EngineError>
  {
    if |slots| == 0 || runMinutes <= 0 then Failure(ErrInvalidInput)
    else
      var cands := AllCandidates(slots, runMinutes, c, opts);
      if cands == [] then Failure(ErrNoFeasibleSlots)
      else
        var sorted := SortBy(cands, ScoreOf);
        var n := EffectiveTopN(topN);
        Success(if |sorted| > n then sorted[..n] else sorted)
  }

  /** The cost loop of BestWindows: pence for one run. */
  method RunPence(window: seq<PriceSlot>, kwhPerSlot: real) returns (totalPence: real)
    ensures totalPence == WindowCost(window, kwhPerSlot)
  {
    totalPence := 0.0;
    var k := 0;
    while k < |window|
      invariant 0 <= k <= |window|
      invariant totalPence == WindowCost(window[..k], kwhPerSlot)
    {
      WindowCostStep(window, k, kwhPerSlot);
      totalPence := totalPence + window[k].PencePerKWh * kwhPerSlot;
      k := k + 1;
    }
    assert window[..k] == window;
  }

  /** The sliding-window loop of BestWindows: one candidate per contiguous
      run of requiredSlots feasible slots, in order of start index. */
  method CollectCandidates(feasible: seq<PriceSlot>, requiredSlots: int, kwhPerSlot: real, slots: seq<PriceSlot>)
    returns (candidates: seq<Recommendation>)
    requires 1 <= requiredSlots <= |feasible|
    ensures candidates == Candidates(feasible, requiredSlots, kwhPerSlot, slots, |feasible| - requiredSlots + 1)
  {
    candidates := [];
    var i := 0;
    while i + requiredSlots <= |feasible|
      invariant 0 <= i <= |feasible| - requiredSlots + 1
      invariant candidates == Candidates(feasible, requiredSlots, kwhPerSlot, slots, i)
    {
      var window := feasible[i..i + requiredSlots];
      assert window == Window(feasible, i, requiredSlots);
      if IsContiguous(window) {
        var totalPence := RunPence(window, kwhPerSlot);
        var reason := GenerateReason(|window|, totalPence, slots);
        var rec := Recommendation(window[0].Start, window[|window| - 1].End, totalPence / 100.0, reason, totalPence);
        assert rec == MakeRecommendation(window, kwhPerSlot, slots);
        candidates := candidates + [rec];
      }
      CandidatesStep(feasible, requiredSlots, kwhPerSlot, slots, i);
      i := i + 1;
    }
  }

  /** Go's BestWindows. */
  method BestWindows(slots: seq<PriceSlot>, runMinutes: int, c: Constraints, opts: Options, topN: int)
    returns (r: Result<seq<Recommendation>, EngineError>)
    ensures r == TopWindows(slots, runMinutes, c, opts, topN)
    ensures r == Failure(ErrInvalidInput) <==> |slots| == 0 || runMinutes <= 0
  {
    if |slots| == 0 {
      return Failure(ErrInvalidInput);
    }
    if runMinutes <= 0 {
      return Failure(ErrInvalidInput);
    }
    var n := EffectiveTopN(topN);
    var requiredSlots := RequiredSlots(runMinutes);
    var feasible := FilterByConstraints(slots, c);
    if |feasible| < requiredSlots {
      return Failure(ErrNoFeasibleSlots);
    }
    var kwhPerSlot := opts.EstKWh / requiredSlots as real;
    var candidates := CollectCandidates(feasible, requiredSlots, kwhPerSlot, slots);
    assert candidates == AllCandidates(slots, runMinutes, c, opts);
    if |candidates| == 0 {
      return Failure(ErrNoFeasibleSlots);
    }
    var sorted := SortBy(candidates, ScoreOf);
    if |sorted| > n {
      sorted := sorted[..n];
    }
    return Success(sorted);
  }

  // ---------------------------------------------------------------------
  // What the search promises
  // ---------------------------------------------------------------------

  /** The search fails for lack of feasible slots exactly when no run of
      the required length in the filtered list is contiguous. */
  lemma TopWindowsNoFeasible(slots: seq<PriceSlot>, runMinutes: int, c: Constraints, opts: Options, topN: int)
    requires |slots| > 0 && runMinutes > 0
    ensures TopWindows(slots, runMinutes, c, opts, topN) == Failure(ErrNoFeasibleSlots) <==>
      forall i :: 0 <= i && i + RequiredSlots(runMinutes) <= |FeasibleSlots(slots, c)| ==>
        !IsContiguous(Window(FeasibleSlots(slots, c), i, RequiredSlots(runMinutes)))
  {
    var n := RequiredSlots(runMinutes);
    var f := FeasibleSlots(slots, c);
    var cands := AllCandidates(slots, runMinutes, c, opts);
    if cands != [] {
      AllCandidatesSound(slots, runMinutes, c, opts);
      assert cands[0] in cands;
    }
    if exists i :: 0 <= i && i + n <= |f| && IsContiguous(Window(f, i, n)) {
      var i :| 0 <= i && i + n <= |f| && IsContiguous(Window(f, i, n));
      AllCandidatesComplete(slots, runMinutes, c, opts, i);
    }
  }

  /** Every candidate of the search is the recommendation of a contiguous
      run of the required length in the filtered list. */
  lemma AllCandidatesSound(slots: seq<PriceSlot>, runMinutes: int, c: Constraints, opts: Options)
    requires runMinutes > 0
    ensures forall x :: x in AllCandidates(slots, runMinutes, c, opts) ==>
      IsWindowOf(x, FeasibleSlots(slots, c), RequiredSlots(runMinutes), opts.EstKWh / RequiredSlots(runMinutes) as real, slots)
  {
    var n := RequiredSlots(runMinutes);
    var f := FeasibleSlots(slots, c);
    if |f| >= n {
      CandidatesSound(f, n, opts.EstKWh / n as real, slots, |f| - n + 1);
    }
  }

  /** A successful search returns min(topN, #candidates) candidates in
      ascending score order, and none of the candidates it leaves out is
      cheaper than one it returns. */
  lemma TopWindowsRanked(slots: seq<PriceSlot>, runMinutes: int, c: Constraints, opts: Options, topN: int)
    requires TopWindows(slots, runMinutes, c, opts, topN).Success?
    ensures runMinutes > 0
    ensures var recs, cands := TopWindows(slots, runMinutes, c, opts, topN).value, AllCandidates(slots, runMinutes, c, opts);
      && 1 <= |recs| <= EffectiveTopN(topN)
      && |recs| == (if |cands| < EffectiveTopN(topN) then |cands| else EffectiveTopN(topN))
      && SortedBy(recs, ScoreOf)
      && multiset(recs) <= multiset(cands)
      && forall x, y :: x in recs && y in multiset(cands) - multiset(recs) ==> x.Score <= y.Score
  {
    var cands := AllCandidates(slots, runMinutes, c, opts);
    var sorted := SortBy(cands, ScoreOf);
    var n := EffectiveTopN(topN);
    var m := if |sorted| > n then n else |sorted|;
    var recs := TopWindows(slots, runMinutes, c, opts, topN).value;
    assert recs == sorted[..m];
    ScorePrefix(cands, m);
    ScorePrefixLeast(cands, m);
  }

  /** The first m candidates in score order are sorted and are drawn from
      the candidates. */
  lemma ScorePrefix(cands: seq<Recommendation>, m: nat)
    requires m <= |cands|
    ensures SortedBy(SortBy(cands, ScoreOf)[..m], ScoreOf)
    ensures multiset(SortBy(cands, ScoreOf)[..m]) <= multiset(cands)
  {
    var sorted := SortBy(cands, ScoreOf);
    SortedPrefix(sorted, ScoreOf, m);
    PrefixSubMultiset(sorted, m);
  }

  /** No candidate left out of the first m in score order scores lower than
      one of them. */
  lemma ScorePrefixLeast(cands: seq<Recommendation>, m: nat)
    requires m <= |cands|
    ensures forall x, y :: x in SortBy(cands, ScoreOf)[..m] && y in multiset(cands) - multiset(SortBy(cands, ScoreOf)[..m]) ==>
      x.Score <= y.Score
  {
    var sorted := SortBy(cands, ScoreOf);
    forall x, y | x in sorted[..m] && y in multiset(cands) - multiset(sorted[..m]) ensures x.Score <= y.Score {
      PrefixDominates(sorted, ScoreOf, m, x, y);
    }
  }

  /** Every returned recommendation is that of a contiguous run of exactly
      RequiredSlots(runMinutes) consecutive slots of the filtered list. */
  lemma TopWindowsAreRuns(slots: seq<PriceSlot>, runMinutes: int, c: Constraints, opts: Options, topN: int)
    requires TopWindows(slots, runMinutes, c, opts, topN).Success?
    ensures runMinutes > 0
    ensures forall rec :: rec in TopWindows(slots, runMinutes, c, opts, topN).value ==>
      IsWindowOf(rec, FeasibleSlots(slots, c), RequiredSlots(runMinutes), opts.EstKWh / RequiredSlots(runMinutes) as real, slots)
  {
    TopWindowsRanked(slots, runMinutes, c, opts, topN);
    var recs := TopWindows(slots, runMinutes, c, opts, topN).value;
    var cands := AllCandidates(slots, runMinutes, c, opts);
    AllCandidatesSound(slots, runMinutes, c, opts);
    forall rec | rec in recs
      ensures IsWindowOf(rec, FeasibleSlots(slots, c), RequiredSlots(runMinutes), opts.EstKWh / RequiredSlots(runMinutes) as real, slots)
    {
      assert rec in multiset(recs);
      assert rec in multiset(cands);
      assert rec in cands;
    }
  }

  /** The recommendation of one run: it costs Score / 100 pounds, its score
      is the price of each slot times an equal share of the energy, and a
      contiguous run of half-hour slots lasts 30 minutes per slot. */
  lemma MakeRecommendationFacts(w: seq<PriceSlot>, kwhPerSlot: real, allSlots: seq<PriceSlot>)
    requires |w| > 0
    ensures var rec := MakeRecommendation(w, kwhPerSlot, allSlots);
      && rec.CostGBP == rec.Score / 100.0
      && rec.Score == kwhPerSlot * PriceSum(w)
      && rec.Start == w[0].Start && rec.End == w[|w| - 1].End
      && (IsContiguous(w) && (forall x :: x in w ==> IsHalfHour(x)) ==> rec.End - rec.Start == SlotMinutes * |w|)
  {
    WindowCostIsShareOfSum(w, kwhPerSlot);
    if IsContiguous(w) && (forall x :: x in w ==> IsHalfHour(x)) {
      ContiguousSpan(w);
    }
  }

  /** w is a contiguous run of n input slots that all pass the constraints. */
  ghost predicate IsFeasibleRun(w: seq<PriceSlot>, slots: seq<PriceSlot>, c: Constraints, n: int) {
    && |w| == n
    && IsContiguous(w)
    && forall x :: x in w ==> x in slots && SatisfiesConstraints(x, c)
  }

  /** What a returned recommendation stands for: a contiguous run of
      RequiredSlots(runMinutes) input slots that all pass the constraints,
      costed as above; with half-hour slots it lasts at least runMinutes. */
  lemma RunRecommendationFacts(rec: Recommendation, slots: seq<PriceSlot>, runMinutes: int, c: Constraints, opts: Options)
    returns (w: seq<PriceSlot>)
    requires runMinutes > 0
    requires IsWindowOf(rec, FeasibleSlots(slots, c), RequiredSlots(runMinutes), opts.EstKWh / RequiredSlots(runMinutes) as real, slots)
    ensures rec.CostGBP == rec.Score / 100.0
    ensures IsFeasibleRun(w, slots, c, RequiredSlots(runMinutes))
    ensures rec.Start == w[0].Start && rec.End == w[|w| - 1].End
    ensures rec.Score == (opts.EstKWh / RequiredSlots(runMinutes) as real) * PriceSum(w)
    ensures (forall x :: x in slots ==> IsHalfHour(x)) ==>
      rec.End - rec.Start == SlotMinutes * RequiredSlots(runMinutes) >= runMinutes
  {
    var n := RequiredSlots(runMinutes);
    var f := FeasibleSlots(slots, c);
    FeasibleSlotsSound(slots, c);
    w := RunOfFiltered(rec, f, slots, c, n, opts.EstKWh / n as real);
  }

  /** The same facts for any list f of feasible input slots. */
  lemma RunOfFiltered(rec: Recommendation, f: seq<PriceSlot>, slots: seq<PriceSlot>, c: Constraints, n: int, share: real)
    returns (w: seq<PriceSlot>)
    requires n >= 1
    requires forall x :: x in f ==> x in slots && SatisfiesConstraints(x, c)
    requires IsWindowOf(rec, f, n, share, slots)
    ensures rec.CostGBP == rec.Score / 100.0
    ensures IsFeasibleRun(w, slots, c, n)
    ensures rec.Start == w[0].Start && rec.End == w[|w| - 1].End
    ensures rec.Score == share * PriceSum(w)
    ensures (forall x :: x in slots ==> IsHalfHour(x)) ==> rec.End - rec.Start == SlotMinutes * n
  {
    var i := PickWindow(rec, f, n, share, slots);
    w := f[i..i + n];
    MakeRecommendationFacts(w, share, slots);
    SliceMembers(f, i, i + n);
  }

  lemma SliceMembers<T>(f: seq<T>, lo: int, hi: int)
    requires 0 <= lo <= hi <= |f|
    ensures forall x :: x in f[lo..hi] ==> x in f
  {
    forall x | x in f[lo..hi] ensures x in f {
      var j :| 0 <= j < hi - lo && f[lo..hi][j] == x;
      assert f[lo + j] == x;
    }
  }

  /** The start index of the run a window recommendation was built from. */
  lemma PickWindow(rec: Recommendation, f: seq<PriceSlot>, n: int, kwhPerSlot: real, allSlots: seq<PriceSlot>)
    returns (i: int)
    requires n >= 1
    requires IsWindowOf(rec, f, n, kwhPerSlot, allSlots)
    ensures 0 <= i && i + n <= |f| && IsContiguous(f[i..i + n])
    ensures rec == MakeRecommendation(f[i..i + n], kwhPerSlot, allSlots)
  {
    i :| 0 <= i && i + n <= |f| && IsContiguous(Window(f, i, n)) && rec == MakeRecommendation(Window(f, i, n), kwhPerSlot, allSlots);
  }

  /** Every contiguous run of the required length in the filtered list is
      among the candidates of the search. */
  lemma AllCandidatesComplete(slots: seq<PriceSlot>, runMinutes: int, c: Constraints, opts: Options, i: int)
    requires runMinutes > 0
    requires 0 <= i && i + RequiredSlots(runMinutes) <= |FeasibleSlots(slots, c)|
    requires IsContiguous(Window(FeasibleSlots(slots, c), i, RequiredSlots(runMinutes)))
    ensures MakeRecommendation(Window(FeasibleSlots(slots, c), i, RequiredSlots(runMinutes)),
      opts.EstKWh / RequiredSlots(runMinutes) as real, slots) in AllCandidates(slots, runMinutes, c, opts)
  {
    var n := RequiredSlots(runMinutes);
    var f := FeasibleSlots(slots, c);
    var share := opts.EstKWh / n as real;
    var k := |f| - n + 1;
    CandidatesComplete(f, n, share, slots, k);
    assert MakeRecommendation(Window(f, i, n), share, slots) in Candidates(f, n, share, slots, k);
    assert AllCandidates(slots, runMinutes, c, opts) == Candidates(f, n, share, slots, k);
  }

  /** The first recommendation is the cheapest contiguous run of the
      required length in the filtered list. */
  lemma TopWindowsOptimal(slots: seq<PriceSlot>, runMinutes: int, c: Constraints, opts: Options, topN: int, i: int)
    requires TopWindows(slots, runMinutes, c, opts, topN).Success?
    requires runMinutes > 0
    requires 0 <= i && i + RequiredSlots(runMinutes) <= |FeasibleSlots(slots, c)|
    requires IsContiguous(Window(FeasibleSlots(slots, c), i, RequiredSlots(runMinutes)))
    ensures TopWindows(slots, runMinutes, c, opts, topN).value[0].Score <=
      WindowCost(Window(FeasibleSlots(slots, c), i, RequiredSlots(runMinutes)), opts.EstKWh / RequiredSlots(runMinutes) as real)
  {
    var n := RequiredSlots(runMinutes);
    var share := opts.EstKWh / n as real;
    var f := FeasibleSlots(slots, c);
    var cands := AllCandidates(slots, runMinutes, c, opts);
    var rec := MakeRecommendation(Window(f, i, n), share, slots);
    AllCandidatesComplete(slots, runMinutes, c, opts, i);
    assert rec in cands;
    ScoreFirstLeast(cands, rec);
    assert TopWindows(slots, runMinutes, c, opts, topN).value[0] == SortBy(cands, ScoreOf)[0];
  }

  /** The first candidate in score order scores no higher than any candidate. */
  lemma ScoreFirstLeast(cands: seq<Recommendation>, rec: Recommendation)
    requires rec in cands
    ensures SortBy(cands, ScoreOf)[0].Score <= rec.Score
  {
    var sorted := SortBy(cands, ScoreOf);
    assert rec in multiset(sorted);
    var j :| 0 <= j < |sorted| && sorted[j] == rec;
    assert ScoreOf(sorted[0]) <= ScoreOf(sorted[j]);
  }

  /** The filter example of the Go tests: with a 20p cap, of three
      slots priced 10p, 25p and 15p the two cheaper ones remain. */
  lemma PriceCapExample()
    ensures var t0 := 20058 * MinutesPerDay + 8 * 60;
      var slots := [PriceSlot(t0, t0 + 30, 10.0, false), PriceSlot(t0 + 30, t0 + 60, 25.0, false),
                    PriceSlot(t0 + 60, t0 + 90, 15.0, false)];
      && FeasibleSlots(slots, NoConstraints.(PriceCapPence := Some(20.0))) == [slots[0], slots[2]]
      && |FeasibleSlots(slots, NoConstraints)| == 3
  {
    var t0 := 20058 * MinutesPerDay + 8 * 60;
    var slots := [PriceSlot(t0, t0 + 30, 10.0, false), PriceSlot(t0 + 30, t0 + 60, 25.0, false),
                  PriceSlot(t0 + 60, t0 + 90, 15.0, false)];
    var c := NoConstraints.(PriceCapPence := Some(20.0));
    assert slots[..1][..0] == [];
    assert FeasibleSlots(slots[..1], c) == [slots[0]];
    assert slots[..2][..1] == slots[..1];
    assert FeasibleSlots(slots[..2], c) == [slots[0]];
    assert slots[..|slots| - 1] == slots[..2];
    NoConstraintsKeepAll(slots);
  }
}
