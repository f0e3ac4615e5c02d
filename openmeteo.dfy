/** The nearest-reading lookup of internal/weather/openmeteo.go. Durations
    are differences of minutes; the returned index stands for the reference
    into the caller's slice. */
module OpenMeteo {
  import opened Types

  /** Go's absDuration. */
  function AbsDuration(d: int): (r: int)
    ensures r >= 0
    ensures r == d || r == -d
  {
    if d < 0 then -d else d
  }

  /** How far reading s lies from time t. */
  function Distance(s: WeatherSlot, t: Time): (r: int)
    ensures r >= 0
    ensures r == 0 <==> s.Time == t
  {
    AbsDuration(s.Time - t)
  }

  /** k is the reading nearest to t, and the first of the nearest ones. */
  ghost predicate IsClosest(slots: seq<WeatherSlot>, t: Time, k: int) {
    && 0 <= k < |slots|
    && (forall i :: 0 <= i < |slots| ==> Distance(slots[k], t) <= Distance(slots[i], t))
    && (forall i :: 0 <= i < k ==> Distance(slots[i], t) > Distance(slots[k], t))
  }

  /** There is at most one first-nearest reading. */
  lemma ClosestUnique(slots: seq<WeatherSlot>, t: Time, k: int, l: int)
    requires IsClosest(slots, t, k) && IsClosest(slots, t, l)
    ensures k == l
  {
    assert Distance(slots[k], t) == Distance(slots[l], t);
  }

  /** Go's GetWeatherForTime: nothing for no readings; otherwise the reading
      nearest to t, the earliest in the slice among equally near ones. */
  method GetWeatherForTime(slots: seq<WeatherSlot>, t: Time) returns (r: Option<int>)
    ensures r.None? <==> |slots| == 0
    ensures r.Some? ==> IsClosest(slots, t, r.value)
  {
    if |slots| == 0 {
      return None;
    }
    var closest := 0;
    var minDiff := AbsDuration(slots[0].Time - t);
    var i := 1;
    while i < |slots|
      invariant 1 <= i <= |slots|
      invariant 0 <= closest < i
      invariant minDiff == Distance(slots[closest], t)
      invariant forall j :: 0 <= j < i ==> minDiff <= Distance(slots[j], t)
      invariant forall j :: 0 <= j < closest ==> Distance(slots[j], t) > minDiff
    {
      var diff := AbsDuration(slots[i].Time - t);
      if diff < minDiff {
        minDiff := diff;
        closest := i;
      }
      i := i + 1;
    }
    return Some(closest);
  }

  /** A reading taken exactly at t is found when it is the first such. */
  lemma ExactReadingIsClosest(slots: seq<WeatherSlot>, t: Time, k: int)
    requires 0 <= k < |slots| && slots[k].Time == t
    requires forall i :: 0 <= i < k ==> slots[i].Time != t
    ensures IsClosest(slots, t, k)
  {
  }
}
