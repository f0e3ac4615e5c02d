/** The practical adapter of internal/engine/practical.go: manual appliances
    may only start while somebody is around to press the button, and a
    frequency gate decides whether a recommendation is shown at all. */
module Practical {
  import opened Types
  import opened Engine

  /** The default availability for a manual appliance: 07:00 to 23:30 on
      every weekday. Only the start of a run has to fall inside it. */
  const DefaultAvailability: TimeWindow := TimeWindow("07:00", "23:30", [1, 2, 3, 4, 5, 6, 7])

  /** 07:00 and 23:30 as minutes of the day. */
  const AwakeFrom: int := 420
  const AwakeUntil: int := 1410

  /** A Constraints record shared by reference, whose fields the
      adapter overwrites in place. */
  class ConstraintsVar {
    var Allowed: seq<TimeWindow>
    var Blocked: seq<TimeWindow>
    var QuietHours: seq<TimeWindow>
    var FinishBy: Option<Time>
    var StartBy: Option<Time>
    var PriceCapPence: Option<real>
    var NoiseLevel: int

    function Value(): Constraints
      reads this
    {
      Constraints(Allowed, Blocked, QuietHours, FinishBy, StartBy, PriceCapPence, NoiseLevel)
    }

    constructor (c: Constraints)
      ensures Value() == c
    {
      Allowed := c.Allowed;
      Blocked := c.Blocked;
      QuietHours := c.QuietHours;
      FinishBy := c.FinishBy;
      StartBy := c.StartBy;
      PriceCapPence := c.PriceCapPence;
      NoiseLevel := c.NoiseLevel;
    }
  }

  /** The constraints after the adapter: only Allowed can change, and only
      for a manual appliance, which always ends up with some allowed window:
      the household's available hours when it has any. */
  function PracticalConstraints(appliance: Appliance, household: Household, c: Constraints): (r: Constraints)
    ensures r.(Allowed := c.Allowed) == c
    ensures appliance.ControlType != ControlManual ==> r == c
    ensures appliance.ControlType == ControlManual ==> |r.Allowed| > 0
    ensures appliance.ControlType == ControlManual && |household.AvailableHours| > 0 ==>
      r.Allowed == household.AvailableHours
  {
    if appliance.ControlType == ControlManual then
      if |household.AvailableHours| > 0 then c.(Allowed := household.AvailableHours)
      else c.(Allowed := [DefaultAvailability])
    else c
  }

  /** The adapter as the Go code runs it: the allowed windows of the
      pointed-to constraints are overwritten, nothing else is touched. */
  method ApplyPracticalConstraints(appliance: Appliance, household: Household, c: ConstraintsVar)
    modifies c`Allowed
    ensures c.Value() == PracticalConstraints(appliance, household, old(c.Value()))
  {
    if appliance.ControlType == ControlManual {
      if |household.AvailableHours| > 0 {
        c.Allowed := household.AvailableHours;
      } else {
        c.Allowed := [DefaultAvailability];
      }
    }
  }

  /** Applying the adapter a second time changes nothing. */
  lemma PracticalIdempotent(appliance: Appliance, household: Household, c: Constraints)
    ensures PracticalConstraints(appliance, household, PracticalConstraints(appliance, household, c))
      == PracticalConstraints(appliance, household, c)
  {
    if appliance.ControlType == ControlManual {
      var r := PracticalConstraints(appliance, household, c);
      assert r.(Allowed := r.Allowed) == r;
    }
  }

  /** The default window admits exactly the start times from 07:00 up to,
      but not including, 23:30, on every day of the week. */
  lemma DefaultAvailabilityMatches(t: Time)
    ensures MatchesTimeWindow(t, DefaultAvailability) <==> AwakeFrom <= TimeOfDay(t) < AwakeUntil
  {
    assert ParseTimeOfDay("07:00") == Some(AwakeFrom);
    assert ParseTimeOfDay("23:30") == Some(AwakeUntil);
    assert IsoWeekday(t) in DefaultAvailability.DaysOfWeek;
    MatchesTimeWindowIff(t, DefaultAvailability);
  }

  /** With no household hours, a manual appliance's slot passes the adapted
      constraints exactly when it passes the rest of the original checks and
      starts between 07:00 and 23:30, whatever Allowed held before. */
  lemma ManualDefaultFilter(appliance: Appliance, household: Household, c: Constraints, slot: PriceSlot)
    requires appliance.ControlType == ControlManual && |household.AvailableHours| == 0
    ensures SatisfiesConstraints(slot, PracticalConstraints(appliance, household, c)) <==>
      SatisfiesConstraints(slot, c.(Allowed := [])) && AwakeFrom <= TimeOfDay(slot.Start) < AwakeUntil
  {
    var r := PracticalConstraints(appliance, household, c);
    DefaultAvailabilityMatches(slot.Start);
    assert InTimeWindows(slot.Start, r.Allowed) <==> MatchesTimeWindow(slot.Start, DefaultAvailability) by {
      assert r.Allowed == [DefaultAvailability];
      if MatchesTimeWindow(slot.Start, DefaultAvailability) {
        assert MatchesTimeWindow(slot.Start, r.Allowed[0]);
      }
    }
  }

  /** Whether to show a recommendation today: yes for daily, three-times-a-week
      and weekly appliances, no for on-demand ones and for any other value.
      The run dates are not consulted. */
  function ShouldShowRecommendation(appliance: Appliance, lastRunDate: string, currentDate: string): (r: bool)
    ensures r <==> appliance.UsageFrequency in {FrequencyDaily, Frequency3xWeek, FrequencyWeekly}
    ensures r ==> appliance.UsageFrequency != FrequencyOnDemand
  {
    match appliance.UsageFrequency
    case FrequencyDaily => true
    case Frequency3xWeek => true
    case FrequencyWeekly => true
    case FrequencyOnDemand => false
    case FrequencyOther => false
  }
}
