/** Value types shared by the scheduling engine (internal/engine/types.go),
    plus the Option/Result wrappers used for Go's nil references and error returns.

    Times are whole minutes since 1970-01-01 00:00 UTC; prices are pence per
    kWh, energy is kWh and costs are pounds, all as mathematical reals. */
module Types {

  datatype Option<+T> = None | Some(value: T)

  datatype Result<+R, +E> = Success(value: R) | Failure(error: E)

  /** A point in time, in minutes since the Unix epoch. */
  type Time = int

  const MinutesPerDay: int := 1440
  const SlotMinutes: int := 30

  /** The calendar day a time falls on (days since the epoch). */
  function DayOf(t: Time): int { t / MinutesPerDay }

  /** Minutes since midnight of the time's own day. */
  function TimeOfDay(t: Time): (m: int)
    ensures 0 <= m < MinutesPerDay
    ensures t == DayOf(t) * MinutesPerDay + m
  {
    t % MinutesPerDay
  }

  /** Go's time.Weekday: 0 is Sunday; 1970-01-01 was a Thursday (4). */
  function GoWeekday(t: Time): (w: int)
    ensures 0 <= w < 7
  {
    (DayOf(t) + 4) % 7
  }

  /** The weekday numbering the time windows use: 1 is Monday, 7 is Sunday. */
  function IsoWeekday(t: Time): (w: int)
    ensures 1 <= w <= 7
    ensures w == 7 <==> GoWeekday(t) == 0
    ensures w < 7 ==> w == GoWeekday(t)
  {
    var w := GoWeekday(t);
    if w == 0 then 7 else w
  }

  /** A half-hourly electricity price period. */
  datatype PriceSlot = PriceSlot(Start: Time, End: Time, PencePerKWh: real, IncludesVAT: bool)

  /** A weather reading at one point in time. */
  datatype WeatherSlot = WeatherSlot(Time: Time, TempC: real, Humidity: real, WindMps: real, PrecipProb: real)

  /** A daily weather summary; IsSunny means good drying conditions. */
  datatype WeatherForecast = WeatherForecast(
    Date: Time, SunshineHours: real, MaxTempC: real, MinTempC: real, PrecipProb: real, IsSunny: bool)

  /** "HH:MM" start and end, and the weekdays (1..7) it applies to; no days means every day. */
  datatype TimeWindow = TimeWindow(Start: string, End: string, DaysOfWeek: seq<int>)

  /** Scheduling constraints for one appliance; absent (nil) fields are None. */
  datatype Constraints = Constraints(
    Allowed: seq<TimeWindow>,
    Blocked: seq<TimeWindow>,
    QuietHours: seq<TimeWindow>,
    FinishBy: Option<Time>,
    StartBy: Option<Time>,
    PriceCapPence: Option<real>,
    NoiseLevel: int)

  /** The zero value `Constraints{}`. */
  const NoConstraints: Constraints := Constraints([], [], [], None, None, None, 0)

  datatype Options = Options(EstKWh: real, CarbonWeight: real, PVWeight: real)

  /** The explanation attached to a recommendation: the price band and the
      percentile it was derived from (the formatted text is not modelled).
      Unexplained is the empty text of a slot built without a reason. */
  datatype Reason =
    | Excellent(percentile: real)
    | Good(percentile: real)
    | Moderate
    | Higher(percentile: real)
    | Unexplained

  datatype Recommendation = Recommendation(Start: Time, End: Time, CostGBP: real, Reason: Reason, Score: real)

  datatype RecommendationOption = RecommendationOption(
    Day: string,
    Date: Time,
    PrimarySlot: Recommendation,
    CoupledSlot: Option<Recommendation>,
    TotalCostGBP: real,
    Weather: Option<WeatherForecast>,
    UsesNaturalDry: bool,
    SavingsVsToday: real)

  datatype SmartRecommendation = SmartRecommendation(
    ApplianceName: string, Options: seq<RecommendationOption>, BestOptionIndex: int)

  /** Go's string-typed enumerations: any string other than the named
      constants (the empty string included) is the Other variant. */
  datatype ControlType = ControlManual | ControlSmart | ControlOther

  datatype UsageFrequency = FrequencyDaily | Frequency3xWeek | FrequencyWeekly | FrequencyOnDemand | FrequencyOther

  datatype ApplianceClass = ClassStandalone | ClassCoupled | ClassWeatherDependent | ClassOther

  datatype Appliance = Appliance(
    ID: string,
    Name: string,
    CycleMinutes: int,
    ToleranceMinutes: int,
    AllowedWindows: seq<TimeWindow>,
    BlockedWindows: seq<TimeWindow>,
    FinishBy: Option<Time>,
    StartBy: Option<Time>,
    NoiseLevel: int,
    PriceCapPencePerKWh: Option<real>,
    Priority: int,
    EstKWh: real,
    Enabled: bool,
    ControlType: ControlType,
    UsageFrequency: UsageFrequency,
    Class: ApplianceClass,
    CoupledApplianceID: string,
    CanWaitDays: int)

  datatype Household = Household(
    ID: string,
    Name: string,
    Region: string,
    Latitude: real,
    Longitude: real,
    QuietHours: seq<TimeWindow>,
    BlockedWindows: seq<TimeWindow>,
    AvailableHours: seq<TimeWindow>,
    StaggerHeavyLoads: bool,
    CarbonWeight: real)
}
