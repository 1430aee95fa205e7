/**
 * The crowd card: while a position is known it replaces its data with a
 * simulated reading that includes a six-hour forecast labelled on a
 * 12-hour clock, and it shows tips that depend on the crowd level and
 * trend.
 *
 * The current hour and the simulated figures are inputs.
 */
module CrowdWidget {
  import opened Wrappers
  import opened Text

  datatype Level = LowLevel | MediumLevel | HighLevel | VeryHighLevel
  datatype Trend = Increasing | Decreasing | Stable

  /** `hour % 12 || 12`: the number shown on a 12-hour clock. */
  function ClockNumber(hour: nat): (n: nat)
    ensures 1 <= n <= 12
    ensures n % 12 == hour % 12
  {
    if hour % 12 == 0 then 12 else hour % 12
  }

  /** The suffix: "AM" before noon, "PM" from noon on. */
  function Suffix(hour: nat): (s: string)
    ensures s == "AM" <==> hour < 12
  {
    if hour < 12 then "AM" else "PM"
  }

  /** The label of an hour of the day, such as "12AM" or "3PM". */
  function HourLabel(hour: nat): string {
    NatToString(ClockNumber(hour)) + Suffix(hour)
  }

  /** The clock number and the suffix together give back the hour of the day. */
  lemma ClockRoundTrip(hour: nat)
    requires hour < 24
    ensures (ClockNumber(hour) % 12) + (if Suffix(hour) == "PM" then 12 else 0) == hour
  {
  }

  /** Midnight is "12AM" and noon is "12PM". */
  lemma MidnightAndNoon()
    ensures ClockNumber(0) == 12 && Suffix(0) == "AM"
    ensures ClockNumber(12) == 12 && Suffix(12) == "PM"
  {
  }

  /** The hours of the forecast: the current hour and the five after it, wrapping at midnight. */
  function ForecastHours(currentHour: nat): (hs: seq<nat>)
    ensures |hs| == 6
    ensures forall i :: 0 <= i < 6 ==> hs[i] < 24 && hs[i] == (currentHour + i) % 24
  {
    seq(6, i requires 0 <= i < 6 => (currentHour + i) % 24)
  }

  /** Consecutive forecast hours are one hour apart on the 24-hour clock. */
  lemma ForecastConsecutive(currentHour: nat, i: nat)
    requires i < 5
    ensures ForecastHours(currentHour)[i + 1] == (ForecastHours(currentHour)[i] + 1) % 24
  {
  }

  datatype Prediction = Prediction(hour: string, level: int, count: int)

  /** The simulated figures of one forecast hour. */
  datatype Figures = Figures(level: int, count: int)

  datatype CrowdData = CrowdData(
    currentLevel: Level, currentCount: int, maxCapacity: int, trend: Trend, peakTime: string,
    hourlyPrediction: seq<Prediction>)

  const INITIAL: CrowdData := CrowdData(MediumLevel, 1250, 2000, Increasing, "2:00 PM - 4:00 PM", [])

  /** The forecast: one labelled prediction per forecast hour. */
  function Forecast(currentHour: nat, figures: nat -> Figures): (ps: seq<Prediction>)
    ensures |ps| == 6
    ensures forall i :: 0 <= i < 6 ==> ps[i].hour == HourLabel((currentHour + i) % 24)
  {
    var hs := ForecastHours(currentHour);
    seq(6, i requires 0 <= i < 6 => Prediction(HourLabel(hs[i]), figures(i).level, figures(i).count))
  }

  const OFF_PEAK_TIP: string := "Consider visiting during off-peak hours"
  const GROWING_TIP: string := "Crowds are growing \U{2014} plan ahead"
  const GREAT_TIME_TIP: string := "Great time to explore \U{2014} fewer crowds!"
  const BEST_TIMES_TIP: string := "Best times: Early morning or late evening"

  /** The tips shown, in order: off-peak when the level is high, growing when the trend increases, great-time when it is low, and always the best times. */
  function Tips(level: Level, trend: Trend): (tips: seq<string>)
    ensures |tips| >= 1 && tips[|tips| - 1] == BEST_TIMES_TIP
    ensures OFF_PEAK_TIP in tips <==> level == HighLevel
    ensures GROWING_TIP in tips <==> trend == Increasing
    ensures GREAT_TIME_TIP in tips <==> level == LowLevel
  {
    (if level == HighLevel then [OFF_PEAK_TIP] else []) +
    (if trend == Increasing then [GROWING_TIP] else []) +
    (if level == LowLevel then [GREAT_TIME_TIP] else []) +
    [BEST_TIMES_TIP]
  }

  /** The off-peak and great-time tips never show together. */
  lemma TipsExclusive(level: Level, trend: Trend)
    ensures !(OFF_PEAK_TIP in Tips(level, trend) && GREAT_TIME_TIP in Tips(level, trend))
    ensures |Tips(level, trend)| <= 3
  {
  }

  class Crowd {
    var crowdData: CrowdData

    constructor()
      ensures crowdData == INITIAL
    {
      crowdData := INITIAL;
    }

    /**
     * The updater run when the position changes (and each minute after):
     * only with a truthy latitude and longitude is the data replaced by the
     * simulated reading for the current hour.
     */
    method Update(lat: Option<real>, lng: Option<real>, currentHour: nat,
                  level: Level, count: int, trend: Trend, peakTime: string, figures: nat -> Figures)
      modifies this
      ensures !(Truthy(lat) && Truthy(lng)) ==> crowdData == old(crowdData)
      ensures Truthy(lat) && Truthy(lng) ==>
                crowdData == CrowdData(level, count, 2000, trend, peakTime, Forecast(currentHour, figures))
    {
      if Truthy(lat) && Truthy(lng) {
        crowdData := CrowdData(level, count, 2000, trend, peakTime, Forecast(currentHour, figures));
      }
    }
  }
}
