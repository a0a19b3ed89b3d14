/** Integer selection rules of src/image.rs: which of the cute-weather icons
    `get_weather_icon` draws for a state, and which hourly states `render`
    draws as forecasts. The icon is identified by its file name; the SVG
    tree built from it is not part of this model. */
module WeatherIcons {
  import opened Wrappers
  import opened WeatherCodes

  /** The state `get_weather_icon` and `render` read: the time, the Unix
      seconds of sunrise and sunset, the cloud cover in percent and the
      condition, each but the time optional. */
  datatype ShownState = ShownState(
    time: int,
    sunrise: Option<int>,
    sunset: Option<int>,
    clouds: Option<int>,
    condition: Option<WeatherCondition>)

  datatype Icon =
    | Sunny001 | Rain004 | Thunder006 | Snow007 | Thermometer009 | PartlySunny011
    | Windy012 | Hail014 | Snowflake018 | FogDay019 | Cloudy020 | Thunderstorm021
    | Tornado022 | CrescentMoon023 | SunnyRain024 | PartlyMoon025 | Umbrella026
    | Sleet027 | FogNight028
  {
    /** The file under images/cute-weather/ the icon is read from. */
    function File(): string {
      match this
      case Sunny001 => "001-sunny.svg"
      case Rain004 => "004-rain.svg"
      case Thunder006 => "006-thunder.svg"
      case Snow007 => "007-snow.svg"
      case Thermometer009 => "009-thermometer.svg"
      case PartlySunny011 => "011-sunny.svg"
      case Windy012 => "012-windy.svg"
      case Hail014 => "014-hail.svg"
      case Snowflake018 => "018-snowflake.svg"
      case FogDay019 => "019-fog.svg"
      case Cloudy020 => "020-cloudy.svg"
      case Thunderstorm021 => "021-thunderstorm.svg"
      case Tornado022 => "022-tornado.svg"
      case CrescentMoon023 => "023-crescent moon.svg"
      case SunnyRain024 => "024-sunny.svg"
      case PartlyMoon025 => "025-crescent moon.svg"
      case Umbrella026 => "026-umbrella.svg"
      case Sleet027 => "027-sleet.svg"
      case FogNight028 => "028-fog.svg"
    }
  }

  /** Strictly between sunrise and sunset when both are known; day when
      either is missing. */
  function Daytime(s: ShownState): bool {
    match (s.sunrise, s.sunset)
    case (Some(rise), Some(fall)) => s.time > rise && s.time < fall
    case _ => true
  }

  /** At most half the sky covered; false when the cover is unknown. */
  function PartlyCloudy(s: ShownState): bool {
    match s.clouds
    case Some(c) => c <= 50
    case None => false
  }

  /** `get_weather_icon`, arm for arm. */
  function WeatherIcon(s: ShownState): Icon {
    var daytime := Daytime(s);
    var partly := PartlyCloudy(s);
    match s.condition
    case Some(Thunderstorm(t)) =>
      (match t
       case ThunderstormWithLightRain => Thunder006
       case ThunderstormWithRain => Thunder006
       case ThunderstormWithHeavyRain => Thunder006
       case _ => Thunderstorm021)
    case Some(Drizzle(_)) => if partly then SunnyRain024 else Rain004
    case Some(Rain(t)) => if t == FreezingRain then Sleet027 else Umbrella026
    case Some(Snow(t)) =>
      (match t
       case Sleet => Hail014
       case LightShowerSleet => Hail014
       case ShowerSleet => Hail014
       case LightRainAndSnow => Sleet027
       case RainAndSnow => Sleet027
       case LightShowerSnow => Sleet027
       case ShowerSnow => Sleet027
       case HeavyShowerSnow => Sleet027
       case LightSnow => Snow007
       case _ => Snowflake018)
    case Some(Atmosphere(t)) =>
      (match t
       case Tornado => Tornado022
       case Squalls => Windy012
       case _ => if daytime then FogDay019 else FogNight028)
    case Some(Clear) => if daytime then Sunny001 else CrescentMoon023
    case Some(Clouds(_)) =>
      if partly && daytime then PartlySunny011
      else if partly then PartlyMoon025
      else Cloudy020
    case _ => Thermometer009
  }

  // ---------------------------------------------------------------------
  // The same choice read off the numeric id

  /** The icon for a condition id, by ranges and listed ids rather than by
      the variants `Classify` builds. */
  function IconOfCode(code: u16, daytime: bool, partly: bool): Icon {
    if 200 <= code <= 202 then Thunder006
    else if 203 <= code <= 299 then Thunderstorm021
    else if 300 <= code <= 399 then (if partly then SunnyRain024 else Rain004)
    else if code == 511 then Sleet027
    else if 500 <= code <= 599 then Umbrella026
    else if 611 <= code <= 613 then Hail014
    else if code == 615 || code == 616 || 620 <= code <= 622 then Sleet027
    else if code == 600 then Snow007
    else if 600 <= code <= 699 then Snowflake018
    else if code == 781 then Tornado022
    else if code == 771 then Windy012
    else if 700 <= code <= 799 then (if daytime then FogDay019 else FogNight028)
    else if code == 800 then (if daytime then Sunny001 else CrescentMoon023)
    else if 801 <= code <= 899 then
      (if partly && daytime then PartlySunny011 else if partly then PartlyMoon025 else Cloudy020)
    else Thermometer009
  }

  /** For a condition parsed from an id, the icon is the one the id's range
      and listing pick, with day meaning strictly between a known sunrise
      and sunset (or either unknown) and partly cloudy meaning a known
      cover of at most 50 percent. */
  lemma IconMatchesCode(s: ShownState, code: u16)
    requires s.condition == Some(Classify(code))
    ensures WeatherIcon(s)
            == IconOfCode(code,
                          s.sunrise.None? || s.sunset.None? || s.sunrise.value < s.time < s.sunset.value,
                          s.clouds.Some? && s.clouds.value <= 50)
  {
    ClassifyRanges(code);
    ClassifyComposes(code);
  }

  /** Thunderstorm with light, normal or heavy rain draws the thunder icon;
      every other thunderstorm, an unlisted id included, the storm icon. */
  lemma ThunderIcons(s: ShownState, t: ThunderstormType)
    requires s.condition == Some(WeatherCondition.Thunderstorm(t))
    ensures WeatherIcon(s) == Thunder006
            <==> t in {ThunderstormWithLightRain, ThunderstormWithRain, ThunderstormWithHeavyRain}
    ensures WeatherIcon(s) != Thunder006 ==> WeatherIcon(s) == Thunderstorm021
  {
  }

  /** Drizzle shows the sun behind rain when at most half the sky is known
      to be covered, and plain rain otherwise, an unknown cover included. */
  lemma DrizzleIcons(s: ShownState)
    requires s.condition.Some? && s.condition.value.Drizzle?
    ensures WeatherIcon(s) == if s.clouds.Some? && s.clouds.value <= 50 then SunnyRain024 else Rain004
  {
  }

  /** Freezing rain draws sleet, every other rain the umbrella. */
  lemma RainIcons(s: ShownState, t: RainType)
    requires s.condition == Some(Rain(t))
    ensures WeatherIcon(s) == if t == FreezingRain then Sleet027 else Umbrella026
  {
  }

  /** The snow groups: sleet showers hail, mixed rain and shower snow
      sleet, light snow its own icon, the rest the snowflake. */
  lemma SnowIcons(s: ShownState, t: SnowType)
    requires s.condition == Some(WeatherCondition.Snow(t))
    ensures t in {SnowType.Sleet, LightShowerSleet, ShowerSleet} ==> WeatherIcon(s) == Hail014
    ensures t in {LightRainAndSnow, RainAndSnow, LightShowerSnow, ShowerSnow, HeavyShowerSnow}
            ==> WeatherIcon(s) == Sleet027
    ensures t == LightSnow ==> WeatherIcon(s) == Snow007
    ensures t in {SnowType.Snow, HeavySnow} || t.Unknown? ==> WeatherIcon(s) == Snowflake018
  {
  }

  /** Tornado and squalls have their own icons; every other atmosphere is
      fog: the night fog only when both sunrise and sunset are known and
      the time is not strictly between them. */
  lemma AtmosphereIcons(s: ShownState, t: AtmosphereType)
    requires s.condition == Some(Atmosphere(t))
    ensures WeatherIcon(s)
            == if t == Tornado then Tornado022
               else if t == Squalls then Windy012
               else if s.sunrise.Some? && s.sunset.Some? && !(s.sunrise.value < s.time < s.sunset.value)
               then FogNight028 else FogDay019
  {
  }

  /** A clear sky is the moon when both sunrise and sunset are known and
      the time is not strictly between them, and the sun otherwise. Clouds
      show the sun or the moon by the same rule only when a cover of at
      most 50 percent is known, and the cloud icon otherwise. */
  lemma SkyIcons(s: ShownState)
    requires s.condition.Some? && (s.condition.value.Clear? || s.condition.value.Clouds?)
    ensures var night := s.sunrise.Some? && s.sunset.Some? && !(s.sunrise.value < s.time < s.sunset.value);
            s.condition.value.Clear? ==> WeatherIcon(s) == if night then CrescentMoon023 else Sunny001
    ensures var night := s.sunrise.Some? && s.sunset.Some? && !(s.sunrise.value < s.time < s.sunset.value);
            s.condition.value.Clouds? ==>
              WeatherIcon(s) == if s.clouds.None? || s.clouds.value > 50 then Cloudy020
                                else if night then PartlyMoon025 else PartlySunny011
  {
  }

  /** No condition, or an id outside every range, draws the thermometer. */
  lemma MissingIcon(s: ShownState)
    requires s.condition.None? || s.condition.value.Unknown?
    ensures WeatherIcon(s) == Thermometer009
  {
  }

  // ---------------------------------------------------------------------
  // The forecasts `render` draws

  /** `filter(|e| e.time > now)`. */
  function Upcoming(hourly: seq<ShownState>, now: int): seq<ShownState>
    decreases |hourly|
  {
    if hourly == [] then []
    else (if hourly[0].time > now then [hourly[0]] else []) + Upcoming(hourly[1..], now)
  }

  /** `step_by(2)`: the elements at even positions. */
  function EveryOther(xs: seq<ShownState>): (ys: seq<ShownState>)
    decreases |xs|
  {
    if |xs| <= 1 then xs else [xs[0]] + EveryOther(xs[2..])
  }

  /** `filter(..).step_by(2).take(5)`. */
  function Forecasts(hourly: seq<ShownState>, now: int): seq<ShownState> {
    var picked := EveryOther(Upcoming(hourly, now));
    if |picked| <= 5 then picked else picked[..5]
  }

  /** The filter keeps exactly the states after `now`, in input order: a
      single state is kept or dropped on its own and the filter of a
      concatenation is the concatenation of the filters. */
  lemma {:induction false} UpcomingAppend(xs: seq<ShownState>, ys: seq<ShownState>, now: int)
    ensures Upcoming(xs + ys, now) == Upcoming(xs, now) + Upcoming(ys, now)
    decreases |xs|
  {
    if xs == [] {
      assert xs + ys == ys;
    } else {
      assert (xs + ys)[1..] == xs[1..] + ys;
      UpcomingAppend(xs[1..], ys, now);
    }
  }

  lemma UpcomingSingle(x: ShownState, now: int)
    ensures Upcoming([x], now) == if x.time > now then [x] else []
  {
    assert [x][1..] == [];
  }

  /** Every kept state is after `now` and came from the input. */
  lemma {:induction false} UpcomingAfterNow(hourly: seq<ShownState>, now: int)
    ensures |Upcoming(hourly, now)| <= |hourly|
    ensures forall x :: x in Upcoming(hourly, now) <==> x in hourly && x.time > now
    decreases |hourly|
  {
    if hourly != [] {
      UpcomingAfterNow(hourly[1..], now);
      assert hourly == [hourly[0]] + hourly[1..];
    }
  }

  /** `step_by(2)` keeps positions 0, 2, 4, ... */
  lemma {:induction false} EveryOtherLength(xs: seq<ShownState>)
    ensures |EveryOther(xs)| == (|xs| + 1) / 2
    decreases |xs|
  {
    if |xs| > 1 {
      EveryOtherLength(xs[2..]);
    }
  }

  lemma {:induction false} EveryOtherAt(xs: seq<ShownState>, i: nat)
    requires i < |EveryOther(xs)|
    ensures 2 * i < |xs| && EveryOther(xs)[i] == xs[2 * i]
    decreases i
  {
    if i > 0 {
      EveryOtherAt(xs[2..], i - 1);
    }
  }

  lemma EveryOtherPositions(xs: seq<ShownState>)
    ensures |EveryOther(xs)| == (|xs| + 1) / 2
    ensures forall i :: 0 <= i < |EveryOther(xs)| ==> EveryOther(xs)[i] == xs[2 * i]
  {
    EveryOtherLength(xs);
    forall i | 0 <= i < |EveryOther(xs)| ensures EveryOther(xs)[i] == xs[2 * i] {
      EveryOtherAt(xs, i);
    }
  }

  /** At most five forecasts, each after `now`: the states at positions 0,
      2, 4, ... of the upcoming ones, in order. */
  lemma ForecastsPicked(hourly: seq<ShownState>, now: int)
    ensures var up := Upcoming(hourly, now);
            && |Forecasts(hourly, now)| == (if (|up| + 1) / 2 < 5 then (|up| + 1) / 2 else 5)
            && forall i :: 0 <= i < |Forecasts(hourly, now)| ==> Forecasts(hourly, now)[i] == up[2 * i]
    ensures forall x :: x in Forecasts(hourly, now) ==> x in hourly && x.time > now
  {
    var up := Upcoming(hourly, now);
    EveryOtherPositions(up);
    UpcomingAfterNow(hourly, now);
    var f := Forecasts(hourly, now);
    forall x | x in f ensures x in hourly && x.time > now {
      var i :| 0 <= i < |f| && f[i] == x;
      assert x == up[2 * i];
    }
  }
}
