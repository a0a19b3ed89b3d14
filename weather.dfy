/** The weather-API condition ids of src/weather.rs: the top-level
    classification `WeatherCondition::from` and the six sub-type tables it
    dispatches to. Every table keeps the id of a code it does not list in
    its `Unknown` variant, so each `From` has an inverse, `Code`. */
module WeatherCodes {

  /** Rust's `u16`. */
  type u16 = x: int | 0 <= x < 0x1_0000

  // ---------------------------------------------------------------------
  // Thunderstorm, 2xx

  datatype ThunderstormType =
    | ThunderstormWithLightRain
    | ThunderstormWithRain
    | ThunderstormWithHeavyRain
    | LightThunderstorm
    | Thunderstorm
    | HeavyThunderstorm
    | RaggedThunderstorm
    | ThunderstormWithLightDrizzle
    | ThunderstormWithDrizzle
    | ThunderstormWithHeavyDrizzle
    | Unknown(code: u16)
  {
    /** The id a value stands for. */
    function Code(): u16 {
      match this
      case ThunderstormWithLightRain => 200
      case ThunderstormWithRain => 201
      case ThunderstormWithHeavyRain => 202
      case LightThunderstorm => 210
      case Thunderstorm => 211
      case HeavyThunderstorm => 212
      case RaggedThunderstorm => 221
      case ThunderstormWithLightDrizzle => 230
      case ThunderstormWithDrizzle => 231
      case ThunderstormWithHeavyDrizzle => 232
      case Unknown(c) => c
    }
  }

  const ThunderstormCodes: set<u16> := {200, 201, 202, 210, 211, 212, 221, 230, 231, 232}

  /** `ThunderstormType::from`. */
  function ThunderstormOf(code: u16): (t: ThunderstormType)
    ensures t.Code() == code
    ensures t.Unknown? <==> code !in ThunderstormCodes
  {
    match code
    case 200 => ThunderstormWithLightRain
    case 201 => ThunderstormWithRain
    case 202 => ThunderstormWithHeavyRain
    case 210 => LightThunderstorm
    case 211 => ThunderstormType.Thunderstorm
    case 212 => HeavyThunderstorm
    case 221 => RaggedThunderstorm
    case 230 => ThunderstormWithLightDrizzle
    case 231 => ThunderstormWithDrizzle
    case 232 => ThunderstormWithHeavyDrizzle
    case _ => ThunderstormType.Unknown(code)
  }

  /** Every named thunderstorm variant is reached from its own listed id. */
  lemma ThunderstormNamed(t: ThunderstormType)
    requires !t.Unknown?
    ensures t.Code() in ThunderstormCodes && ThunderstormOf(t.Code()) == t
  {
  }

  // ---------------------------------------------------------------------
  // Drizzle, 3xx

  datatype DrizzleType =
    | LightIntensityDrizzle
    | Drizzle
    | HeavyIntensityDrizzle
    | LightIntensityDrizzleRain
    | DrizzleRain
    | HeavyIntensityDrizzleRain
    | ShowerRainAndDrizzle
    | HeavyShowerRainAndDrizzle
    | ShowerDrizzle
    | Unknown(code: u16)
  {
    function Code(): u16 {
      match this
      case LightIntensityDrizzle => 300
      case Drizzle => 301
      case HeavyIntensityDrizzle => 302
      case LightIntensityDrizzleRain => 310
      case DrizzleRain => 311
      case HeavyIntensityDrizzleRain => 312
      case ShowerRainAndDrizzle => 313
      case HeavyShowerRainAndDrizzle => 314
      case ShowerDrizzle => 321
      case Unknown(c) => c
    }
  }

  const DrizzleCodes: set<u16> := {300, 301, 302, 310, 311, 312, 313, 314, 321}

  /** `DrizzleType::from`. */
  function DrizzleOf(code: u16): (t: DrizzleType)
    ensures t.Code() == code
    ensures t.Unknown? <==> code !in DrizzleCodes
  {
    match code
    case 300 => LightIntensityDrizzle
    case 301 => DrizzleType.Drizzle
    case 302 => HeavyIntensityDrizzle
    case 310 => LightIntensityDrizzleRain
    case 311 => DrizzleRain
    case 312 => HeavyIntensityDrizzleRain
    case 313 => ShowerRainAndDrizzle
    case 314 => HeavyShowerRainAndDrizzle
    case 321 => ShowerDrizzle
    case _ => DrizzleType.Unknown(code)
  }

  lemma DrizzleNamed(t: DrizzleType)
    requires !t.Unknown?
    ensures t.Code() in DrizzleCodes && DrizzleOf(t.Code()) == t
  {
  }

  // ---------------------------------------------------------------------
  // Rain, 5xx

  datatype RainType =
    | LightRain
    | ModerateRain
    | HeavyIntensityRain
    | VeryHeavyRain
    | ExtremeRain
    | FreezingRain
    | LightIntensityShowerRain
    | ShowerRain
    | HeavyIntensityShowerRain
    | RaggedShowerRain
    | Unknown(code: u16)
  {
    function Code(): u16 {
      match this
      case LightRain => 500
      case ModerateRain => 501
      case HeavyIntensityRain => 502
      case VeryHeavyRain => 503
      case ExtremeRain => 504
      case FreezingRain => 511
      case LightIntensityShowerRain => 520
      case ShowerRain => 521
      case HeavyIntensityShowerRain => 522
      case RaggedShowerRain => 531
      case Unknown(c) => c
    }
  }

  const RainCodes: set<u16> := {500, 501, 502, 503, 504, 511, 520, 521, 522, 531}

  /** `RainType::from`. */
  function RainOf(code: u16): (t: RainType)
    ensures t.Code() == code
    ensures t.Unknown? <==> code !in RainCodes
  {
    match code
    case 500 => LightRain
    case 501 => ModerateRain
    case 502 => HeavyIntensityRain
    case 503 => VeryHeavyRain
    case 504 => ExtremeRain
    case 511 => FreezingRain
    case 520 => LightIntensityShowerRain
    case 521 => ShowerRain
    case 522 => HeavyIntensityShowerRain
    case 531 => RaggedShowerRain
    case _ => RainType.Unknown(code)
  }

  lemma RainNamed(t: RainType)
    requires !t.Unknown?
    ensures t.Code() in RainCodes && RainOf(t.Code()) == t
  {
  }

  // ---------------------------------------------------------------------
  // Snow, 6xx

  datatype SnowType =
    | LightSnow
    | Snow
    | HeavySnow
    | Sleet
    | LightShowerSleet
    | ShowerSleet
    | LightRainAndSnow
    | RainAndSnow
    | LightShowerSnow
    | ShowerSnow
    | HeavyShowerSnow
    | Unknown(code: u16)
  {
    function Code(): u16 {
      match this
      case LightSnow => 600
      case Snow => 601
      case HeavySnow => 602
      case Sleet => 611
      case LightShowerSleet => 612
      case ShowerSleet => 613
      case LightRainAndSnow => 615
      case RainAndSnow => 616
      case LightShowerSnow => 620
      case ShowerSnow => 621
      case HeavyShowerSnow => 622
      case Unknown(c) => c
    }
  }

  const SnowCodes: set<u16> := {600, 601, 602, 611, 612, 613, 615, 616, 620, 621, 622}

  /** `SnowType::from`. */
  function SnowOf(code: u16): (t: SnowType)
    ensures t.Code() == code
    ensures t.Unknown? <==> code !in SnowCodes
  {
    match code
    case 600 => LightSnow
    case 601 => SnowType.Snow
    case 602 => HeavySnow
    case 611 => Sleet
    case 612 => LightShowerSleet
    case 613 => ShowerSleet
    case 615 => LightRainAndSnow
    case 616 => RainAndSnow
    case 620 => LightShowerSnow
    case 621 => ShowerSnow
    case 622 => HeavyShowerSnow
    case _ => SnowType.Unknown(code)
  }

  lemma SnowNamed(t: SnowType)
    requires !t.Unknown?
    ensures t.Code() in SnowCodes && SnowOf(t.Code()) == t
  {
  }

  // ---------------------------------------------------------------------
  // Atmosphere, 7xx

  datatype AtmosphereType =
    | Mist
    | Smoke
    | Haze
    | SandDustWhirls
    | Fog
    | Sand
    | Dust
    | VolcanicAsh
    | Squalls
    | Tornado
    | Unknown(code: u16)
  {
    function Code(): u16 {
      match this
      case Mist => 701
      case Smoke => 711
      case Haze => 721
      case SandDustWhirls => 731
      case Fog => 741
      case Sand => 751
      case Dust => 761
      case VolcanicAsh => 762
      case Squalls => 771
      case Tornado => 781
      case Unknown(c) => c
    }
  }

  const AtmosphereCodes: set<u16> := {701, 711, 721, 731, 741, 751, 761, 762, 771, 781}

  /** `AtmosphereType::from`. */
  function AtmosphereOf(code: u16): (t: AtmosphereType)
    ensures t.Code() == code
    ensures t.Unknown? <==> code !in AtmosphereCodes
  {
    match code
    case 701 => Mist
    case 711 => Smoke
    case 721 => Haze
    case 731 => SandDustWhirls
    case 741 => Fog
    case 751 => Sand
    case 761 => Dust
    case 762 => VolcanicAsh
    case 771 => Squalls
    case 781 => Tornado
    case _ => AtmosphereType.Unknown(code)
  }

  lemma AtmosphereNamed(t: AtmosphereType)
    requires !t.Unknown?
    ensures t.Code() in AtmosphereCodes && AtmosphereOf(t.Code()) == t
  {
  }

  // ---------------------------------------------------------------------
  // Clouds, 80x

  datatype CloudsType =
    | FewClouds
    | ScatteredClouds
    | BrokenClouds
    | OvercastClouds
    | Unknown(code: u16)
  {
    function Code(): u16 {
      match this
      case FewClouds => 801
      case ScatteredClouds => 802
      case BrokenClouds => 803
      case OvercastClouds => 804
      case Unknown(c) => c
    }
  }

  const CloudsCodes: set<u16> := {801, 802, 803, 804}

  /** `CloudsType::from`. */
  function CloudsOf(code: u16): (t: CloudsType)
    ensures t.Code() == code
    ensures t.Unknown? <==> code !in CloudsCodes
  {
    match code
    case 801 => FewClouds
    case 802 => ScatteredClouds
    case 803 => BrokenClouds
    case 804 => OvercastClouds
    case _ => CloudsType.Unknown(code)
  }

  lemma CloudsNamed(t: CloudsType)
    requires !t.Unknown?
    ensures t.Code() in CloudsCodes && CloudsOf(t.Code()) == t
  {
  }

  // ---------------------------------------------------------------------
  // The top level

  datatype WeatherCondition =
    | Thunderstorm(storm: ThunderstormType)
    | Drizzle(drizzle: DrizzleType)
    | Rain(rain: RainType)
    | Snow(snow: SnowType)
    | Atmosphere(atmosphere: AtmosphereType)
    | Clear
    | Clouds(clouds: CloudsType)
    | Unknown(code: u16)
  {
    /** The id a condition stands for: 800 for `Clear`, the sub-type's id
        otherwise. */
    function Code(): u16 {
      match this
      case Thunderstorm(t) => t.Code()
      case Drizzle(t) => t.Code()
      case Rain(t) => t.Code()
      case Snow(t) => t.Code()
      case Atmosphere(t) => t.Code()
      case Clear => 800
      case Clouds(t) => t.Code()
      case Unknown(c) => c
    }
  }

  /** `WeatherCondition::from`: the id's range picks the category and the
      category's own table reads the same id. */
  function Classify(code: u16): (c: WeatherCondition)
    ensures c.Code() == code
  {
    if 200 <= code <= 299 then WeatherCondition.Thunderstorm(ThunderstormOf(code))
    else if 300 <= code <= 399 then WeatherCondition.Drizzle(DrizzleOf(code))
    else if 500 <= code <= 599 then Rain(RainOf(code))
    else if 600 <= code <= 699 then WeatherCondition.Snow(SnowOf(code))
    else if 700 <= code <= 799 then Atmosphere(AtmosphereOf(code))
    else if code == 800 then Clear
    else if 801 <= code <= 899 then Clouds(CloudsOf(code))
    else WeatherCondition.Unknown(code)
  }

  /** Each category holds exactly its range of ids. */
  lemma ClassifyRanges(code: u16)
    ensures Classify(code).Thunderstorm? <==> 200 <= code <= 299
    ensures Classify(code).Drizzle? <==> 300 <= code <= 399
    ensures Classify(code).Rain? <==> 500 <= code <= 599
    ensures Classify(code).Snow? <==> 600 <= code <= 699
    ensures Classify(code).Atmosphere? <==> 700 <= code <= 799
    ensures Classify(code).Clear? <==> code == 800
    ensures Classify(code).Clouds? <==> 801 <= code <= 899
  {
  }

  /** An id outside every range, 0-199, 400-499 and 900 upwards included,
      is kept as it is. */
  lemma ClassifyUnknown(code: u16)
    ensures Classify(code).Unknown? <==> code < 200 || 400 <= code <= 499 || 900 <= code
    ensures Classify(code).Unknown? ==> Classify(code).code == code
  {
  }

  /** Classification composes: a category's payload is its sub-type table
      applied to the same id. */
  lemma ClassifyComposes(code: u16)
    ensures Classify(code).Thunderstorm? ==> Classify(code).storm == ThunderstormOf(code)
    ensures Classify(code).Drizzle? ==> Classify(code).drizzle == DrizzleOf(code)
    ensures Classify(code).Rain? ==> Classify(code).rain == RainOf(code)
    ensures Classify(code).Snow? ==> Classify(code).snow == SnowOf(code)
    ensures Classify(code).Atmosphere? ==> Classify(code).atmosphere == AtmosphereOf(code)
    ensures Classify(code).Clouds? ==> Classify(code).clouds == CloudsOf(code)
  {
  }

  /** Two conditions that stand for the same id are the same condition
      when both came from `Classify`: distinct ids never collide. */
  lemma ClassifyInjective(x: u16, y: u16)
    requires Classify(x) == Classify(y)
    ensures x == y
  {
    assert Classify(x).Code() == x && Classify(y).Code() == y;
  }

  lemma ClassifyExamples()
    ensures Classify(616) == WeatherCondition.Snow(RainAndSnow)
    ensures Classify(511) == Rain(FreezingRain)
    ensures Classify(800) == Clear
    ensures Classify(701) == Atmosphere(Mist)
    ensures Classify(450) == WeatherCondition.Unknown(450)
    ensures Classify(250) == WeatherCondition.Thunderstorm(ThunderstormType.Unknown(250))
  {
  }
}
