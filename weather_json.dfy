/** The `TryFrom<json::JsonValue>` parsers of src/weather.rs over an abstract
    JSON value: `WeatherState` reads its fields one after the other with
    `?`, so the first field that is missing or has the wrong kind decides
    the error; `OpenWeatherResponse` parses `current` and then every
    element of `hourly`. */
module WeatherJson {
  import opened Wrappers
  import opened WeatherCodes

  /** A JSON number, as far as the three accessors the parser uses can tell
      numbers apart: one with no fractional part, and any other. */
  datatype Number = Whole(n: int) | Fractional

  datatype Json =
    | Null
    | Boolean(b: bool)
    | Num(num: Number)
    | Text(s: string)
    | Array(items: seq<Json>)
    | Object(fields: map<string, Json>)

  /** `JsonValue::remove`: the member under `key`, or `Null` when there is
      none or the value is not an object. */
  function Remove(j: Json, key: string): Json {
    if j.Object? && key in j.fields then j.fields[key] else Null
  }

  /** `JsonValue::members_mut`: the elements of an array, nothing for any
      other value. */
  function Members(j: Json): seq<Json> {
    if j.Array? then j.items else []
  }

  const MinI64: int := -0x8000_0000_0000_0000
  const MaxI64: int := 0x7FFF_FFFF_FFFF_FFFF

  /** `as_i64`: a whole number that fits in 64 signed bits. */
  function AsI64(j: Json): Option<int> {
    if j.Num? && j.num.Whole? && MinI64 <= j.num.n <= MaxI64 then Some(j.num.n) else None
  }

  /** `as_u16`: a whole number in 0..65535. */
  function AsU16(j: Json): Option<u16> {
    if j.Num? && j.num.Whole? && 0 <= j.num.n < 0x1_0000 then Some(j.num.n) else None
  }

  /** `as_f32`: any number; its value is kept as it is. */
  function AsF32(j: Json): Option<Number> {
    if j.Num? then Some(j.num) else None
  }

  /** `Wind`: the speed is a float, kept as its JSON number. */
  datatype Wind = Wind(speed: Number, direction: u16)

  /** `WeatherState`: the three instants as Unix seconds, the temperature
      in kelvin as its JSON number. */
  datatype WeatherState = WeatherState(
    time: int, sunrise: int, sunset: int, temp: Number, wind: Wind, condition: WeatherCondition)

  const DtError: string := "Missing or invalid \"dt\" value."
  const SunriseError: string := "Missing or invalid \"sunrise\" value."
  const SunsetError: string := "Missing or invalid \"sunset\" value."
  const TempError: string := "Missing or invalid \"temp\" value."
  const WindSpeedError: string := "Missing or invalid \"wind_speed\" value."
  const WindDegError: string := "Missing or invalid \"wind_deg\" value."
  const WeatherError: string := "Empty \"weather\" value."
  const IdError: string := "Empty or invalid \"weather.id\" value."

  /** The first element of the `weather` member, if it has one. */
  function FirstCondition(j: Json): Option<Json> {
    var members := Members(Remove(j, "weather"));
    if members == [] then None else Some(members[0])
  }

  /** `WeatherState::try_from`. */
  function ParseState(j: Json): Result<WeatherState, string> {
    var time :- AsI64(Remove(j, "dt")).OkOr(DtError);
    var sunrise :- AsI64(Remove(j, "sunrise")).OkOr(SunriseError);
    var sunset :- AsI64(Remove(j, "sunset")).OkOr(SunsetError);
    var temp :- AsF32(Remove(j, "temp")).OkOr(TempError);
    var speed :- AsF32(Remove(j, "wind_speed")).OkOr(WindSpeedError);
    var direction :- AsU16(Remove(j, "wind_deg")).OkOr(WindDegError);
    var first :- FirstCondition(j).OkOr(WeatherError);
    var id :- AsU16(Remove(first, "id")).OkOr(IdError);
    Success(WeatherState(time, sunrise, sunset, temp, Wind(speed, direction), Classify(id)))
  }

  // ---------------------------------------------------------------------
  // The checks in the order the parser makes them

  const CheckCount: nat := 8

  /** Check `i` of the parser passes on `j`. */
  predicate Check(j: Json, i: nat)
    requires i < CheckCount
  {
    match i
    case 0 => AsI64(Remove(j, "dt")).Some?
    case 1 => AsI64(Remove(j, "sunrise")).Some?
    case 2 => AsI64(Remove(j, "sunset")).Some?
    case 3 => AsF32(Remove(j, "temp")).Some?
    case 4 => AsF32(Remove(j, "wind_speed")).Some?
    case 5 => AsU16(Remove(j, "wind_deg")).Some?
    case 6 => FirstCondition(j).Some?
    case _ => FirstCondition(j).Some? && AsU16(Remove(FirstCondition(j).value, "id")).Some?
  }

  /** The message the parser gives when check `i` is the first to fail. */
  const Messages: seq<string> :=
    [DtError, SunriseError, SunsetError, TempError, WindSpeedError, WindDegError, WeatherError, IdError]

  /** The parser succeeds exactly when every check passes. */
  lemma ParseStateSucceeds(j: Json)
    ensures ParseState(j).Success? <==> forall i :: 0 <= i < CheckCount ==> Check(j, i)
  {
    var i := FirstFailedCheck(j);
  }

  /** The index of the first check that fails, or `CheckCount` when none
      does. */
  function FirstFailedCheck(j: Json): (i: nat)
    ensures i <= CheckCount
    ensures forall k :: 0 <= k < i && k < CheckCount ==> Check(j, k)
    ensures i < CheckCount ==> !Check(j, i)
    ensures i == CheckCount <==> ParseState(j).Success?
  {
    if !Check(j, 0) then 0
    else if !Check(j, 1) then 1
    else if !Check(j, 2) then 2
    else if !Check(j, 3) then 3
    else if !Check(j, 4) then 4
    else if !Check(j, 5) then 5
    else if !Check(j, 6) then 6
    else if !Check(j, 7) then 7
    else 8
  }

  /** A failure carries the message of the first check that failed: the
      fields are read in the order dt, sunrise, sunset, temp, wind_speed,
      wind_deg, weather, weather[0].id. */
  lemma ParseStateError(j: Json)
    requires ParseState(j).Failure?
    ensures FirstFailedCheck(j) < CheckCount
    ensures ParseState(j).error == Messages[FirstFailedCheck(j)]
  {
  }

  /** A success keeps what each field holds; the condition is the
      classification of the first `weather` element's id. */
  lemma ParseStateFields(j: Json)
    requires ParseState(j).Success?
    ensures var w := ParseState(j).value;
            && Remove(j, "dt") == Num(Whole(w.time))
            && Remove(j, "sunrise") == Num(Whole(w.sunrise))
            && Remove(j, "sunset") == Num(Whole(w.sunset))
            && Remove(j, "temp") == Num(w.temp)
            && Remove(j, "wind_speed") == Num(w.wind.speed)
            && Remove(j, "wind_deg") == Num(Whole(w.wind.direction))
    ensures var first := Members(Remove(j, "weather"))[0];
            Remove(first, "id").Num? && Remove(first, "id").num.Whole?
            && 0 <= Remove(first, "id").num.n < 0x1_0000
            && ParseState(j).value.condition == Classify(Remove(first, "id").num.n)
  {
  }

  /** An empty `weather` array is its own error once the fields before it
      are valid. */
  lemma EmptyWeather(j: Json)
    requires forall i :: 0 <= i < 6 ==> Check(j, i)
    requires Members(Remove(j, "weather")) == []
    ensures ParseState(j) == Failure(WeatherError)
  {
    assert Check(j, 0) && Check(j, 1) && Check(j, 2) && Check(j, 3) && Check(j, 4) && Check(j, 5);
  }

  // ---------------------------------------------------------------------
  // The response

  datatype OpenWeatherResponse = OpenWeatherResponse(current: WeatherState, hourly: seq<WeatherState>)

  /** `collect::<Result<Vec<_>, _>>()`: every element parsed, or the error
      of the first that fails. */
  function ParseAll(items: seq<Json>): (r: Result<seq<WeatherState>, string>)
    ensures r.Success? ==> |r.value| == |items|
    decreases |items|
  {
    if items == [] then Success([])
    else
      var head :- ParseState(items[0]);
      var tail :- ParseAll(items[1..]);
      Success([head] + tail)
  }

  /** `OpenWeatherResponse::try_from`. */
  function ParseResponse(j: Json): Result<OpenWeatherResponse, string> {
    var current :- ParseState(Remove(j, "current"));
    var hourly :- ParseAll(Members(Remove(j, "hourly")));
    Success(OpenWeatherResponse(current, hourly))
  }

  /** The elements all parse exactly when the list does, each to the
      element of the same position. */
  lemma {:induction false} ParseAllSucceeds(items: seq<Json>)
    ensures ParseAll(items).Success? <==> forall i :: 0 <= i < |items| ==> ParseState(items[i]).Success?
    ensures ParseAll(items).Success? ==>
              forall i :: 0 <= i < |items| ==> ParseAll(items).value[i] == ParseState(items[i]).value
    decreases |items|
  {
    if items != [] {
      ParseAllSucceeds(items[1..]);
      if ParseAll(items).Success? {
        forall i | 0 <= i < |items| ensures ParseAll(items).value[i] == ParseState(items[i]).value {
          if i > 0 {
            assert items[1..][i - 1] == items[i];
          }
        }
      }
      if ParseState(items[0]).Success? && !ParseAll(items[1..]).Success? {
        var k :| 0 <= k < |items[1..]| && !ParseState(items[1..][k]).Success?;
        assert items[k + 1] == items[1..][k];
      }
    }
  }

  /** A failing list fails with the error of its first failing element. */
  lemma {:induction false} ParseAllError(items: seq<Json>)
    requires ParseAll(items).Failure?
    ensures exists k :: 0 <= k < |items| && ParseState(items[k]).Failure?
                        && (forall i :: 0 <= i < k ==> ParseState(items[i]).Success?)
                        && ParseAll(items).error == ParseState(items[k]).error
    decreases |items|
  {
    if ParseState(items[0]).Success? {
      ParseAllError(items[1..]);
      var k :| 0 <= k < |items[1..]| && ParseState(items[1..][k]).Failure?
               && (forall i :: 0 <= i < k ==> ParseState(items[1..][i]).Success?)
               && ParseAll(items[1..]).error == ParseState(items[1..][k]).error;
      forall i | 0 <= i < k + 1 ensures ParseState(items[i]).Success? {
        if i > 0 {
          assert items[i] == items[1..][i - 1];
        }
      }
      assert items[k + 1] == items[1..][k];
    }
  }

  /** The response parses exactly when `current` and every `hourly`
      element do; `hourly` keeps the order and the length of the array. */
  lemma ParseResponseSucceeds(j: Json)
    ensures ParseResponse(j).Success? <==>
              ParseState(Remove(j, "current")).Success?
              && forall i :: 0 <= i < |Members(Remove(j, "hourly"))| ==> ParseState(Members(Remove(j, "hourly"))[i]).Success?
    ensures ParseResponse(j).Success? ==>
              var r := ParseResponse(j).value;
              var items := Members(Remove(j, "hourly"));
              && r.current == ParseState(Remove(j, "current")).value
              && |r.hourly| == |items|
              && forall i :: 0 <= i < |items| ==> r.hourly[i] == ParseState(items[i]).value
  {
    ParseAllSucceeds(Members(Remove(j, "hourly")));
  }

  /** `current` is parsed first: its error wins over any of `hourly`. */
  lemma ParseResponseCurrentFirst(j: Json)
    requires ParseState(Remove(j, "current")).Failure?
    ensures ParseResponse(j) == Failure(ParseState(Remove(j, "current")).error)
  {
  }
}
