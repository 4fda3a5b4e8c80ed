/** The weather lookup (`get_weather`) and its fallback: the upstream
    current-conditions body is mapped onto a fixed nine-field snapshot, and a lookup
    that fails in any way is replaced by an all-"unknown" sentinel. The HTTP request
    itself is an input: `None` stands for a network error, a timeout, a non-success
    status or a body that is not JSON. */
module Weather {
  import opened Wrappers
  import opened Json

  /** The upstream fields get_weather reads, as the JSON values found there. */
  datatype Current = Current(
    tempC: Value,
    conditionText: Value,
    humidity: Value,
    windKph: Value,
    feelslikeC: Value,
    uv: Value,
    isDay: Value,
    precipMm: Value)

  /** The snapshot dict get_weather builds. */
  datatype Snapshot = Snapshot(
    temperature: Value,
    conditions: Value,
    description: Value,
    humidity: Value,
    windSpeed: Value,
    feelsLike: Value,
    uvIndex: Value,
    isDay: bool,
    precipitation: Value)

  /** Where in the response body each field is read. */
  const TempPath: seq<string> := ["current", "temp_c"]
  const TextPath: seq<string> := ["current", "condition", "text"]
  const HumidityPath: seq<string> := ["current", "humidity"]
  const WindPath: seq<string> := ["current", "wind_kph"]
  const FeelsLikePath: seq<string> := ["current", "feelslike_c"]
  const UvPath: seq<string> := ["current", "uv"]
  const IsDayPath: seq<string> := ["current", "is_day"]
  const PrecipPath: seq<string> := ["current", "precip_mm"]

  /** The value the fallback puts in every field but `is_day`. */
  const Unknown: Value := Str("unknown")

  /** The snapshot substituted when the lookup yields nothing. */
  const Sentinel: Snapshot :=
    Snapshot(Unknown, Unknown, Unknown, Unknown, Unknown, Unknown, Unknown, true, Unknown)

  /** Reading the current conditions out of a decoded body. Any missing key, or a
      non-dict where a dict is subscripted, raises inside get_weather's `try` and so
      makes the whole lookup fail: it succeeds exactly when every field path resolves,
      and then each field is the value found at its path. */
  function Decode(data: Value): (r: Option<Current>)
    ensures r.Some? <==>
      && At(data, TempPath).Some? && At(data, TextPath).Some?
      && At(data, HumidityPath).Some? && At(data, WindPath).Some?
      && At(data, FeelsLikePath).Some? && At(data, UvPath).Some?
      && At(data, IsDayPath).Some? && At(data, PrecipPath).Some?
    ensures r.Some? ==>
      && Some(r.value.tempC) == At(data, TempPath)
      && Some(r.value.conditionText) == At(data, TextPath)
      && Some(r.value.humidity) == At(data, HumidityPath)
      && Some(r.value.windKph) == At(data, WindPath)
      && Some(r.value.feelslikeC) == At(data, FeelsLikePath)
      && Some(r.value.uv) == At(data, UvPath)
      && Some(r.value.isDay) == At(data, IsDayPath)
      && Some(r.value.precipMm) == At(data, PrecipPath)
  {
    AtTwo(data, "current", "temp_c");
    AtTwo(data, "current", "humidity");
    AtTwo(data, "current", "wind_kph");
    AtTwo(data, "current", "feelslike_c");
    AtTwo(data, "current", "uv");
    AtTwo(data, "current", "is_day");
    AtTwo(data, "current", "precip_mm");
    AtThree(data, "current", "condition", "text");
    var current :- Get(data, "current");
    var tempC :- Get(current, "temp_c");
    var condition :- Get(current, "condition");
    var text :- Get(condition, "text");
    var humidity :- Get(current, "humidity");
    var windKph :- Get(current, "wind_kph");
    var feelslikeC :- Get(current, "feelslike_c");
    var uv :- Get(current, "uv");
    var isDay :- Get(current, "is_day");
    var precipMm :- Get(current, "precip_mm");
    Some(Current(tempC, text, humidity, windKph, feelslikeC, uv, isDay, precipMm))
  }

  lemma AtTwo(v: Value, a: string, b: string)
    ensures At(v, [a, b]) == (match Get(v, a) case None => None case Some(c) => Get(c, b))
  {
    AtAppend(v, [], a);
    AtAppend(v, [a], b);
    assert [] + [a] == [a] && [a] + [b] == [a, b];
  }

  lemma AtThree(v: Value, a: string, b: string, c: string)
    ensures At(v, [a, b, c]) ==
      (match Get(v, a)
       case None => None
       case Some(x) => match Get(x, b) case None => None case Some(y) => Get(y, c))
  {
    AtTwo(v, a, b);
    AtAppend(v, [a, b], c);
    assert [a, b] + [c] == [a, b, c];
  }

  /** The smallest response body carrying the fields of `c`. */
  function Encode(c: Current): Value
  {
    Obj(map["current" := Obj(map[
      "temp_c" := c.tempC,
      "condition" := Obj(map["text" := c.conditionText]),
      "humidity" := c.humidity,
      "wind_kph" := c.windKph,
      "feelslike_c" := c.feelslikeC,
      "uv" := c.uv,
      "is_day" := c.isDay,
      "precip_mm" := c.precipMm])])
  }

  /** Reading back a body built from a set of fields gives those fields. */
  lemma DecodeEncode(c: Current)
    ensures Decode(Encode(c)) == Some(c)
  {
  }

  /** The dict literal of get_weather: `conditions` and `description` both come from
      the condition text, and `is_day` is Python's `is_day == 1`. */
  function ToSnapshot(c: Current): (s: Snapshot)
    ensures s.conditions == s.description == c.conditionText
    ensures s.isDay <==> c.isDay == Num(1.0) || c.isDay == Bool(true)
    ensures s.temperature == c.tempC && s.feelsLike == c.feelslikeC
    ensures s.humidity == c.humidity && s.windSpeed == c.windKph
    ensures s.uvIndex == c.uv && s.precipitation == c.precipMm
  {
    Snapshot(
      c.tempC, c.conditionText, c.conditionText, c.humidity, c.windKph,
      c.feelslikeC, c.uv, EqualsInt(c.isDay, 1), c.precipMm)
  }

  /** get_weather: `None` whenever the request or any field read fails. */
  function GetWeather(response: Option<Value>): (r: Option<Snapshot>)
    ensures r.Some? <==> response.Some? && Decode(response.value).Some?
    ensures r.Some? ==> r.value == ToSnapshot(Decode(response.value).value)
  {
    match response
    case None => None
    case Some(data) =>
      match Decode(data)
      case None => None
      case Some(c) => Some(ToSnapshot(c))
  }

  /** `get_weather(location) or {...}`: a snapshot dict is never empty, hence truthy, so
      the sentinel replaces exactly the failed lookups. */
  function WeatherOrSentinel(response: Option<Value>): (s: Snapshot)
    ensures GetWeather(response).None? ==> s == Sentinel
    ensures GetWeather(response).Some? ==> s == GetWeather(response).value
  {
    match GetWeather(response)
    case None => Sentinel
    case Some(w) => w
  }

  /** Whatever the lookup gives, the snapshot is either fully populated from one
      upstream body or the sentinel: conditions and description always agree. */
  lemma SnapshotAllOrNothing(response: Option<Value>)
    ensures var s := WeatherOrSentinel(response);
      || (s == Sentinel && GetWeather(response).None?)
      || (response.Some? && Decode(response.value).Some? && s == ToSnapshot(Decode(response.value).value))
    ensures WeatherOrSentinel(response).conditions == WeatherOrSentinel(response).description
  {
  }
}
