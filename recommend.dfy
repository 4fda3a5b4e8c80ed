/** The `/recommend` endpoint (`recommend_products`): it gathers the weather snapshot
    (or its sentinel), the UV risk, the season and the category summary into the
    prompt inputs, hands them to the language model and shapes the response. Every
    exception raised on the way becomes an HTTP 500 carrying the exception's text.
    The language model is the parameter `complete`; its rendering of the prompt is
    not modelled. */
module Recommend {
  import opened Wrappers
  import opened Json
  import UvRisk
  import opened Seasons
  import opened Weather
  import opened Categories

  datatype Request = Request(userPrompt: string, location: string)

  /** The `inputs` dict given to the prompt template. */
  datatype Inputs = Inputs(
    userPrompt: string,
    location: string,
    temperature: Value,
    feelsLike: Value,
    weatherConditions: Value,
    weatherDescription: Value,
    humidity: Value,
    windSpeed: Value,
    uvIndex: Value,
    uvRisk: string,
    precipitation: Value,
    dayNight: string,
    season: string,
    categories: string)

  datatype Response = Response(recommendations: string, weather: Snapshot, season: string, location: string)

  datatype HttpError = HttpError(status: int, detail: string)

  /** The text of the TypeError Python raises for `v <= 2` when `v` is not a number. */
  const ComparisonPrefix: string := "'<=' not supported between instances of '"

  /** The TypeError text names the offending Python type right after the fixed prefix. */
  function ComparisonError(v: Value): (msg: string)
    requires AsNumber(v).None?
    ensures |msg| == |ComparisonPrefix| + |TypeName(v)| + |"' and 'int'"|
    ensures ComparisonPrefix <= msg
    ensures msg[|ComparisonPrefix|..|ComparisonPrefix| + |TypeName(v)|] == TypeName(v)
    ensures msg[|ComparisonPrefix| + |TypeName(v)|..] == "' and 'int'"
  {
    ComparisonPrefix + TypeName(v) + "' and 'int'"
  }

  /** `get_uv_risk(uv) if uv != 'unknown' else "unknown"`: the sentinel string passes
      through, a number (or boolean) is banded, and any other value makes the first
      comparison raise. */
  function UvRiskField(uv: Value): (r: Result<string, string>)
    ensures r == Ok("unknown") <==> uv == Unknown
    ensures AsNumber(uv).Some? ==> r == Ok(UvRisk.Label(UvRisk.Risk(AsNumber(uv).value)))
    ensures r.Err? <==> AsNumber(uv).None? && uv != Unknown
    ensures r.Err? ==> r.error == ComparisonError(uv)
  {
    if uv == Unknown then Ok("unknown")
    else
      match AsNumber(uv)
      case Some(x) => Ok(UvRisk.Label(UvRisk.Risk(x)))
      case None => Err(ComparisonError(uv))
  }

  function DayNight(isDay: bool): (r: string)
    ensures r == "Day" <==> isDay
    ensures r == "Night" <==> !isDay
  {
    if isDay then "Day" else "Night"
  }

  /** The `inputs` dict of recommend_products: the inputs are the snapshot's fields with
      the derived UV risk, time of day, season and category summary; only the UV risk
      can fail. */
  function AssembleInputs(request: Request, weather: Snapshot, month: Month, categories: seq<string>)
    : (r: Result<Inputs, string>)
    ensures r.Err? <==> UvRiskField(weather.uvIndex).Err?
    ensures r.Err? ==> r.error == UvRiskField(weather.uvIndex).error
    ensures r.Ok? ==>
      && r.value.userPrompt == request.userPrompt && r.value.location == request.location
      && r.value.temperature == weather.temperature && r.value.feelsLike == weather.feelsLike
      && r.value.weatherConditions == weather.conditions
      && r.value.weatherDescription == weather.description
      && r.value.humidity == weather.humidity && r.value.windSpeed == weather.windSpeed
      && r.value.uvIndex == weather.uvIndex && r.value.precipitation == weather.precipitation
      && Ok(r.value.uvRisk) == UvRiskField(weather.uvIndex)
      && r.value.dayNight == DayNight(weather.isDay)
      && r.value.season == Name(SeasonOf(month))
      && r.value.categories == CategoriesLine(categories)
  {
    match UvRiskField(weather.uvIndex)
    case Err(e) => Err(e)
    case Ok(uvRisk) =>
      Ok(Inputs(
        request.userPrompt, request.location,
        weather.temperature, weather.feelsLike,
        weather.conditions, weather.description,
        weather.humidity, weather.windSpeed,
        weather.uvIndex, uvRisk, weather.precipitation,
        DayNight(weather.isDay), Name(SeasonOf(month)), CategoriesLine(categories)))
  }

  /** recommend_products end to end. `weatherResponse` and `categoriesResponse` are
      the two upstream calls, `month` the month of the requested (or current) date,
      `render` Python's `str()` and `complete` the language-model chain. */
  function RecommendProducts(
    request: Request,
    weatherResponse: Option<Value>,
    month: Month,
    categoriesResponse: Option<Value>,
    render: Value -> string,
    complete: Inputs -> Result<string, string>): (r: Result<Response, HttpError>)
    ensures var inputs := AssembleInputs(request, WeatherOrSentinel(weatherResponse), month,
                                         ProductCategories(categoriesResponse, render));
      && (r.Ok? <==> inputs.Ok? && complete(inputs.value).Ok?)
      && (r.Ok? ==> r.value.recommendations == complete(inputs.value).value)
      && (r.Err? && inputs.Err? ==> r.error.detail == inputs.error)
      && (r.Err? && inputs.Ok? ==> r.error.detail == complete(inputs.value).error)
    ensures r.Err? ==> r.error.status == 500
    ensures r.Ok? ==>
      && r.value.weather == WeatherOrSentinel(weatherResponse)
      && r.value.season == Name(SeasonOf(month))
      && r.value.location == request.location
  {
    var weather := WeatherOrSentinel(weatherResponse);
    var categories := ProductCategories(categoriesResponse, render);
    match AssembleInputs(request, weather, month, categories)
    case Err(e) => Err(HttpError(500, e))
    case Ok(inputs) =>
      match complete(inputs)
      case Err(e) => Err(HttpError(500, e))
      case Ok(text) => Ok(Response(text, weather, Name(SeasonOf(month)), request.location))
  }

  /** When the weather lookup fails, the prompt still gets every weather field as
      "unknown", the UV risk "unknown" and the time of day "Day"; a failed lookup
      never turns into an error of the endpoint. */
  lemma FallbackInputs(request: Request, weatherResponse: Option<Value>, month: Month, categories: seq<string>)
    requires GetWeather(weatherResponse).None?
    ensures var r := AssembleInputs(request, WeatherOrSentinel(weatherResponse), month, categories);
      && r.Ok?
      && r.value.uvRisk == "unknown"
      && r.value.dayNight == "Day"
      && r.value.temperature == r.value.feelsLike == r.value.weatherConditions
         == r.value.weatherDescription == r.value.humidity == r.value.windSpeed
         == r.value.uvIndex == r.value.precipitation == Unknown
  {
  }

  /** With a decoded weather body, the UV risk is the band of the upstream `uv` value
      whenever that value is a number. */
  lemma UvRiskFromUpstream(request: Request, data: Value, month: Month, categories: seq<string>, uv: real)
    requires Decode(data).Some? && Decode(data).value.uv == Num(uv)
    ensures var r := AssembleInputs(request, WeatherOrSentinel(Some(data)), month, categories);
      r.Ok? && r.value.uvRisk == UvRisk.Label(UvRisk.Risk(uv))
  {
  }

  /** A failed weather lookup alone never makes the endpoint fail: with the sentinel in
      place, only the model call can. */
  lemma FailedLookupOnlyModelFails(
    request: Request,
    weatherResponse: Option<Value>,
    month: Month,
    categoriesResponse: Option<Value>,
    render: Value -> string,
    complete: Inputs -> Result<string, string>)
    requires GetWeather(weatherResponse).None?
    ensures var inputs := AssembleInputs(request, Sentinel, month, ProductCategories(categoriesResponse, render));
      && inputs.Ok?
      && (RecommendProducts(request, weatherResponse, month, categoriesResponse, render, complete).Ok?
          <==> complete(inputs.value).Ok?)
  {
  }

  /** The endpoint fails exactly when the UV value cannot be compared or the model call
      fails (a malformed date aside, which is not part of this model). */
  lemma RecommendFailsOnlyOnUvOrModel(
    request: Request,
    weatherResponse: Option<Value>,
    month: Month,
    categoriesResponse: Option<Value>,
    render: Value -> string,
    complete: Inputs -> Result<string, string>)
    ensures var weather := WeatherOrSentinel(weatherResponse);
      var inputs := AssembleInputs(request, weather, month, ProductCategories(categoriesResponse, render));
      RecommendProducts(request, weatherResponse, month, categoriesResponse, render, complete).Err?
      <==> (AsNumber(weather.uvIndex).None? && weather.uvIndex != Unknown) || complete(inputs.value).Err?
  {
  }
}
