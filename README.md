# Product recommendation agent: the context rules, in Dafny

The service answers `POST /recommend` by asking a language model for product
recommendations. It adds context to the user's request: the current weather at the
user's location, a UV risk band, the season and the shop's product categories. The
model and the upstream weather and catalog APIs are outside this model. What it covers
is the deterministic part of `main.py`:

- **UV risk banding** (`get_uv_risk`), module `UvRisk`. The five bands are bounded above,
  inclusively, by 2, 5, 7 and 10. Modelled over `real`, because the source only compares.
- **Season classifier** (`get_season`), module `Seasons`. It maps a month 1..12 to one of
  four seasons.
- **Weather lookup** (`get_weather`) and the all-"unknown" fallback, module `Weather`. The
  decoded response body is a JSON `Value` (module `Json`). A missing key, or a non-dict
  where a dict is subscripted, makes the lookup fail, just as the source's
  `try`/`except` does.
- **Product categories** (`get_product_categories`) and the `categories_str` summary line,
  module `Categories`.
- **The endpoint** (`recommend_products`), module `Recommend`. It assembles the prompt
  inputs (UV risk, day or night, season, categories) and shapes the response. Every
  exception becomes an HTTP 500 carrying the exception's text.

The two HTTP calls are inputs of type `Option<Value>`. `None` stands for a network
error, a timeout, a non-success status or a body that is not JSON. Three more things are
parameters: the month of the date, Python's `str()` applied to one decoded category
(`render`), and the language-model chain (`complete`).

Every snapshot field but `is_day` holds whatever JSON value the upstream body holds,
whether a number, a string or anything else; `is_day` is the boolean `is_day == 1`. The endpoint returns `recommendations`, `weather`,
`season` and `location`.

## Model

| member | source | states |
|---|---|---|
| `UvRisk.Risk` | main.py:53-58 | Each band is exactly the interval between consecutive limits, closed at the top: uv ≤ 2 Low, 2 < uv ≤ 5 Moderate, 5 < uv ≤ 7 High, 7 < uv ≤ 10 Very High, uv > 10 Extreme (each as an if-and-only-if) |
| `UvRisk.Label` | main.py:54-58 | The returned string is "Low", "Moderate", "High", "Very High" or "Extreme", each exactly for its own band, and never "unknown" |
| `UvRisk.LabelInjective` | main.py:54-58 | Distinct bands have distinct labels |
| `UvRisk.RiskCountsExceededThresholds` | main.py:53-58 | Reference definition: the band's rank equals the number of limits (2, 5, 7, 10) the index strictly exceeds |
| `UvRisk.RiskMonotone` | main.py:53-58 | a ≤ b implies rank(risk(a)) ≤ rank(risk(b)) in the order Low < Moderate < High < Very High < Extreme |
| `Seasons.SeasonOf` | main.py:97-101 | {12,1,2} winter, {3,4,5} spring, {6,7,8} summer, {9,10,11} autumn, each as an if-and-only-if on the month alone |
| `Seasons.ThreeMonthsEach` | main.py:98-101 | Every season gets exactly three months |
| `Seasons.SeasonsPartitionYear` | main.py:98-101 | The seasons' months together are the whole year and pairwise disjoint |
| `Seasons.Name` | main.py:98-101 | The returned string is "winter", "spring", "summer" or "autumn", each exactly for its own season |
| `Seasons.NameInjective` | main.py:98-101 | Distinct seasons have distinct returned names |
| `Json.Get` | main.py:67-77 | Subscripting succeeds with the stored value on a dict holding the key; it fails (KeyError or TypeError) on a dict without it and on every non-dict |
| `Json.AtAppend` | main.py:67-77 | A nested lookup `v[p0]...[pn][k]` fails exactly when some step fails, and otherwise subscripts the result of the path once more |
| `Json.AsNumber` | main.py:54 | The value `uv <= 2` compares: a number as itself, True as 1, False as 0; strings, lists, dicts and None have none |
| `Json.TypeName` | main.py:175-177 | The Python type named in the TypeError text: "NoneType", "str", "list" or "dict", each exactly for null, strings, lists and dicts |
| `Json.EqualsInt` | main.py:76 | Python's `v == k`: true only for the number k, or for True/False when k is 1/0 |
| `Weather.Decode` | main.py:66-81 | The lookup succeeds iff all eight field paths under `current` resolve (`condition.text` among them); each field is the value at its path |
| `Weather.DecodeEncode` | main.py:67-77 | Reading back a body built from a set of fields gives exactly those fields |
| `Weather.ToSnapshot` | main.py:68-78 | `conditions` and `description` both equal the condition text; `is_day` holds iff the upstream value is 1 (or True); the other fields are copied from their upstream keys |
| `Weather.GetWeather` | main.py:60-81 | A snapshot comes back iff the request succeeded and decoding found every field, and it is the mapping of the decoded fields |
| `Weather.WeatherOrSentinel` | main.py:136-142 | A failed lookup is replaced by the sentinel (every field "unknown", `is_day` True); a successful one is kept |
| `Weather.SnapshotAllOrNothing` | main.py:136-142 | The snapshot in use is either the sentinel after a failed lookup or entirely the mapping of one upstream body, and its conditions always equal its description |
| `Categories.RenderAll` | main.py:89 | Same length as the upstream list, element i is `str()` of element i |
| `Categories.ProductCategories` | main.py:83-93 | A decoded list gives its elements rendered in order; any other body or failure gives the empty list |
| `Categories.CategoriesLine` | main.py:147 | Empty list gives "No categories available"; otherwise the categories joined by ", " in order |
| `Categories.Join` | main.py:147 | Python's `", ".join`: the first element is a prefix, a separator follows it when there are more, and the length is the elements' total plus one separator between neighbours |
| `Categories.StringCategories` | main.py:88-93 | For an upstream list of strings, with `str()` the identity on strings, the categories are exactly those names in order, and the prompt line is their ", " join (or the notice when there are none) |
| `Categories.SplitJoin` | main.py:147 | Splitting the ", "-joined line of a non-empty list gives it back whenever no category contains ", " |
| `Categories.CategoriesLineRoundTrip` | main.py:147 | A non-empty category list is recoverable from the summary line under the same condition |
| `Recommend.UvRiskField` | main.py:144 | "unknown" iff the UV value is the string "unknown"; the band label of any number or boolean; otherwise an error whose text is the TypeError message `ComparisonError` of that value |
| `Recommend.DayNight` | main.py:161 | "Day" iff is_day, "Night" iff not |
| `Recommend.AssembleInputs` | main.py:144-164 | The prompt inputs are the snapshot's fields plus the UV risk, time of day, season and category line; it fails iff the UV risk raises, with its message |
| `Recommend.RecommendProducts` | main.py:133-177 | Succeeds iff the inputs assemble and the model answers; then the answer text is returned verbatim with the snapshot in use, the season and the location. Otherwise it is a 500 whose detail is the exception's text |
| `Recommend.FallbackInputs` | main.py:136-161 | After a failed lookup the prompt gets "unknown" for every weather field and the UV risk, and "Day" |
| `Recommend.UvRiskFromUpstream` | main.py:75 | A numeric upstream `uv` reaches the prompt as its band label |
| `Recommend.FailedLookupOnlyModelFails` | main.py:136-177 | A failed weather lookup never makes the endpoint fail; only the model call can |
| `Recommend.RecommendFailsOnlyOnUvOrModel` | main.py:144-177 | The endpoint fails iff the UV value is neither a number nor "unknown", or the model call fails (a malformed date aside) |
| `Recommend.ComparisonError` | main.py:175-177 | The 500 detail for an incomparable UV value is Python's TypeError text, naming the offending type between the fixed prefix and "' and 'int'" |

## Left out

- HTTP requests (`requests.get`, `raise_for_status`, `.json()`), timeouts and logging. Each upstream call is an `Option<Value>` input.
- The language-model chain (prompt template, model client, output parser). It is the parameter `complete`; how the template renders the inputs is not modelled.
- Date handling in `get_season` (`strptime`, `datetime.now()`), and the ValueError (hence 500) for a malformed date. The month is a parameter.
- Python's `str()` of a decoded category. It is the parameter `render`, applied to every element. `Categories.StringCategories` assumes `render` is the identity on strings, as `str()` is. The repr of floats, lists and dicts is not modelled.
- JSON's non-standard `NaN` and `Infinity`, which Python's decoder accepts. Numbers are modelled as `real`, so these cannot occur.
- The int/float distinction of decoded JSON numbers. It changes no comparison and no `== 1` test.
- Order of side effects: when the UV risk raises, the source never makes the categories call. The model takes both responses as inputs and says nothing about which calls were made.
- FastAPI setup, CORS, static files, the landing page template, the `/chain` routes and the environment and API keys. These are server plumbing.
- `static/script.js`: browser rendering code, including the star rating. It reads fields the endpoint does not return.
