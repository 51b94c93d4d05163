/**
 * The read-through weather fetch of src/services/weather_client.py: the
 * cache key, the normaliser that turns a provider payload into a fixed
 * nested result, and `fetch_weather`, which reads the cache, calls the
 * provider on a miss, classifies the outcome and writes a success back with
 * a time-to-live.
 *
 * The provider call is abstracted as an `Outcome`; `json.dumps` and
 * `json.loads` on the cached value are the identity on `Json`.
 */
module WeatherClient {
  import opened Wrappers
  import opened JsonValue
  import opened PyText
  import opened Exceptions

  /** `CACHE_TTL` when `WEATHER_DATA_TTL` is not set, in seconds. */
  const DefaultCacheTtl: int := 60

  const KeyPrefix: string := "weather:"
  const MissingApiKeyMessage: string := "Weather api is not set"
  const TimeoutMessage: string := "Weather api timed out"
  const StatusErrorPrefix: string := "Weather api error with status code: "
  const NetworkErrorPrefix: string := "Network error: "

  /** `CACHE_TTL`, given the integer value of `WEATHER_DATA_TTL` if it is set. */
  function CacheTtl(setting: Option<int>): (ttl: int)
    ensures setting.None? ==> ttl == 60
    ensures setting.Some? ==> ttl == setting.value
  {
    setting.GetOr(DefaultCacheTtl)
  }

  /** `API_KEY` is truthy: set, and not the empty string. */
  predicate ApiKeySet(apiKey: Option<string>)
    ensures apiKey == None ==> !ApiKeySet(apiKey)
    ensures apiKey == Some("") ==> !ApiKeySet(apiKey)
    ensures apiKey.Some? && apiKey.value != "" ==> ApiKeySet(apiKey)
  {
    apiKey.Some? && apiKey.value != ""
  }

  // ---------------------------------------------------------------- cache key

  /** `_cache_key`: the city, stripped and lower-cased, behind a fixed prefix. */
  function CacheKey(city: string): (k: string)
    ensures |k| == |KeyPrefix| + |Strip(city)|
    ensures k[..|KeyPrefix|] == KeyPrefix
  {
    KeyPrefix + Lower(Strip(city))
  }

  /** Whitespace around the city name does not change its key. */
  lemma CacheKeyPadded(p: string, city: string, q: string)
    requires AllSpace(p) && AllSpace(q)
    ensures CacheKey(p + city + q) == CacheKey(city)
  {
    StripPadded(p, city, q);
  }

  /** Two names share a key exactly when, once stripped, they differ at most
      in letter case. */
  lemma CacheKeyEqualIff(a: string, b: string)
    ensures CacheKey(a) == CacheKey(b) <==> CaseVariants(Strip(a), Strip(b))
  {
    LowerEqualIff(Strip(a), Strip(b));
    if CacheKey(a) == CacheKey(b) {
      assert CacheKey(a)[|KeyPrefix|..] == Lower(Strip(a));
      assert CacheKey(b)[|KeyPrefix|..] == Lower(Strip(b));
    }
  }

  /** Names that differ only in letter case and in surrounding whitespace
      share a key. */
  lemma EquivalentCitiesShareKey(p1: string, a: string, q1: string, p2: string, b: string, q2: string)
    requires AllSpace(p1) && AllSpace(q1) && AllSpace(p2) && AllSpace(q2)
    requires CaseVariants(a, b)
    ensures CacheKey(p1 + a + q1) == CacheKey(p2 + b + q2)
  {
    CacheKeyPadded(p1, a, q1);
    CacheKeyPadded(p2, b, q2);
    LowerEqualIff(a, b);
    StripLower(a);
    StripLower(b);
  }

  // --------------------------------------------------------------- normaliser

  datatype Temperature = Temperature(average: Json, high: Json, low: Json, feelsLike: Json)
  datatype Precipitation = Precipitation(amountMm: Json, chancePercent: Json, types: Json, snow: Json)
  datatype Wind = Wind(speedKmh: Json, gustKmh: Json, directionDegrees: Json)
  datatype Sun = Sun(sunrise: Json, sunset: Json)
  datatype Current = Current(time: Json, conditions: Json, tempC: Json, feelsLikeC: Json)

  /** The dict that `_to_human_readable` returns. Every leaf is copied from
      the payload as it is; `JNull` is Python's `None`. */
  datatype WeatherResult = WeatherResult(
    city: Json,
    date: Json,
    timezone: Json,
    summary: Json,
    conditions: Json,
    temperature: Temperature,
    precipitation: Precipitation,
    wind: Wind,
    sun: Sun,
    current: Option<Current>)

  /** `data.get("message", data)`: the provider's payload, unwrapped from
      `"message"` when that key is present. */
  function Payload(data: map<string, Json>): (msg: Json)
    ensures "message" in data ==> msg == data["message"]
    ensures "message" !in data ==> msg == JObj(data)
  {
    if "message" in data then data["message"] else JObj(data)
  }

  /** `days[0] if days else {}` followed by `today.get(...)`: the fields of the
      first day, an empty dict when `days` is falsy, or the exception Python
      raises when `days` or its first element has the wrong shape. */
  function FirstDay(days: Json): (r: Result<map<string, Json>, OtherError>)
    ensures !Truthy(days) ==> r == Success(map[])
    ensures days.JArr? && days.items != [] && days.items[0].JObj? ==> r == Success(days.items[0].fields)
  {
    if !Truthy(days) then Success(map[])
    else match days
      case JArr(items) => if items[0].JObj? then Success(items[0].fields) else Failure(AttributeError)
      case JObj(_) => Failure(KeyError)
      case JStr(_) => Failure(AttributeError)
      case _ => Failure(TypeError)
  }

  /** The days value can be indexed as the source does without raising. */
  predicate DaysUsable(days: Json) {
    !Truthy(days) || (days.JArr? && days.items[0].JObj?)
  }

  /** The current-conditions value can be read with `.get` without raising. */
  predicate CurrentUsable(current: Json) {
    !Truthy(current) || current.JObj?
  }

  /** A payload on which `_to_human_readable` does not raise. */
  predicate WellShaped(data: Json) {
    && data.JObj?
    && Payload(data.fields).JObj?
    && DaysUsable(Get(Payload(data.fields).fields, "days"))
    && CurrentUsable(Get(Payload(data.fields).fields, "currentConditions"))
  }

  /** What every normalised result has, whatever the payload: a truthy city
      (the `"Unknown"` fallback) and a list of precipitation types that is
      truthy or `[]`. */
  predicate NormalisedShape(w: WeatherResult) {
    && Truthy(w.city)
    && (Truthy(w.precipitation.types) || w.precipitation.types == JArr([]))
  }

  /** `_to_human_readable`. */
  function ToHumanReadable(data: Json): (r: Result<WeatherResult, OtherError>)
    ensures r.Success? <==> WellShaped(data)
    ensures r.Success? ==> NormalisedShape(r.value)
    ensures r.Success? ==> Truthy(r.value.city)
    ensures r.Success? ==> r.value.timezone == Get(Payload(data.fields).fields, "timezone")
    ensures r.Success? ==>
      (r.value.current.None? <==> !Truthy(Get(Payload(data.fields).fields, "currentConditions")))
  {
    if !data.JObj? then Failure(AttributeError)
    else
      var msg := Payload(data.fields);
      if !msg.JObj? then Failure(AttributeError)
      else
        var m := msg.fields;
        var city := Or(Or(Get(m, "resolvedAddress"), Get(m, "address")), JStr("Unknown"));
        match FirstDay(Or(Get(m, "days"), JArr([])))
        case Failure(e) => Failure(e)
        case Success(t) =>
          var current := Or(Get(m, "currentConditions"), JObj(map[]));
          if !current.JObj? then Failure(AttributeError)
          else
            var c := current.fields;
            Success(WeatherResult(
              city,
              Get(t, "datetime"),
              Get(m, "timezone"),
              Or(Get(t, "description"), Get(m, "description")),
              Get(t, "conditions"),
              Temperature(Get(t, "temp"), Get(t, "tempmax"), Get(t, "tempmin"), Get(t, "feelslike")),
              Precipitation(Get(t, "precip"), Get(t, "precipprob"), Or(Get(t, "preciptype"), JArr([])), Get(t, "snow")),
              Wind(Get(t, "windspeed"), Get(t, "windgust"), Get(t, "winddir")),
              Sun(Get(t, "sunrise"), Get(t, "sunset")),
              if c != map[] then Some(Current(Get(c, "datetime"), Get(c, "conditions"), Get(c, "temp"), Get(c, "feelslike")))
              else None))
  }

  /** The city is the resolved address if truthy, else the address if truthy,
      else the literal "Unknown". */
  lemma NormalisedCity(data: Json)
    requires WellShaped(data)
    ensures var m := Payload(data.fields).fields; var city := ToHumanReadable(data).value.city;
      && (Truthy(Get(m, "resolvedAddress")) ==> city == m["resolvedAddress"])
      && (!Truthy(Get(m, "resolvedAddress")) && Truthy(Get(m, "address")) ==> city == m["address"])
      && (!Truthy(Get(m, "resolvedAddress")) && !Truthy(Get(m, "address")) ==> city == JStr("Unknown"))
  {
  }

  /** A wrapped payload is read exactly as the bare payload would be; the
      wrapper's other keys are ignored. */
  lemma UnwrapsMessage(outer: map<string, Json>, inner: map<string, Json>)
    requires "message" in outer && outer["message"] == JObj(inner)
    requires "message" !in inner
    ensures ToHumanReadable(JObj(outer)) == ToHumanReadable(JObj(inner))
  {
  }

  /** A missing or empty day list does not raise: every day-level field is
      `None`, the precipitation types are `[]`, and the summary falls back
      to the top-level description. */
  lemma NormalisedWithoutDays(data: Json)
    requires data.JObj? && Payload(data.fields).JObj?
    requires !Truthy(Get(Payload(data.fields).fields, "days"))
    requires CurrentUsable(Get(Payload(data.fields).fields, "currentConditions"))
    ensures var r := ToHumanReadable(data);
      && r.Success?
      && r.value.date == JNull && r.value.conditions == JNull
      && r.value.temperature == Temperature(JNull, JNull, JNull, JNull)
      && r.value.precipitation == Precipitation(JNull, JNull, JArr([]), JNull)
      && r.value.wind == Wind(JNull, JNull, JNull)
      && r.value.sun == Sun(JNull, JNull)
      && r.value.summary == Get(Payload(data.fields).fields, "description")
  {
  }

  /** Day-level fields are read from the first day only, key by key, with
      `None` for a missing key; the summary prefers the day's description. */
  lemma NormalisedFirstDay(data: Json)
    requires WellShaped(data)
    requires Truthy(Get(Payload(data.fields).fields, "days"))
    ensures var m := Payload(data.fields).fields; var t := Get(m, "days").items[0].fields;
      var r := ToHumanReadable(data).value;
      && r.date == Get(t, "datetime") && r.conditions == Get(t, "conditions")
      && r.temperature == Temperature(Get(t, "temp"), Get(t, "tempmax"), Get(t, "tempmin"), Get(t, "feelslike"))
      && r.precipitation.amountMm == Get(t, "precip") && r.precipitation.chancePercent == Get(t, "precipprob")
      && r.precipitation.snow == Get(t, "snow")
      && (Truthy(Get(t, "preciptype")) ==> r.precipitation.types == t["preciptype"])
      && (!Truthy(Get(t, "preciptype")) ==> r.precipitation.types == JArr([]))
      && r.wind == Wind(Get(t, "windspeed"), Get(t, "windgust"), Get(t, "winddir"))
      && r.sun == Sun(Get(t, "sunrise"), Get(t, "sunset"))
      && (Truthy(Get(t, "description")) ==> r.summary == t["description"])
      && (!Truthy(Get(t, "description")) ==> r.summary == Get(m, "description"))
  {
  }

  /** Days after the first never influence the result. */
  lemma LaterDaysIgnored(m: map<string, Json>, day: Json, rest1: seq<Json>, rest2: seq<Json>)
    requires "message" !in m
    ensures ToHumanReadable(JObj(m["days" := JArr([day] + rest1)]))
         == ToHumanReadable(JObj(m["days" := JArr([day] + rest2)]))
  {
    var m1 := m["days" := JArr([day] + rest1)];
    var m2 := m["days" := JArr([day] + rest2)];
    assert ([day] + rest1)[0] == day;
    assert ([day] + rest2)[0] == day;
    assert Payload(m1) == JObj(m1) && Payload(m2) == JObj(m2);
    assert FirstDay(Or(Get(m1, "days"), JArr([]))) == FirstDay(Or(Get(m2, "days"), JArr([])));
    assert forall k :: k != "days" ==> Get(m1, k) == Get(m2, k);
  }

  /** `current` is `None` exactly when `currentConditions` is missing or
      falsy; otherwise it holds the four copied fields. */
  lemma NormalisedCurrent(data: Json)
    requires WellShaped(data)
    ensures var cc := Get(Payload(data.fields).fields, "currentConditions");
      var r := ToHumanReadable(data).value;
      && (!Truthy(cc) <==> r.current.None?)
      && (Truthy(cc) ==> r.current == Some(Current(Get(cc.fields, "datetime"), Get(cc.fields, "conditions"),
                                                   Get(cc.fields, "temp"), Get(cc.fields, "feelslike"))))
  {
  }

  /** The London example: the first day's fields and the resolved address
      come through unchanged. */
  lemma LondonExample()
    ensures var day := JObj(map["datetime" := JStr("2026-01-17"), "temp" := JNum(7.9), "tempmax" := JNum(10.0),
                                "tempmin" := JNum(3.8), "feelslike" := JNum(5.4), "conditions" := JStr("Partially cloudy")]);
      var payload := JObj(map["days" := JArr([day]), "timezone" := JStr("Europe/London"), "resolvedAddress" := JStr("London")]);
      var r := ToHumanReadable(payload);
      && r.Success?
      && r.value.city == JStr("London") && r.value.date == JStr("2026-01-17")
      && r.value.timezone == JStr("Europe/London") && r.value.temperature.average == JNum(7.9)
      && r.value.current == None
  {
    var day := JObj(map["datetime" := JStr("2026-01-17"), "temp" := JNum(7.9), "tempmax" := JNum(10.0),
                        "tempmin" := JNum(3.8), "feelslike" := JNum(5.4), "conditions" := JStr("Partially cloudy")]);
    var m := map["days" := JArr([day]), "timezone" := JStr("Europe/London"), "resolvedAddress" := JStr("London")];
    assert Payload(m) == JObj(m);
    assert Get(m, "days") == JArr([day]);
    assert Get(m, "currentConditions") == JNull;
    assert FirstDay(JArr([day])) == Success(day.fields);
    assert Get(day.fields, "temp") == JNum(7.9);
    assert Get(day.fields, "datetime") == JStr("2026-01-17");
  }

  function TemperatureToJson(t: Temperature): Json {
    JObj(map["average" := t.average, "high" := t.high, "low" := t.low, "feels_like" := t.feelsLike])
  }

  function PrecipitationToJson(p: Precipitation): Json {
    JObj(map["amount_mm" := p.amountMm, "chance_percent" := p.chancePercent,
             "types" := p.types, "snow" := p.snow])
  }

  function WindToJson(wd: Wind): Json {
    JObj(map["speed_kmh" := wd.speedKmh, "gust_kmh" := wd.gustKmh,
             "direction_degrees" := wd.directionDegrees])
  }

  function SunToJson(sun: Sun): Json {
    JObj(map["sunrise" := sun.sunrise, "sunset" := sun.sunset])
  }

  /** The `"current"` entry: a dict of the four fields, or `None`. */
  function CurrentToJson(c: Option<Current>): Json {
    match c
    case None => JNull
    case Some(cur) => JObj(map[
      "time" := cur.time, "conditions" := cur.conditions,
      "temp_c" := cur.tempC, "feels_like_c" := cur.feelsLikeC])
  }

  /** The dict literal `_to_human_readable` builds, with its key names. */
  function ToJson(w: WeatherResult): (j: Json)
    ensures j.JObj?
    ensures j.fields.Keys == ResultKeys
    ensures j.fields["city"] == w.city && j.fields["date"] == w.date && j.fields["timezone"] == w.timezone
    ensures j.fields["current"] == JNull <==> w.current.None?
  {
    JObj(map[
      "city" := w.city,
      "date" := w.date,
      "timezone" := w.timezone,
      "summary" := w.summary,
      "conditions" := w.conditions,
      "temperature_c" := TemperatureToJson(w.temperature),
      "precipitation" := PrecipitationToJson(w.precipitation),
      "wind" := WindToJson(w.wind),
      "sun" := SunToJson(w.sun),
      "current" := CurrentToJson(w.current)])
  }

  /** `j[k]` on a dict, or `None` when `j` is not a dict or lacks the key. */
  function Field(j: Json, k: string): Option<Json> {
    if j.JObj? && k in j.fields then Some(j.fields[k]) else None
  }

  function TemperatureFromJson(j: Json): Option<Temperature> {
    var average :- Field(j, "average");
    var high :- Field(j, "high");
    var low :- Field(j, "low");
    var feelsLike :- Field(j, "feels_like");
    Some(Temperature(average, high, low, feelsLike))
  }

  function PrecipitationFromJson(j: Json): Option<Precipitation> {
    var amountMm :- Field(j, "amount_mm");
    var chancePercent :- Field(j, "chance_percent");
    var types :- Field(j, "types");
    var snow :- Field(j, "snow");
    Some(Precipitation(amountMm, chancePercent, types, snow))
  }

  function WindFromJson(j: Json): Option<Wind> {
    var speedKmh :- Field(j, "speed_kmh");
    var gustKmh :- Field(j, "gust_kmh");
    var directionDegrees :- Field(j, "direction_degrees");
    Some(Wind(speedKmh, gustKmh, directionDegrees))
  }

  function SunFromJson(j: Json): Option<Sun> {
    var sunrise :- Field(j, "sunrise");
    var sunset :- Field(j, "sunset");
    Some(Sun(sunrise, sunset))
  }

  /** Reads the `"current"` entry back: null, or a dict of the four fields. */
  function CurrentFromJson(j: Json): Option<Option<Current>> {
    if j == JNull then Some(None)
    else
      var time :- Field(j, "time");
      var conditions :- Field(j, "conditions");
      var tempC :- Field(j, "temp_c");
      var feelsLikeC :- Field(j, "feels_like_c");
      Some(Some(Current(time, conditions, tempC, feelsLikeC)))
  }

  /** The top-level keys of the dict literal in `_to_human_readable`. */
  const ResultKeys: set<string> := {"city", "date", "timezone", "summary", "conditions",
                                    "temperature_c", "precipitation", "wind", "sun", "current"}

  /** Reads a result back from its dict form, key by key, under the key names
      of the dict literal in `_to_human_readable`. */
  function FromJson(j: Json): Option<WeatherResult> {
    if !j.JObj? || !(ResultKeys <= j.fields.Keys) then None
    else
      var f := j.fields;
      var temperature :- TemperatureFromJson(f["temperature_c"]);
      var precipitation :- PrecipitationFromJson(f["precipitation"]);
      var wind :- WindFromJson(f["wind"]);
      var sun :- SunFromJson(f["sun"]);
      var current :- CurrentFromJson(f["current"]);
      Some(WeatherResult(f["city"], f["date"], f["timezone"], f["summary"], f["conditions"],
                         temperature, precipitation, wind, sun, current))
  }

  /** The dict form loses nothing: every field of the result is found again
      under its own key, in the nested dicts as well as at the top. */
  lemma FromJsonToJson(w: WeatherResult)
    ensures FromJson(ToJson(w)) == Some(w)
  {
    ToJsonEntries(w);
    TemperatureRoundTrip(w.temperature);
    PrecipitationRoundTrip(w.precipitation);
    WindRoundTrip(w.wind);
    SunRoundTrip(w.sun);
    CurrentRoundTrip(w.current);
  }

  /** Each top-level key of the dict form holds its own part of the result. */
  lemma ToJsonEntries(w: WeatherResult)
    ensures var f := ToJson(w).fields;
      && f["city"] == w.city && f["date"] == w.date && f["timezone"] == w.timezone
      && f["summary"] == w.summary && f["conditions"] == w.conditions
      && f["temperature_c"] == TemperatureToJson(w.temperature)
      && f["precipitation"] == PrecipitationToJson(w.precipitation)
      && f["wind"] == WindToJson(w.wind)
      && f["sun"] == SunToJson(w.sun)
      && f["current"] == CurrentToJson(w.current)
  {
  }

  lemma TemperatureRoundTrip(t: Temperature)
    ensures TemperatureFromJson(TemperatureToJson(t)) == Some(t)
  {
  }

  lemma PrecipitationRoundTrip(p: Precipitation)
    ensures PrecipitationFromJson(PrecipitationToJson(p)) == Some(p)
  {
  }

  lemma WindRoundTrip(wd: Wind)
    ensures WindFromJson(WindToJson(wd)) == Some(wd)
  {
  }

  lemma SunRoundTrip(sun: Sun)
    ensures SunFromJson(SunToJson(sun)) == Some(sun)
  {
  }

  lemma CurrentRoundTrip(c: Option<Current>)
    ensures CurrentFromJson(CurrentToJson(c)) == Some(c)
  {
  }

  /** A document that is the dict form of a normalised result. */
  predicate IsWeatherDoc(doc: Json) {
    && FromJson(doc).Some?
    && NormalisedShape(FromJson(doc).value)
    && ToJson(FromJson(doc).value) == doc
  }

  // ----------------------------------------------------- provider outcomes

  /** What the single GET to the provider comes to: a response, an
      `httpx.TimeoutException`, or any other `httpx.RequestError`. */
  datatype Outcome = Status(code: int, body: Json) | Timeout | NetworkError(detail: string)

  function StatusErrorMessage(code: nat): (m: string)
    ensures |m| > |StatusErrorPrefix| && m[..|StatusErrorPrefix|] == StatusErrorPrefix && AllDigits(m[|StatusErrorPrefix|..])
  {
    StatusErrorPrefix + NatToString(code)
  }

  /** The status code can be read back from the provider-error message. */
  lemma StatusErrorMessageNamesCode(code: nat)
    ensures DigitsValue(StatusErrorMessage(code)[|StatusErrorPrefix|..]) == code
  {
    assert StatusErrorMessage(code)[|StatusErrorPrefix|..] == NatToString(code);
    NatToStringRoundTrip(code);
  }

  /** Different status codes give different messages. */
  lemma StatusErrorMessagesDistinct(c1: nat, c2: nat)
    requires c1 != c2
    ensures StatusErrorMessage(c1) != StatusErrorMessage(c2)
  {
    StatusErrorMessageNamesCode(c1);
    StatusErrorMessageNamesCode(c2);
  }

  /** The body of the `try` block after the GET, and its two `except`
      clauses: the normalised result, or the exception that leaves it. */
  function Classify(city: string, outcome: Outcome): (r: Result<WeatherResult, PyException>)
    ensures r == Failure(WeatherNotFoundError(city + " not found"))
        <==> outcome.Status? && outcome.code == 404
    ensures (r.Failure? && r.error.WeatherProviderError?)
        <==> (outcome.Status? && outcome.code >= 400 && outcome.code != 404) || outcome.Timeout? || outcome.NetworkError?
    ensures outcome.Status? && outcome.code >= 400 && outcome.code != 404 ==>
      r == Failure(WeatherProviderError(StatusErrorMessage(outcome.code)))
    ensures outcome.Timeout? ==> r == Failure(WeatherProviderError(TimeoutMessage))
    ensures outcome.NetworkError? ==> r == Failure(WeatherProviderError(NetworkErrorPrefix + outcome.detail))
    ensures r.Success? <==> outcome.Status? && outcome.code < 400 && WellShaped(outcome.body)
    ensures r.Success? ==> r == Success(ToHumanReadable(outcome.body).value)
    ensures (r.Failure? && r.error.Other?) <==> outcome.Status? && outcome.code < 400 && !WellShaped(outcome.body)
  {
    match outcome
    case Status(code, body) =>
      if code == 404 then Failure(WeatherNotFoundError(city + " not found"))
      else if code >= 400 then Failure(WeatherProviderError(StatusErrorMessage(code)))
      else ToHumanReadable(body).MapFailure(e => Other(e))
    case Timeout => Failure(WeatherProviderError(TimeoutMessage))
    case NetworkError(detail) => Failure(WeatherProviderError(NetworkErrorPrefix + detail))
  }

  // ------------------------------------------------------------ fetch_weather

  /** A value written by `setex`: the document and the time-to-live it was
      written with. Expiry over time is left to the store. */
  datatype CacheEntry = CacheEntry(doc: Json, ttl: int)

  /** What one call of `fetch_weather` does: its result, the cache after it,
      and whether it called the provider. */
  datatype FetchStep = FetchStep(result: Result<Json, PyException>, cache: map<string, CacheEntry>, calledProvider: bool)

  /** `fetch_weather` as a function of the configuration, the cache before the
      call, the city and what the provider would answer. */
  function Fetch(apiKey: Option<string>, ttl: int, cache: map<string, CacheEntry>, city: string, outcome: Outcome): (s: FetchStep)
    // an unset key fails before the cache is read, even for a cached city
    ensures !ApiKeySet(apiKey) ==> s == FetchStep(Failure(RuntimeError(MissingApiKeyMessage)), cache, false)
    // the provider is called exactly on a cache miss
    ensures s.calledProvider <==> ApiKeySet(apiKey) && CacheKey(city) !in cache
    // a hit returns the stored document and writes nothing
    ensures ApiKeySet(apiKey) && CacheKey(city) in cache ==>
      s.result == Success(cache[CacheKey(city)].doc) && s.cache == cache
    // no failing path writes to the cache
    ensures s.result.Failure? ==> s.cache == cache
    // on a miss, a failure to classify the outcome is exactly the failure returned
    ensures s.calledProvider && Classify(city, outcome).Failure? ==>
      s.result == Failure(Classify(city, outcome).error)
    // on a miss with a usable payload, the write succeeds exactly when the ttl is positive;
    // otherwise Redis refuses `SETEX` and its error propagates
    ensures s.calledProvider && Classify(city, outcome).Success? ==>
      && (s.result.Success? <==> ttl > 0)
      && (ttl <= 0 ==> s.result == Failure(Other(ResponseError)))
    // a successful provider call stores the returned document under the key, with the ttl
    ensures s.calledProvider && s.result.Success? ==>
      && ttl > 0
      && outcome.Status? && outcome.code < 400 && ToHumanReadable(outcome.body).Success?
      && s.result.value == ToJson(ToHumanReadable(outcome.body).value)
      && s.cache == cache[CacheKey(city) := CacheEntry(s.result.value, ttl)]
    // every failure is a missing key, one of the two domain errors, a payload
    // of the wrong shape, or a refused write
    ensures s.result.Failure? ==>
      || (s.result.error.RuntimeError? && !ApiKeySet(apiKey))
      || s.result.error.WeatherProviderError?
      || s.result.error.WeatherNotFoundError?
      || (s.result.error.Other? && s.result.error.kind != ResponseError
          && outcome.Status? && outcome.code < 400 && !WellShaped(outcome.body))
      || (s.result.error == Other(ResponseError) && ttl <= 0)
  {
    if !ApiKeySet(apiKey) then FetchStep(Failure(RuntimeError(MissingApiKeyMessage)), cache, false)
    else
      var key := CacheKey(city);
      if key in cache then FetchStep(Success(cache[key].doc), cache, false)
      else match Classify(city, outcome)
        case Success(w) =>
          if ttl > 0 then FetchStep(Success(ToJson(w)), cache[key := CacheEntry(ToJson(w), ttl)], true)
          else FetchStep(Failure(Other(ResponseError)), cache, true)
        case Failure(e) => FetchStep(Failure(e), cache, true)
  }

  /** What every entry the client writes satisfies: it holds the dict form of
      a normalised result and carries the configured ttl. */
  predicate CacheValid(cache: map<string, CacheEntry>, ttl: int) {
    forall k | k in cache :: |k| >= |KeyPrefix| && k[..|KeyPrefix|] == KeyPrefix && IsWeatherDoc(cache[k].doc) && cache[k].ttl == ttl
  }

  /** `fetch_weather` keeps the cache valid, and whatever it returns, from
      the cache or fresh, is the dict form of a normalised result. */
  lemma FetchKeepsCacheValid(apiKey: Option<string>, ttl: int, cache: map<string, CacheEntry>, city: string, outcome: Outcome)
    requires CacheValid(cache, ttl)
    ensures var s := Fetch(apiKey, ttl, cache, city, outcome);
      && CacheValid(s.cache, ttl)
      && (s.result.Success? ==> IsWeatherDoc(s.result.value))
      && (s.result.Success? ==> s.result.value.JObj? && Truthy(s.result.value.fields["city"]))
  {
    var s := Fetch(apiKey, ttl, cache, city, outcome);
    var key := CacheKey(city);
    if !s.calledProvider {
      if s.result.Success? {
        assert s.result.value == cache[key].doc;
        assert IsWeatherDoc(s.result.value);
        var w := FromJson(s.result.value).value;
        assert ToJson(w) == s.result.value;
      }
    } else if s.result.Success? {
      var w := ToHumanReadable(outcome.body).value;
      assert ToJson(w) == s.result.value;
      FromJsonToJson(w);
      assert s.cache == cache[key := CacheEntry(ToJson(w), ttl)];
      forall k | k in s.cache
        ensures |k| >= |KeyPrefix| && k[..|KeyPrefix|] == KeyPrefix
        ensures IsWeatherDoc(s.cache[k].doc) && s.cache[k].ttl == ttl
      {
        if k == key {
          assert s.cache[k] == CacheEntry(ToJson(w), ttl);
        } else {
          assert s.cache[k] == cache[k];
        }
      }
    }
  }

  /** A call right after a successful one, for a name that differs only in
      case and surrounding whitespace, is a hit: same document, no provider
      call, no write, whatever the provider would answer. */
  lemma RepeatIsCacheHit(apiKey: Option<string>, ttl: int, cache: map<string, CacheEntry>,
                         city: string, again: string, first: Outcome, second: Outcome)
    requires Fetch(apiKey, ttl, cache, city, first).result.Success?
    requires CaseVariants(Strip(city), Strip(again))
    ensures var s1 := Fetch(apiKey, ttl, cache, city, first);
      Fetch(apiKey, ttl, s1.cache, again, second) == FetchStep(s1.result, s1.cache, false)
  {
    CacheKeyEqualIff(city, again);
  }

  // --------------------------------------------------------- imperative shell

  /** The Redis store `redis_client` of src/services/weather_client.py, seen
      as a map from keys to entries that have not yet expired. */
  class Store {
    var entries: map<string, CacheEntry>

    constructor (entries: map<string, CacheEntry>)
      ensures this.entries == entries
    {
      this.entries := entries;
    }

    /** `await redis_client.get(key)`, decoded. */
    method Get(key: string) returns (v: Option<Json>)
      ensures key in entries ==> v == Some(entries[key].doc)
      ensures key !in entries ==> v == None
    {
      v := if key in entries then Some(entries[key].doc) else None;
    }

    /** `await redis_client.setex(key, ttl, json.dumps(doc))`. Redis refuses
        an expiry that is not positive with a `ResponseError` and stores
        nothing. */
    method SetEx(key: string, ttl: int, doc: Json) returns (r: Result<(), OtherError>)
      modifies this
      ensures ttl > 0 ==> r == Success(()) && entries == old(entries)[key := CacheEntry(doc, ttl)]
      ensures ttl <= 0 ==> r == Failure(ResponseError) && entries == old(entries)
    {
      if ttl <= 0 {
        return Failure(ResponseError);
      }
      entries := entries[key := CacheEntry(doc, ttl)];
      return Success(());
    }
  }

  /** A stand-in for the provider behind `httpx.AsyncClient.get`: it answers
      each city with a fixed outcome and logs every city it was asked for. */
  class Provider {
    const respond: string -> Outcome
    var requests: seq<string>

    constructor (respond: string -> Outcome)
      ensures this.respond == respond && requests == []
    {
      this.respond := respond;
      requests := [];
    }

    method Get(city: string) returns (o: Outcome)
      modifies this
      ensures o == respond(city) && requests == old(requests) + [city]
    {
      o := respond(city);
      requests := requests + [city];
    }
  }

  /** The module-level configuration and store of
      src/services/weather_client.py. */
  class Client {
    const apiKey: Option<string>
    const cacheTtl: int
    const redis: Store

    constructor (apiKey: Option<string>, ttlSetting: Option<int>, redis: Store)
      ensures this.apiKey == apiKey && cacheTtl == CacheTtl(ttlSetting) && this.redis == redis
    {
      this.apiKey := apiKey;
      cacheTtl := CacheTtl(ttlSetting);
      this.redis := redis;
    }

    /** `fetch_weather`; the provider is asked, with the city as given, only
        on a cache miss. */
    method FetchWeather(city: string, provider: Provider) returns (r: Result<Json, PyException>)
      modifies redis, provider
      ensures var s := Fetch(apiKey, cacheTtl, old(redis.entries), city, provider.respond(city));
        && r == s.result
        && redis.entries == s.cache
        && provider.requests == old(provider.requests) + (if s.calledProvider then [city] else [])
    {
      ghost var step := Fetch(apiKey, cacheTtl, redis.entries, city, provider.respond(city));
      if !ApiKeySet(apiKey) {
        return Failure(RuntimeError(MissingApiKeyMessage));
      }
      var key := CacheKey(city);
      var cached := redis.Get(key);
      if cached.Some? {
        return Success(cached.value);
      }
      var outcome := provider.Get(city);
      assert step.calledProvider;
      match Classify(city, outcome)
      case Failure(e) =>
        assert step.result == Failure(e) && step.cache == redis.entries;
        return Failure(e);
      case Success(w) =>
        var result := ToJson(w);
        var written := redis.SetEx(key, cacheTtl, result);
        if written.Failure? {
          assert step == FetchStep(Failure(Other(ResponseError)), redis.entries, true);
          return Failure(Other(written.error));
        }
        assert step == FetchStep(Success(result), redis.entries, true);
        return Success(result);
    }
  }
}
