# Weather API read-through cache, modelled in Dafny

The Weather API is a small HTTP service that returns normalised weather data for a
city. It fronts a third-party weather provider and caches results in Redis. This
project models the service's logic, verified with Dafny 4.11:

- **Cache key** (`_cache_key`): a city name is stripped of surrounding whitespace,
  lower-cased and prefixed with `weather:`.
- **Normaliser** (`_to_human_readable`): a loosely structured provider payload becomes
  a fixed nested result. Fallbacks follow Python truthiness: `None`, `False`, `0`, `""`,
  `[]` and `{}` all count as absent. A payload of the wrong shape raises the same
  Python exception the code would raise.
- **Fetch** (`fetch_weather`): it checks the API key, reads the cache, and on a miss
  calls the provider once. The provider's outcome is classified as a 404, another
  status of 400 or more, a timeout, another transport error, or success. On success
  the result is written back with the configured time-to-live.
- **Exception handlers**: the provider error becomes HTTP 502 and not-found becomes
  HTTP 404, each with body `{"detail": message}`.
- **Redis handle** (`src/redis_client.py`): a module-global handle that is either unset
  or holds the connection made by the last `initialize_redis`.

Files:

- `wrappers.dfy`: `Option` and `Result`.
- `json_value.dfy`: decoded JSON values, truthiness, `dict.get` and `or`.
- `py_text.dfy`: `str.strip`, `str.lower` and decimal rendering of integers.
- `exceptions.dfy`: the exception kinds that can leave the fetch.
- `weather_client.dfy`: the cache key, the normaliser and the fetch.
- `exception_handlers.dfy`: the handlers.
- `redis_client.dfy`: the handle lifecycle.

`fetch_weather` is defined twice, once per layer:

- `WeatherClient.Fetch` is a pure function of the configuration, the cache contents
  before the call, the city, and what the provider would answer. Its contract and
  the lemmas beside it hold the properties.
- `WeatherClient.Client.FetchWeather` is the imperative version. It follows the
  source step by step: it reads a `Store` object (the Redis cache as a map from key
  to document and TTL), asks a `Provider` stub only on a miss, and writes the store
  back. It is proved to agree with `Fetch` on the result, the new store contents,
  and whether the provider was asked.

Behaviour worth noting:

- A result without current conditions has `"current": None`; the key is still present.
- A malformed provider payload raises an exception that nothing catches, so not every
  failure is one of the two domain errors.
- A TTL of zero or less is accepted as a setting, but Redis refuses `SETEX` with a
  non-positive expiry. Every miss with a usable payload then raises `ResponseError`
  from the write, after the provider was called, and nothing is cached.
- Provider failures map to 502. The response documentation in src/models.py:133-141
  lists these failures under 503 instead; the code and its documentation disagree,
  and the model follows the handler at src/exception_handlers.py:9.

## Model

| member | source | states |
|---|---|---|
| JsonValue.Truthy | src/services/weather_client.py:27-55 | A value is falsy exactly when it is one of `None`, `False`, `0`, `""`, `[]` and `{}`; every other value is truthy. |
| JsonValue.Or | src/services/weather_client.py:27-55 | `a or b` is `a` when `a` is truthy and `b` otherwise. |
| JsonValue.Get | src/services/weather_client.py:27-59 | `d.get(k)` is the value under `k` when the key is present and `None` when it is missing. |
| WeatherClient.CacheTtl | src/services/weather_client.py:15 | The TTL is 60 seconds when the setting is absent, and otherwise the configured integer. |
| WeatherClient.ApiKeySet | src/services/weather_client.py:96-97 | An absent key and an empty key both count as not set; any non-empty key counts as set. |
| WeatherClient.CacheKey | src/services/weather_client.py:19-20 | The key is `weather:` followed by exactly as many characters as the stripped city has. |
| WeatherClient.CacheKeyPadded | src/services/weather_client.py:19-20 | Whitespace on either side of a city name never changes its key. |
| WeatherClient.CacheKeyEqualIff | src/services/weather_client.py:19-20 | Two names share a key if and only if, once stripped, they differ at most in letter case. |
| WeatherClient.EquivalentCitiesShareKey | src/services/weather_client.py:19-20 | Names that differ only in case and in surrounding whitespace share a key. |
| PyText.IsSpace | src/services/weather_client.py:20 | Space, tab, newline and carriage return are whitespace to `strip()`; letters, digits and code points above U+3000 are not. |
| PyText.TrimStart | src/services/weather_client.py:20 | Leading whitespace is dropped. What remains is a suffix of the input that is empty or starts with a non-space. |
| PyText.TrimEnd | src/services/weather_client.py:20 | Trailing whitespace is dropped. What remains is a prefix of the input that is empty or ends with a non-space. |
| PyText.Strip | src/services/weather_client.py:20 | `strip()` never lengthens a string, and its result neither starts nor ends with whitespace. |
| PyText.StripPadded | src/services/weather_client.py:20 | `strip()` ignores any whitespace added around a string. |
| PyText.StripCore | src/services/weather_client.py:20 | For a core with no whitespace at either end, surrounded by whitespace, `strip()` returns exactly that core. |
| PyText.StripLower | src/services/weather_client.py:20 | Stripping and lower-casing commute. |
| PyText.LowerChar | src/services/weather_client.py:20 | An upper-case letter is moved 32 code points up to its lower case; any other character is unchanged; the result is never upper case. |
| PyText.Lower | src/services/weather_client.py:20 | `lower()` keeps the length of the string. |
| PyText.LowerCharEqual | src/services/weather_client.py:20 | Two characters lower-case to the same character if and only if they are the same letter up to case. |
| PyText.LowerEqualIff | src/services/weather_client.py:20 | Two strings lower-case to the same string if and only if they are case variants of each other. |
| PyText.NatToString | src/services/weather_client.py:119 | The rendering of a number is a non-empty string of decimal digits, with no leading zero. |
| PyText.NatToStringRoundTrip | src/services/weather_client.py:119 | Reading the rendered digits back gives the number. |
| PyText.NatToStringInjective | src/services/weather_client.py:119 | Distinct numbers render differently. |
| WeatherClient.Payload | src/services/weather_client.py:25 | A dict with a `"message"` key is read through that value; any other dict is read as it is. |
| WeatherClient.FirstDay | src/services/weather_client.py:30-31 | A falsy day list gives an empty dict, and a list whose first element is a dict gives that dict. |
| WeatherClient.ToHumanReadable | src/services/weather_client.py:23-94 | It succeeds exactly on well-shaped payloads. Every result has the normalised shape: the city is always truthy and the precipitation types are truthy or `[]`. The timezone is copied, and `current` is `None` exactly when `currentConditions` is falsy. |
| WeatherClient.UnwrapsMessage | src/services/weather_client.py:25 | A payload wrapped in `"message"` is read exactly as the bare payload, and the wrapper's other keys are ignored. |
| WeatherClient.NormalisedCity | src/services/weather_client.py:27 | The city is `resolvedAddress` if truthy, else `address` if truthy, else `"Unknown"`. |
| WeatherClient.NormalisedWithoutDays | src/services/weather_client.py:30-51 | A missing or falsy `days` does not raise. All day fields become `None`, the precipitation types become `[]`, and the summary is the top-level `description`. |
| WeatherClient.NormalisedFirstDay | src/services/weather_client.py:31-52 | Each day field is the first day's value under its key, or `None` if that key is missing. The types fall back to `[]`, and the summary falls back to the top-level description. |
| WeatherClient.LaterDaysIgnored | src/services/weather_client.py:31 | Days after the first never affect the result. |
| WeatherClient.NormalisedCurrent | src/services/weather_client.py:55-93 | `current` is `None` exactly when `currentConditions` is missing or falsy. Otherwise it holds the four copied fields. |
| WeatherClient.LondonExample | src/services/weather_client.py:23-94 | The documented London payload gives city London, date 2026-01-17, timezone Europe/London and average temperature 7.9. |
| WeatherClient.ToJson | src/services/weather_client.py:61-94 | The result dict has exactly the ten top-level keys, copies the city, date and timezone, and has `"current"` set to `None` exactly when there are no current conditions. |
| WeatherClient.ToJsonEntries | src/services/weather_client.py:61-94 | Each top-level key of the result dict holds its own part of the result: the five copied values and the five nested dicts. |
| WeatherClient.FromJsonToJson | src/services/weather_client.py:61-94 | Reading the result dict back key by key, in the nested dicts too, gives exactly the result it was built from. |
| WeatherClient.StatusErrorMessage | src/services/weather_client.py:119 | The provider-error message is the fixed prefix followed by the status code's decimal digits. |
| WeatherClient.StatusErrorMessageNamesCode | src/services/weather_client.py:119 | The status code can be read back from the message. |
| WeatherClient.StatusErrorMessagesDistinct | src/services/weather_client.py:119 | Different status codes give different messages. |
| WeatherClient.Classify | src/services/weather_client.py:112-129 | A 404 gives exactly not-found with `"{city} not found"`. Every other status of 400 or more, and every timeout or network error, gives exactly a provider error, each with its own message. Success happens exactly for a status below 400 with a well-shaped body. |
| WeatherClient.Fetch | src/services/weather_client.py:96-129 | A missing key fails first, even for a cached city. The provider is called exactly on a miss. A hit returns the stored document with no write. On a miss, a classification failure is returned as it is. A usable payload is stored under the key with the TTL exactly when the TTL is positive; otherwise the write raises `ResponseError`. No failure writes. Every failure has one of the listed causes. |
| WeatherClient.FetchKeepsCacheValid | src/services/weather_client.py:99-124 | Every cache entry is a prefixed key holding a document that reads back as a result of the normalised shape, with the configured TTL, and each fetch keeps it so. Every returned document, from the cache or fresh, is such a document, so its `"city"` is truthy. |
| WeatherClient.RepeatIsCacheHit | src/services/weather_client.py:99-124 | Right after a success, a call with an equivalent name returns the same document, makes no provider call and no write. |
| WeatherClient.Store.Get | src/services/weather_client.py:100 | A cache read returns the stored document for a present key, and nothing otherwise. |
| WeatherClient.Store.SetEx | src/services/weather_client.py:123 | With a positive TTL, a cache write replaces the entry under the key with the document and its TTL, and does nothing else. With a TTL of zero or less it raises `ResponseError` and stores nothing. |
| WeatherClient.Provider.Get | src/services/weather_client.py:113-114 | A provider call answers with the outcome for the city and logs one request for that city. |
| WeatherClient.Client.constructor | src/services/weather_client.py:12-17 | The client holds the API key, the TTL setting (defaulting to 60) and the store. |
| WeatherClient.Client.FetchWeather | src/services/weather_client.py:96-129 | The result and the new store contents are those of `Fetch`. The provider is asked once, with the city as given, exactly when `Fetch` calls it. |
| ExceptionHandlers.DetailBody | src/exception_handlers.py:8-11 | The body is a dict with the single key `detail`, holding the message. |
| ExceptionHandlers.HandleException | src/exception_handlers.py:5-18 | Exactly the two domain errors are mapped: the provider error to 502, not-found to 404, each with `{"detail": message}`. Every other exception is left untranslated. |
| ExceptionHandlers.DetailIsMessage | src/exception_handlers.py:6-18 | The response body has the single key `detail`, and its value is exactly the exception's message. |
| ExceptionHandlers.FetchFailureResponse | src/exception_handlers.py:5-18 | On a failed miss: a provider 404 becomes exactly 404 with `"{city} not found"`; the response is 502 exactly for the other provider failures; it is untranslated exactly when the status is below 400; a timeout and a network error give 502 with their own messages. |
| ExceptionHandlers.StatusErrorResponse | src/exception_handlers.py:6-11 | A provider status error reaches the client as a 502 whose detail is the fixed prefix followed by digits that read back as the status code. |
| RedisClient.RedisUrl | src/redis_client.py:4 | The URL is `redis://localhost:6379` unless it is configured. |
| RedisClient.Redis.constructor | src/redis_client.py:10 | A new connection keeps the URL, has one-second socket and connect timeouts, and is open. |
| RedisClient.Redis.Close | src/redis_client.py:16 | Closing marks the connection closed. |
| RedisClient.Handle.constructor | src/redis_client.py:4-6 | The URL is `redis://localhost:6379` when `REDIS_URL` is not set, and the setting otherwise; the handle starts unset. |
| RedisClient.Handle.InitializeRedis | src/redis_client.py:8-11 | A fresh, open connection replaces the handle and is returned. A previous connection is left as it was. |
| RedisClient.Handle.CloseRedis | src/redis_client.py:13-17 | The handle ends unset and a held connection is closed. On an unset handle nothing changes. |
| RedisClient.Handle.GetRedis | src/redis_client.py:19-23 | Reading an unset handle raises `RuntimeError` with the not-initialised message. Otherwise it returns the held connection, and it never changes state. |
| RedisClient.InitializeGetClose | src/redis_client.py:8-23 | The connection made uses the URL read from the setting. After initialising, reading returns the connection that initialising made. After closing, that connection is closed and reading raises. |
| RedisClient.InitializeTwice | src/redis_client.py:8-11 | Initialising again installs a second, distinct connection and leaves the first open. |

## Left out

- The service's rate limiter, input validation and health check are not modelled.
  src/exceptions.py is not part of this model. Its two classes are taken to be plain exceptions whose `str` is their
  message.
- Excluded as external machinery:
  - async/await;
  - the httpx client, its 10-second timeout, and building the URL and query
    parameters;
  - dotenv and environment loading (the settings are parameters);
  - the Redis connection itself;
  - FastAPI routing and the logging setup.
- JSON text: `json.dumps`, `json.loads` and `response.json()` are the identity on
  decoded values. A response body that is not valid JSON, and so raises in
  `response.json()`, is not modelled.
- Reading `WEATHER_DATA_TTL` as text: `int()` and the `ValueError` it can raise are
  not modelled. The setting arrives as an integer.
- Cache failures other than a refused expiry: a lost connection or another Redis
  error on read or write propagates in the source. The model has no such failure.
- TTL expiry over real time: the store holds only unexpired entries, and each entry
  records the TTL it was written with.
- Cache truthiness: a cached value counts as a hit when it is present. Every value
  the service writes is the text of a JSON document, which is never empty, so this
  matches the source's truthiness test.
- Only the first Python exception matters. The model returns the kind of exception
  raised on a malformed payload (AttributeError, KeyError or TypeError), not its
  message.
- Floating point: numbers are reals that are only copied and compared with zero. NaN
  and infinities are not modelled, and integer versus float is not distinguished.
- JSON objects are maps, so key order and duplicate keys are not modelled.
- PyText.LowerChar: lower-casing covers ASCII and Latin-1 only. Other scripts, and
  characters whose lower case is longer than one character, are left unchanged.
- PyText.Lower: keeps the length only because of that limit. Python's `lower()` turns
  'İ' (U+0130) into two characters.
- WeatherClient.CacheKeyEqualIff and WeatherClient.EquivalentCitiesShareKey hold for
  the modelled lower-casing only. In Python "Łódź" and "łódź" share a key; in the model
  they do not, because 'Ł' (U+0141) is outside the modelled upper-case set.
- Concurrency between requests, including a cache stampede, is not modelled: each
  call is one sequential step.
