/**
 * The two exception handlers registered by `register_exception_handlers` in
 * src/exception_handlers.py, as one mapping from an exception to the JSON
 * response it becomes.
 */
module ExceptionHandlers {
  import opened Wrappers
  import opened JsonValue
  import opened PyText
  import opened Exceptions
  import opened WeatherClient

  datatype JsonResponse = JsonResponse(statusCode: int, content: Json)

  /** `{"detail": str(exc)}`. */
  function DetailBody(message: string): (body: Json)
    ensures body.JObj? && body.fields.Keys == {"detail"}
    ensures body.fields["detail"] == JStr(message)
  {
    JObj(map["detail" := JStr(message)])
  }

  /** The response for an exception, or `None` for an exception no handler
      here is registered for; such an exception is left to the framework. */
  function HandleException(e: PyException): (r: Option<JsonResponse>)
    ensures r.Some? <==> e.WeatherProviderError? || e.WeatherNotFoundError?
    ensures e.WeatherProviderError? ==> r == Some(JsonResponse(502, DetailBody(e.message)))
    ensures e.WeatherNotFoundError? ==> r == Some(JsonResponse(404, DetailBody(e.message)))
  {
    match e
    case WeatherProviderError(message) => Some(JsonResponse(502, DetailBody(message)))
    case WeatherNotFoundError(message) => Some(JsonResponse(404, DetailBody(message)))
    case _ => None
  }

  /** The detail is exactly the exception's message, so that message can be
      read back from the response. */
  lemma DetailIsMessage(e: PyException)
    requires HandleException(e).Some?
    ensures var body := HandleException(e).value.content;
      body.JObj? && body.fields.Keys == {"detail"} && body.fields["detail"] == JStr(e.message)
  {
  }

  /** How a failed fetch reaches the client: a provider 404 becomes a 404
      whose detail names the city, any other provider failure a 502, and a
      missing key or a malformed payload is not translated here. */
  lemma FetchFailureResponse(apiKey: Option<string>, ttl: int, cache: map<string, CacheEntry>, city: string, outcome: Outcome)
    requires ApiKeySet(apiKey) && CacheKey(city) !in cache
    requires Fetch(apiKey, ttl, cache, city, outcome).result.Failure?
    ensures var r := HandleException(Fetch(apiKey, ttl, cache, city, outcome).result.error);
      && (outcome.Status? && outcome.code == 404 <==> r == Some(JsonResponse(404, DetailBody(city + " not found"))))
      && (r.Some? && r.value.statusCode == 502 <==>
            (outcome.Status? && outcome.code >= 400 && outcome.code != 404) || outcome.Timeout? || outcome.NetworkError?)
      && (r.None? <==> outcome.Status? && outcome.code < 400)
      && (outcome.Timeout? ==> r == Some(JsonResponse(502, DetailBody(TimeoutMessage))))
      && (outcome.NetworkError? ==> r == Some(JsonResponse(502, DetailBody(NetworkErrorPrefix + outcome.detail))))
  {
  }

  /** A provider status error reaches the client as a 502 whose detail
      names the status code. */
  lemma StatusErrorResponse(apiKey: Option<string>, ttl: int, cache: map<string, CacheEntry>, city: string, body: Json, code: nat)
    requires ApiKeySet(apiKey) && CacheKey(city) !in cache
    requires code >= 400 && code != 404
    ensures var r := HandleException(Fetch(apiKey, ttl, cache, city, Status(code, body)).result.error);
      && r.Some? && r.value.statusCode == 502
      && r.value.content.fields["detail"].JStr?
      && var d := r.value.content.fields["detail"].s;
         |d| > |StatusErrorPrefix| && d[..|StatusErrorPrefix|] == StatusErrorPrefix
         && AllDigits(d[|StatusErrorPrefix|..]) && DigitsValue(d[|StatusErrorPrefix|..]) == code
  {
    StatusErrorMessageNamesCode(code);
  }
}
