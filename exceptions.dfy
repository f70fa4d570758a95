/**
 * The domain errors and their rendering (app/exceptions.py). Both domain errors are
 * HTTP exceptions with status 404, told apart only by their message; the registered
 * handler renders any HTTP exception as a JSON body `{"message": detail}` under the
 * exception's own status code.
 */
module Exceptions {
  import opened Models

  /** An HTTP exception: its status code and its `detail`. */
  datatype HttpException = HttpException(statusCode: int, detail: Detail)

  /**
   * A `detail` is a literal message or `str(e)` of an exception a handler caught; the
   * text of the latter is produced by the framework and kept here as what was caught.
   */
  datatype Detail = Text(text: string) | Str(caught: Caught)

  /** What an `except Exception` clause in a handler can catch. */
  datatype Caught = CaughtHttp(exc: HttpException) | CaughtDb(error: DbError)

  const NotFoundStatus: int := 404
  const AlreadyExistsStatus: int := 404

  function NotFoundMessage(countryCode: string): string
  {
    "Configuration for country code " + countryCode + " not found"
  }

  function AlreadyExistsMessage(countryCode: string): string
  {
    "Configuration for country code " + countryCode + " already exists"
  }

  /** `ConfigurationNotFoundError(country_code)`. */
  function ConfigurationNotFoundError(countryCode: string): (e: HttpException)
    ensures e.statusCode == 404
    ensures e.detail == Text("Configuration for country code " + countryCode + " not found")
  {
    HttpException(NotFoundStatus, Text(NotFoundMessage(countryCode)))
  }

  /** `ConfigurationAlreadyExists(country_code)`: status 404, although documented as 400. */
  function ConfigurationAlreadyExists(countryCode: string): (e: HttpException)
    ensures e.statusCode == 404
    ensures e.detail == Text("Configuration for country code " + countryCode + " already exists")
  {
    HttpException(AlreadyExistsStatus, Text(AlreadyExistsMessage(countryCode)))
  }

  /** The JSON response a handler produces: a status code and a JSON object. */
  datatype JsonResponse = JsonResponse(statusCode: int, content: map<string, Detail>)

  /** `http_exception_handler`: the exception's status, and its detail under the one key "message". */
  function HttpExceptionHandler(exc: HttpException): (resp: JsonResponse)
    ensures resp.statusCode == exc.statusCode
    ensures resp.content.Keys == {"message"} && resp.content["message"] == exc.detail
  {
    JsonResponse(exc.statusCode, map["message" := exc.detail])
  }

  /** Rendering loses nothing: two exceptions rendered alike are the same exception. */
  lemma HandlerIsInjective(a: HttpException, b: HttpException)
    requires HttpExceptionHandler(a) == HttpExceptionHandler(b)
    ensures a == b
  {
  }

  /** A message framed by a fixed prefix and suffix determines what it frames. */
  lemma FramedInjective(prefix: string, a: string, b: string, suffix: string)
    requires prefix + a + suffix == prefix + b + suffix
    ensures a == b
  {
    var s := prefix + a + suffix;
    assert |a| == |b|;
    assert a == s[|prefix|..|prefix| + |a|];
    assert b == (prefix + b + suffix)[|prefix|..|prefix| + |b|];
  }

  /** The not-found message names the country code it was raised for. */
  lemma NotFoundMessageInjective(a: string, b: string)
    requires NotFoundMessage(a) == NotFoundMessage(b)
    ensures a == b
  {
    FramedInjective("Configuration for country code ", a, b, " not found");
  }

  /** The already-exists message names the country code it was raised for. */
  lemma AlreadyExistsMessageInjective(a: string, b: string)
    requires AlreadyExistsMessage(a) == AlreadyExistsMessage(b)
    ensures a == b
  {
    FramedInjective("Configuration for country code ", a, b, " already exists");
  }

  /**
   * The two domain errors share status 404, so a client can tell them apart only by
   * the message, and no not-found message is ever an already-exists message.
   */
  lemma DomainErrorsDifferOnlyInMessage(a: string, b: string)
    ensures ConfigurationNotFoundError(a).statusCode == 404
    ensures ConfigurationAlreadyExists(b).statusCode == 404
    ensures NotFoundMessage(a) != AlreadyExistsMessage(b)
  {
    var nf, ae := NotFoundMessage(a), AlreadyExistsMessage(b);
    assert nf[|nf| - 1] == 'd';
    assert ae[|ae| - 1] == 's';
  }
}
