/**
 * The four request handlers (app/routes/config.py). Each looks the code up and then
 * acts. Three of them run inside `try ... except Exception`, which catches their own
 * `ConfigurationAlreadyExists` / `ConfigurationNotFoundError` as well as database
 * errors and re-raises every one as an HTTP exception with status 500. Only the GET
 * handler has no such clause, and it alone answers 404.
 */
module Routes {
  import opened Wrappers
  import opened Models
  import opened Schemas
  import opened Exceptions
  import opened Crud

  /** How a handler ends: it returns a record, raises an HTTP exception, or never runs because the body is invalid. */
  datatype HandlerResult =
    | Returned(config: Configuration)
    | Raised(exc: HttpException)
    | Rejected(error: ValidationError)

  /** What the client receives. */
  datatype Body =
    | Record(config: Configuration)
    | Json(content: map<string, Detail>)
    | ValidationErrors(error: ValidationError)

  datatype Response = Response(statusCode: int, body: Body)

  const UnprocessableStatus: int := 422
  const InternalErrorStatus: int := 500

  /** `HTTPException(status_code=500, detail=str(e))`. */
  function InternalServerError(caught: Caught): (e: HttpException)
    ensures e.statusCode == 500
    ensures e.detail.Str? && e.detail.caught == caught
  {
    HttpException(InternalErrorStatus, Str(caught))
  }

  /**
   * The `try ... except Exception as e: raise HTTPException(500, str(e))` around a
   * handler body: a value passes through, anything raised becomes a 500.
   */
  function CatchAll(attempt: Result<Configuration, Caught>): (r: HandlerResult)
    ensures attempt.Ok? <==> r.Returned?
    ensures attempt.Ok? ==> r.config == attempt.value
    ensures attempt.Err? ==> r.Raised? && r.exc.statusCode == 500 && r.exc.detail == Str(attempt.error)
  {
    match attempt
    case Ok(config) => Returned(config)
    case Err(caught) => Raised(InternalServerError(caught))
  }

  /** A database error raised out of a crud call, as the handler's `except` sees it. */
  function Raising<T>(res: Result<T, DbError>): Result<T, Caught>
  {
    match res
    case Ok(v) => Ok(v)
    case Err(e) => Err(CaughtDb(e))
  }

  /**
   * The response: a returned record with status 200 (the response model keeps id,
   * country_code and requirements), a raised exception through
   * `http_exception_handler`, an invalid body with status 422.
   */
  function Respond(r: HandlerResult): (resp: Response)
    ensures r.Returned? ==> resp == Response(200, Record(r.config))
    ensures r.Raised? ==> resp.statusCode == r.exc.statusCode && resp.body == Json(map["message" := r.exc.detail])
    ensures r.Rejected? ==> resp.statusCode == 422 && resp.body == ValidationErrors(r.error)
  {
    match r
    case Returned(config) => Response(200, Record(config))
    case Raised(exc) =>
      var json := HttpExceptionHandler(exc);
      Response(json.statusCode, Json(json.content))
    case Rejected(error) => Response(UnprocessableStatus, ValidationErrors(error))
  }

  /** Whatever a guarded handler raises, the client sees 500, never 404. */
  lemma GuardedHandlersNeverAnswer404(attempt: Result<Configuration, Caught>)
    ensures Respond(CatchAll(attempt)).statusCode in {200, 500}
    ensures attempt.Err? ==> Respond(CatchAll(attempt)) == Response(500, Json(map["message" := Str(attempt.error)]))
  {
  }

  /** POST /create_configuration. */
  method CreateConfiguration(db: Store, body: ConfigurationBase, commitOk: bool, refreshOk: bool)
    returns (r: HandlerResult)
    requires db.Valid()
    modifies db
    ensures db.Valid()
    ensures !CountryCodeLengthOk(body.countryCode) ==>
      r == Rejected(ValidateCreate(body).error) && Respond(r).statusCode == 422
      && db.rows == old(db.rows) && db.ids == old(db.ids)
    ensures CountryCodeLengthOk(body.countryCode) && body.countryCode in old(db.rows) ==>
      r == Raised(InternalServerError(CaughtHttp(ConfigurationAlreadyExists(body.countryCode))))
      && Respond(r).statusCode == 500
      && db.rows == old(db.rows) && db.ids == old(db.ids)
    ensures CountryCodeLengthOk(body.countryCode) && body.countryCode !in old(db.rows) && !commitOk ==>
      r == Raised(InternalServerError(CaughtDb(StorageFailure)))
      && db.rows == old(db.rows) && db.ids == old(db.ids)
    ensures CountryCodeLengthOk(body.countryCode) && body.countryCode !in old(db.rows) && commitOk ==>
      && body.countryCode in db.rows
      && var row := db.rows[body.countryCode];
      && row.countryCode == body.countryCode
      && row.requirements == body.requirements
      && row.id !in old(db.ids)
      && db.rows == old(db.rows)[body.countryCode := row]
      && db.ids == old(db.ids) + {row.id}
      && r == (if refreshOk then Returned(row) else Raised(InternalServerError(CaughtDb(StorageFailure))))
  {
    var validated := ValidateCreate(body);
    if validated.Err? {
      r := Rejected(validated.error);
      return;
    }
    var payload := validated.value;
    var attempt: Result<Configuration, Caught>;
    var existing := db.GetConfiguration(payload.countryCode);
    if existing.Some? {
      attempt := Err(CaughtHttp(ConfigurationAlreadyExists(payload.countryCode)));
    } else {
      var created := db.CreateConfiguration(payload, commitOk, refreshOk);
      attempt := Raising(created);
    }
    r := CatchAll(attempt);
  }

  /** GET /get_configuration/{country_code}: the one handler that reads only and answers 404. */
  method GetConfiguration(db: Store, countryCode: string) returns (r: HandlerResult)
    requires db.Valid()
    ensures countryCode in db.rows ==> r == Returned(db.rows[countryCode]) && Respond(r).statusCode == 200
    ensures countryCode !in db.rows ==>
      r == Raised(ConfigurationNotFoundError(countryCode))
      && Respond(r) == Response(404, Json(map["message" := Text(NotFoundMessage(countryCode))]))
  {
    var found := db.GetConfiguration(countryCode);
    if found.None? {
      r := Raised(ConfigurationNotFoundError(countryCode));
    } else {
      r := Returned(found.value);
    }
  }

  /** POST /update_configuration?country_code=... */
  method UpdateConfiguration(db: Store, body: ConfigurationUpdate, countryCode: string, commitOk: bool, refreshOk: bool)
    returns (r: HandlerResult)
    requires db.Valid()
    modifies db
    ensures db.Valid() && db.ids == old(db.ids)
    ensures countryCode !in old(db.rows) ==>
      r == Raised(InternalServerError(CaughtHttp(ConfigurationNotFoundError(countryCode))))
      && Respond(r).statusCode == 500
      && db.rows == old(db.rows)
    ensures countryCode in old(db.rows) && !commitOk ==>
      r == Raised(InternalServerError(CaughtDb(StorageFailure))) && db.rows == old(db.rows)
    ensures countryCode in old(db.rows) && commitOk ==>
      && var row := old(db.rows)[countryCode].(requirements := body.requirements);
      && db.rows == old(db.rows)[countryCode := row]
      && r == (if refreshOk then Returned(row) else Raised(InternalServerError(CaughtDb(StorageFailure))))
  {
    var attempt: Result<Configuration, Caught>;
    var existing := db.GetConfiguration(countryCode);
    if existing.None? {
      attempt := Err(CaughtHttp(ConfigurationNotFoundError(countryCode)));
    } else {
      var updated := db.UpdateConfiguration(countryCode, body, commitOk, refreshOk);
      match updated
      case Ok(Some(config)) => attempt := Ok(config);
      case Err(e) => attempt := Err(CaughtDb(e));
      case Ok(None) => assert false;  // the code was found just above
    }
    r := CatchAll(attempt);
  }

  /** DELETE /delete_configuration?country_code=... */
  method DeleteConfiguration(db: Store, countryCode: string, commitOk: bool)
    returns (r: HandlerResult)
    requires db.Valid()
    modifies db
    ensures db.Valid()
    ensures countryCode !in old(db.rows) ==>
      r == Raised(InternalServerError(CaughtHttp(ConfigurationNotFoundError(countryCode))))
      && Respond(r).statusCode == 500
      && db.rows == old(db.rows) && db.ids == old(db.ids)
    ensures countryCode in old(db.rows) && !commitOk ==>
      r == Raised(InternalServerError(CaughtDb(StorageFailure)))
      && db.rows == old(db.rows) && db.ids == old(db.ids)
    ensures countryCode in old(db.rows) && commitOk ==>
      && r == Returned(old(db.rows)[countryCode])
      && db.rows == old(db.rows) - {countryCode}
      && db.ids == old(db.ids) - {old(db.rows)[countryCode].id}
  {
    var attempt: Result<Configuration, Caught>;
    var existing := db.GetConfiguration(countryCode);
    if existing.None? {
      attempt := Err(CaughtHttp(ConfigurationNotFoundError(countryCode)));
    } else {
      var deleted := db.DeleteConfiguration(countryCode, commitOk);
      match deleted
      case Ok(Some(config)) => attempt := Ok(config);
      case Err(e) => attempt := Err(CaughtDb(e));
      case Ok(None) => assert false;  // the code was found just above
    }
    r := CatchAll(attempt);
  }

  /**
   * Requests against a fresh table, with every database step succeeding: a create,
   * a duplicate create, two reads and a body with a one-character code.
   */
  method CreateAndReadSequence()
  {
    var db := new Store();
    var created := CreateConfiguration(db, ConfigurationBase("US", ["passport"]), true, true);
    assert created.Returned? && created.config.countryCode == "US" && created.config.requirements == ["passport"];

    var again := CreateConfiguration(db, ConfigurationBase("US", ["visa"]), true, true);
    assert Respond(again).statusCode == 500;
    var read := GetConfiguration(db, "US");
    assert read == created;

    var missing := GetConfiguration(db, "FR");
    assert Respond(missing).statusCode == 404;

    var before := db.rows;
    var invalid := CreateConfiguration(db, ConfigurationBase("X", []), true, true);
    assert invalid == Rejected(StringTooShort(2)) && db.rows == before;
  }

  /**
   * Requests against a fresh table, with every database step succeeding: a create,
   * a wholesale update, a read, a delete, a read and a second delete.
   */
  method UpdateAndDeleteSequence()
  {
    var db := new Store();
    var created := CreateConfiguration(db, ConfigurationBase("US", ["passport"]), true, true);
    assert created.Returned?;

    var updated := UpdateConfiguration(db, ConfigurationUpdate(["visa"]), "US", true, true);
    var read := GetConfiguration(db, "US");
    assert read.Returned? && read.config.requirements == ["visa"] && read.config.id == created.config.id;

    var deleted := DeleteConfiguration(db, "US", true);
    assert deleted == read;
    read := GetConfiguration(db, "US");
    assert Respond(read).statusCode == 404;
    deleted := DeleteConfiguration(db, "US", true);
    assert Respond(deleted).statusCode == 500;
  }
}
