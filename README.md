# Country configuration registry — Dafny model

This project models the core of a small HTTP service that keeps, per country code,
a list of textual requirements. It covers:

- the `configurations` table and its key constraints (`app/models.py`): a row is
  `{id, country_code, requirements}`, `id` is the primary key, `country_code` is
  unique and non-null, `requirements` is non-null. The table is a map from country
  code to row plus the set of ids in use (`Models`, `Crud.Store.Valid`).
  Non-null columns are non-null by typing.
- the request shapes (`app/schemas.py`): only a create body checks its country code
  (2 to 3 characters); `requirements` is any list of strings, the empty list
  included; an update body holds `requirements` alone (`Schemas`).
- the data-access functions (`app/crud.py`) as methods of a `Store` class whose
  `rows` and `ids` fields they update in place (`Crud`). The outcome of `commit`
  and `refresh` is an input of each mutation (`commitOk`, `refreshOk`); a failed
  commit is rolled back and leaves the table exactly as it was.
- the domain errors and the error envelope (`app/exceptions.py`): both errors carry
  status 404, and any HTTP exception is rendered as `{"message": detail}` under its
  own status (`Exceptions`).
- the four request handlers (`app/routes/config.py`) as methods taking the store
  (`Routes`). The create, update and delete handlers wrap their body in
  `try ... except Exception`, which also catches the `ConfigurationAlreadyExists` /
  `ConfigurationNotFoundError` they raise themselves: those surface as status 500,
  never 404. Only the GET handler answers 404.

Where the code and its description disagree, the model follows the code:

- `ConfigurationAlreadyExists` carries status 404, although its docstring says 400.
- As written, a duplicate create answers 500, and so do an update or delete of a
  missing code. Those handlers re-raise their own domain error as a 500.
- A failed `refresh` comes after `commit` in create and update. The rollback that
  follows has nothing left to undo, so the change stays committed although the call
  reports an error. The "no partial effect" rule therefore holds only for failures
  at commit. The model states exactly this; see "## Findings".

`Routes.CreateAndReadSequence` and `Routes.UpdateAndDeleteSequence` are verified
request scenarios (their assertions are proved, not run): a create, a duplicate
create, reads, a wholesale update, deletes and a body with a one-character code.

## Model

| member | source | states |
|---|---|---|
| `Models.InsertPreservesInvariant` | app/crud.py:26-31 | inserting a row whose code and id are unused keeps both key constraints, and the ids in use grow by exactly the new id |
| `Models.ReplacePreservesInvariant` | app/crud.py:55-59 | replacing one row's requirements keeps both key constraints and leaves the ids in use unchanged |
| `Models.RemovePreservesInvariant` | app/crud.py:82-86 | deleting an existing row keeps both key constraints and frees exactly that row's id |
| `Schemas.ValidateCreate` | app/schemas.py:15-17 | a create body is accepted iff its country code has 2 to 3 characters, and is then passed on unchanged; otherwise the error names the violated bound |
| `Schemas.RequirementsUnconstrained` | app/schemas.py:13 | whether a create body is accepted does not depend on its requirements list, so an empty list is accepted |
| `Exceptions.HttpExceptionHandler` | app/exceptions.py:28-35 | the response keeps the exception's status code, and its body is a JSON object whose only key is "message", holding the detail |
| `Exceptions.HandlerIsInjective` | app/exceptions.py:32-35 | two exceptions rendered to the same response are the same exception: status and detail both survive rendering |
| `Exceptions.NotFoundMessageInjective` | app/exceptions.py:9-13 | the not-found message "Configuration for country code {cc} not found" determines the code it names |
| `Exceptions.AlreadyExistsMessageInjective` | app/exceptions.py:21-25 | the already-exists message "Configuration for country code {cc} already exists" determines the code it names |
| `Exceptions.DomainErrorsDifferOnlyInMessage` | app/exceptions.py:9-25 | both domain errors carry status 404, and no not-found message equals an already-exists message, so only the message tells them apart |
| `Crud.Store.constructor` | app/main.py:12 | the table as first created is empty and satisfies the key constraints; a database that already holds rows is covered because every operation's contract holds for any store satisfying `Valid()` |
| `Crud.Store.Valid` | app/models.py:8-14 | on a valid store no two rows share a country code, no two share an id, every row is filed under its own code and its id is in use |
| `Schemas.CountryCodeLengthOk` | app/schemas.py:17 | a country code passes the create constraint exactly when it has two or three characters |
| `Exceptions.ConfigurationNotFoundError` | app/exceptions.py:9-13 | status 404 and the detail "Configuration for country code {cc} not found" |
| `Exceptions.ConfigurationAlreadyExists` | app/exceptions.py:21-25 | status 404 (not the 400 its docstring names) and the detail "Configuration for country code {cc} already exists" |
| `Routes.InternalServerError` | app/routes/config.py:20-22 | status 500, with the caught exception as the detail |
| `Crud.Store.CreateConfigurationRefreshFirst` | app/crud.py:24-40 | corrected create: on an existing code, a failed refresh or a failed commit, an error and rows and ids unchanged; otherwise exactly the new row with an unused id is added and returned |
| `Crud.Store.UpdateConfigurationRefreshFirst` | app/crud.py:52-68 | corrected update: on a failed refresh or commit, an error and no change; otherwise the requirements are replaced wholesale and the row returned |
| `Crud.RefreshFailureAfterCommit` | app/crud.py:31-40 | on a fresh table with a failing refresh, both creates report a storage error; the table after the as-written create holds the new row with the given requirements, the table after the corrected create is empty |
| `Crud.Store.GetConfiguration` | app/crud.py:5-13 | returns the row whose country code equals the argument, or None exactly when no row has it; reads only |
| `Crud.Store.CreateConfiguration` | app/crud.py:15-40 | on an existing code, a unique violation and the table unchanged; on a failed commit, an error and the table unchanged; otherwise exactly one row is added with the given code and requirements and an id not in use, all others unchanged; the row is returned, or an error after a failed refresh with the row still committed |
| `Crud.Store.UpdateConfiguration` | app/crud.py:42-68 | on an absent code, None and no change; on a failed commit, an error and no change; otherwise the row's requirements are replaced wholesale, its id and code kept, other rows and the ids in use untouched |
| `Crud.Store.DeleteConfiguration` | app/crud.py:70-93 | on an absent code, None and no change; on a failed commit, an error and no change; otherwise exactly that row is removed, its id freed, and its prior value returned |
| `Routes.CatchAll` | app/routes/config.py:15-22 | a handler body's value passes through unchanged; anything it raises becomes an HTTP exception with status 500 whose detail is the caught exception |
| `Routes.Respond` | app/exceptions.py:28-35 | a returned record answers 200 with the record; a raised exception answers with its own status and `{"message": detail}`; an invalid body answers 422 |
| `Routes.GuardedHandlersNeverAnswer404` | app/routes/config.py:15-22 | a handler wrapped in `except Exception` answers only 200 or 500; every raised error is rendered as a 500 envelope |
| `Routes.CreateConfiguration` | app/routes/config.py:13-22 | an invalid code answers 422 without touching the table; an existing code never reaches the store's create and answers 500, not 404; a database error answers 500; otherwise the new row is returned |
| `Routes.GetConfiguration` | app/routes/config.py:28-34 | a present code returns its row with 200; an absent code answers 404 with `{"message": "Configuration for country code {cc} not found"}`; the table is never changed |
| `Routes.UpdateConfiguration` | app/routes/config.py:36-44 | an absent code answers 500 and changes nothing; otherwise the row's requirements are replaced wholesale and the updated row returned, or 500 on a database error |
| `Routes.DeleteConfiguration` | app/routes/config.py:50-58 | an absent code answers 500 and changes nothing; otherwise the row is removed and its prior value returned, or 500 on a database error with the table unchanged |

## Left out

- Process plumbing in `app/main.py` and `app/database.py` is not modelled: the engine, the per-request session, the middleware, logging setup and table creation. The `Store` constructor is the table as first created; `create_all` leaves an existing table and its rows alone, and such a start is covered because every operation's contract holds for any store satisfying `Valid()`.
- Logging in the create handler and the commented-out alternative handler bodies are not modelled.
- The database's own steps are inputs to each mutation (`commitOk`, `refreshOk`). Why one fails is not modelled.
- A failure of the read query inside `get_configuration` is not modelled. That function has no `try` of its own.
- The id the database assigns is any id not in use. The autoincrement order and the 32-bit integer range are the database's business.
- The text of `str(e)` used as the detail of a 500 belongs to the framework. The model keeps the caught exception itself in its place (`Detail.Str`).
- The body of a 422 validation response is not modelled. Pydantic's rejection of ill-typed bodies (a non-list, a non-string requirement) is not modelled either: `requirements` is typed as a list of strings.
- Concurrent requests are not modelled. Between a handler's existence check and its store call, another request could create or delete the same code. Under a single request the store can then never return None inside the update or delete handler; the model marks that branch unreachable.
- Country codes are compared as exact strings, as map keys. The lookup filter and the unique index compare with the database's collation, and the backend is not fixed; on a case-insensitive one, "us" and "US" would be the same key.
- The response model serialisation: the response record is exactly the row's three fields, by typing.

## Findings

| source | as written | input that shows it | evidently intended | confidence | as-written member | corrected member |
|---|---|---|---|---|---|---|
| app/crud.py:31-40 | `db.commit()` runs before `db.refresh(...)`, so the rollback after a failed refresh cannot undo the committed INSERT | create on a fresh table where commit succeeds and refresh fails: the call raises, the row stays | any failing step is rolled back and leaves the table unchanged | medium, not executed | `Crud.Store.CreateConfiguration`, exhibited by `Crud.RefreshFailureAfterCommit` | `Crud.Store.CreateConfigurationRefreshFirst` |
| app/crud.py:59-68 | the same order in update: the new requirements stay committed after a failed refresh | update of an existing code where commit succeeds and refresh fails | any failing step is rolled back and leaves the table unchanged | medium, not executed | `Crud.Store.UpdateConfiguration` | `Crud.Store.UpdateConfigurationRefreshFirst` |

The handlers in `Routes` call the as-written methods, since they model the service as
it behaves; the corrected methods show that moving the refresh inside the transaction
restores the all-or-nothing rule.
