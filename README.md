# Kstar Solar integration: a verified model of its core

This Home Assistant integration reads one solar station's figures from the
Kstar vendor cloud. The project models and proves properties of three pieces
of it:

- **The cloud client** (`KstarApi`, from `kstar_api.py`). The client holds an
  access token, a refresh token, a header dictionary and a session slot.
  - A refresh exchanges the refresh token for a new access token.
  - `get_station_data` sends one GET to the station-detail endpoint. If that
    GET fails at the client or HTTP level, the client refreshes once and
    retries the GET once.
  - The network replies are inputs, in two types: `GetOutcome` and
    `TokenOutcome`.
  - Every request the client sends is appended to a log, together with the
    headers it carries.
  - The pure step functions `Init`, `SessionFor`, `Refresh`, `Fetch` and
    `CloseSession` are the specification.
  - The class `KstarApi.KstarSolarApi` performs the same steps on its fields.
    Each of its methods is proved equal to its step function.
  - The lemmas state what the client promises, stated on the step functions.
- **The sensor mapping** (`Sensor`, from `sensor.py`, with the `SENSOR_TYPES`
  table of `const.py` encoded as data). This covers four things:
  - building a sensor from its table entry;
  - the three lookup tables: device class, state class, and unit;
  - the value a sensor shows for a snapshot;
  - the setup loop that builds one entity per table entry.
- **The setup form's user step** (`ConfigFlow`, from `config_flow.py`). This
  covers host normalisation, the config entry and title the step creates,
  and the error key it shows the form again with.

`Basics` holds `Option`, `Result` and `Outcome`. It also holds `Field`, which
describes a JSON key as missing, null, or set to a value. `Text` holds
Python's `startswith`, `endswith` and `rstrip("/")`.

The model follows the code. It has these behaviours:

- An HTTP error means a status of 400 or more. This is the status at which
  `raise_for_status` raises.
- A body-level `code` other than 200 raises a plain exception. This happens
  before the client-error handler, so it is never retried.
- The refresh step does these things:
  - it takes `value` even when `value` is null (the token is then None, and
    the header becomes `"bearer None"`);
  - it rotates the refresh token to `refreshToken.value`, even when that is
    null;
  - it raises a TypeError when `refreshToken` is null. In that case the new
    access token is already stored, but the headers are not updated.
- A session copies the header dictionary when it is created. The client
  reuses an open session, so the retry after a refresh carries the old
  headers.
- A new client starts without an Authorization header. So its first fetch
  sends no bearer token, on the first GET and on the retry.
- The code has only the refresh-token mode. It has none of the following,
  so the model has none of them either:
  - password login, or a fallback to it;
  - a branch for 401 replies;
  - logging in lazily before the first GET;
  - rebuilding the session after a refresh.
- The state-class table lists snake_case names, and most configured types
  are camelCase. So `realPower` through `totalEarn` get no state class. The
  names `co2`, `coal` and `forest` do match the TOTAL list.
- Building a sensor reads `device_class` before the state class. The last
  five table entries have no `device_class`. So setup over the configured
  table always fails at `dayEarn`, and no entity is added.

## Model

| member | source | states |
|---|---|---|
| `Text.StripTrailingSlashes` | custom_components/kstar_solar/config_flow.py:33 | the result is the prefix of the input after which only slashes follow, and it does not end with a slash |
| `Text.StripIdempotent` | custom_components/kstar_solar/kstar_api.py:14 | stripping an already stripped host changes nothing, so the client's second `rstrip` is harmless |
| `Basics.TextOr` | custom_components/kstar_solar/kstar_api.py:101 | `get(key, default)` inside an f-string: a missing key gives the default, a null gives "None", and a present value gives itself |
| `KstarApi.Init` | custom_components/kstar_solar/kstar_api.py:13-26 | a new client has the stripped host, the given station and refresh token, no access token, no Authorization header, no session, and has sent nothing |
| `KstarApi.KstarSolarApi.constructor` | custom_components/kstar_solar/kstar_api.py:13-26 | the object's state is `Init` of its arguments |
| `KstarApi.SessionFor` | custom_components/kstar_solar/kstar_api.py:28-37 | reuses an open session with nothing changed; otherwise opens a new session with a fresh id and a copy of the current headers; the result is always an open session held in the slot, and nothing else changes |
| `KstarApi.KstarSolarApi.GetSession` | custom_components/kstar_solar/kstar_api.py:28-37 | the new state and the returned session are those of `SessionFor` |
| `KstarApi.RefreshWithoutToken` | custom_components/kstar_solar/kstar_api.py:41-43 | with the refresh token absent or empty, the refresh fails before any request and the whole state is unchanged, whatever the reply |
| `KstarApi.RefreshSendsOnePost` | custom_components/kstar_solar/kstar_api.py:45-67 | with a refresh token, the refresh sends exactly one POST to `host + /prod-api/oauth/token`; the form has the grant type and the refresh token; the Authorization header is `Basic` with the client credential; a session is left open |
| `KstarApi.RefreshAdoptsValue` | custom_components/kstar_solar/kstar_api.py:72-78 | a reply below 400 with `value` v stores v as the access token, sets Authorization to "bearer " + v and leaves every other header as it was |
| `KstarApi.RefreshRotation` | custom_components/kstar_solar/kstar_api.py:74-75 | the refresh token changes only on a passing refresh whose reply offers `refreshToken.value`, and it then becomes that value |
| `KstarApi.RefreshFailsIff` | custom_components/kstar_solar/kstar_api.py:41-86 | the refresh fails exactly when the token is missing, the POST fails at the client or HTTP level, `value` is missing, or `refreshToken` cannot be searched |
| `KstarApi.RefreshFailureKeepsCredentials` | custom_components/kstar_solar/kstar_api.py:68-86 | a failed refresh leaves refresh token and headers unchanged, and also the access token, except in the TypeError case at line 74; there the reply's `value` (None when null) is already stored as the access token |
| `KstarApi.Refresh` | custom_components/kstar_solar/kstar_api.py:39-86 | the refresh keeps host and station, keeps the earlier log and adds at most one request to it, and a passing refresh leaves the headers as before with Authorization = "bearer " + the new access token; its other properties are the `Refresh...` lemmas below |
| `KstarApi.KstarSolarApi.RefreshAccessToken` | custom_components/kstar_solar/kstar_api.py:39-86 | the new state and the outcome are those of `Refresh` |
| `KstarApi.StationResult` | custom_components/kstar_solar/kstar_api.py:93-105 | a station reply is a client failure exactly when the host is unreachable or the status is 400 or more; below 400, code 200 gives `Success` of the reply's `data` (as `DataOf` reads it) and any other code gives `StationFailed` with the reply's message, "Unknown error" when it is missing |
| `KstarApi.DataOf` | custom_components/kstar_solar/kstar_api.py:105 | a missing `data` gives the empty snapshot, a null gives none, and a present one is returned as it is |
| `KstarApi.Fetch` | custom_components/kstar_solar/kstar_api.py:88-129 | the fetch keeps host and station, keeps the earlier log and adds one to three requests to it, and a success is the result of the first GET's reply or of the retry's; its other properties are the `Fetch...` lemmas below |
| `KstarApi.FetchRequestShape` | custom_components/kstar_solar/kstar_api.py:88-129 | every fetch keeps the log and appends GET, or GET POST, or GET POST GET; that is at most two GETs and one refresh; the POST happens exactly when the first GET fails at the client or HTTP level and a refresh token is held |
| `KstarApi.FetchFirstSuccess` | custom_components/kstar_solar/kstar_api.py:93-105 | a first reply below 400 with code 200 returns its data (or the empty snapshot) after one request; credentials and headers are untouched |
| `KstarApi.FetchBodyError` | custom_components/kstar_solar/kstar_api.py:100-103 | a first reply below 400 with another code fails with its message ("Unknown error" by default) after one request, with no refresh |
| `KstarApi.FetchRetriesOnce` | custom_components/kstar_solar/kstar_api.py:107-129 | after a client failure of the first GET: a failed refresh escapes unchanged with no retry; after a passing refresh, exactly one more GET is sent; its success is returned and its failure is wrapped in `RetryFailed` |
| `KstarApi.FetchErrorKinds` | custom_components/kstar_solar/kstar_api.py:107-129 | a `RetryFailed` wraps only a client failure or a body-level failure, never another retry; a bare client failure escapes only from the token POST |
| `KstarApi.FetchRetryReusesSession` | custom_components/kstar_solar/kstar_api.py:110-117 | the retried GET is sent over the first GET's session with the same headers, so the new Authorization does not reach it |
| `KstarApi.FreshClientSendsNoBearer` | custom_components/kstar_solar/kstar_api.py:20-36 | a new client's first fetch sends no Authorization header, on the first GET and on the retry |
| `KstarApi.FetchCounts` | custom_components/kstar_solar/kstar_api.py:88-129 | one fetch keeps the log and adds one or two GETs and at most one POST to it |
| `KstarApi.RunBounds` | custom_components/kstar_solar/kstar_api.py:88-134 | over any series of fetches and closes, whatever the replies, the log only grows; each fetch adds at least one and at most two GETs and at most one refresh POST; closes send nothing |
| `KstarApi.BearerInSyncInitially` | custom_components/kstar_solar/kstar_api.py:17-26 | a new client has neither an access token nor an Authorization header, so the two are in step |
| `KstarApi.SessionKeepsBearerInSync` | custom_components/kstar_solar/kstar_api.py:28-37 | opening a session (and closing one) keeps the Authorization header equal to "bearer " + the access token |
| `KstarApi.RefreshKeepsBearerInSync` | custom_components/kstar_solar/kstar_api.py:72-78 | a refresh keeps the Authorization header equal to "bearer " + the access token, except when it raises on an unsearchable `refreshToken`, which leaves the old header beside the new token |
| `KstarApi.FetchKeepsBearerInSync` | custom_components/kstar_solar/kstar_api.py:88-129 | a fetch keeps the Authorization header and the access token in step unless its refresh raised that TypeError |
| `KstarApi.KstarSolarApi.GetStationData` | custom_components/kstar_solar/kstar_api.py:88-129 | the new state and the result are those of `Fetch` |
| `KstarApi.CloseSession` | custom_components/kstar_solar/kstar_api.py:131-134 | afterwards no open session is held; an open session is marked closed, and otherwise nothing changes |
| `KstarApi.CloseIdempotent` | custom_components/kstar_solar/kstar_api.py:131-134 | closing twice is the same as closing once, and closing leaves credentials, headers and the log alone |
| `KstarApi.CloseThenFetchReopens` | custom_components/kstar_solar/kstar_api.py:30-36 | after a close, the next fetch opens a new session built from the current headers |
| `KstarApi.KstarSolarApi.Close` | custom_components/kstar_solar/kstar_api.py:131-134 | the new state is `CloseSession` of the old one |
| `Sensor.DeviceClassOf` | custom_components/kstar_solar/sensor.py:111-120 | returns a class exactly for "power", "energy", "monetary", "weight" and "area", each with its own class |
| `Sensor.StateClassOf` | custom_components/kstar_solar/sensor.py:122-139 | MEASUREMENT exactly for "real_power", TOTAL exactly for the nine listed names, and none otherwise |
| `Sensor.UnitOf` | custom_components/kstar_solar/sensor.py:141-150 | a unit that is not a table key is returned unchanged |
| `Sensor.UnitOfIsNearlyIdentity` | custom_components/kstar_solar/sensor.py:141-150 | the unit table changes only the misread key "mÂ²" (to "m²"), and applying it twice is the same as applying it once |
| `Sensor.DisplayName` | custom_components/kstar_solar/sensor.py:81 | the name is "Kstar Solar " followed by the table entry's name, which can be read back from it |
| `Sensor.UniqueId` | custom_components/kstar_solar/sensor.py:82 | the id is the entry id, an underscore and the sensor type, each of which can be read back from it |
| `Sensor.NewSensor` | custom_components/kstar_solar/sensor.py:70-88 | builds exactly when name, device_class, unit and icon are all present; otherwise fails with a KeyError for the first missing key in that order (each of the four cases in both directions); a built sensor has name "Kstar Solar " + info name, unique id entry id + "_" + type, and the three looked-up classes and unit |
| `Sensor.UniqueIdDeterminesType` | custom_components/kstar_solar/sensor.py:82 | the unique id gives back the sensor type, so distinct types in one entry have distinct ids |
| `Sensor.ConfiguredIdsDistinct` | custom_components/kstar_solar/const.py:16-27 | the ten configured sensors of one entry have pairwise distinct unique ids |
| `Sensor.ConfiguredBuilds` | custom_components/kstar_solar/const.py:17-21 | the first five table entries build, realPower as a power sensor and the other four as energy sensors |
| `Sensor.ConfiguredFailures` | custom_components/kstar_solar/const.py:22-26 | each of the last five table entries fails with KeyError "device_class" |
| `Sensor.ConfiguredStateClasses` | custom_components/kstar_solar/sensor.py:122-139 | the seven camelCase configured types get no state class; "co2", "coal" and "forest" would get TOTAL |
| `Sensor.ConfiguredUnits` | custom_components/kstar_solar/sensor.py:141-150 | every configured unit goes through the unit table unchanged, "元" and "m²" included |
| `Sensor.ParseFloat` | custom_components/kstar_solar/sensor.py:102 | a number converts to itself, a boolean to 1 or 0, a string goes to the text parser, and null, lists and objects do not convert |
| `Sensor.NativeValue` | custom_components/kstar_solar/sensor.py:90-104 | the value is None exactly when there is no snapshot or the key is missing or null; otherwise it is the parsed number if parsing succeeds, and the original value if not |
| `Sensor.NoDataMeansNoValues` | custom_components/kstar_solar/kstar_api.py:105 | a code-200 reply with `data` missing or null gives every sensor the value None |
| `Sensor.BuildEntities` | custom_components/kstar_solar/sensor.py:53-62 | succeeds exactly when every entry builds, and then gives one sensor per entry, in order; otherwise it fails with the error of the first entry that does not build |
| `Sensor.SetupEntities` | custom_components/kstar_solar/sensor.py:53-64 | over the configured table, setup always fails with KeyError "device_class" |
| `ConfigFlow.NormaliseHost` | custom_components/kstar_solar/config_flow.py:33-35 | the normalised host always starts with "http://" or "https://" |
| `ConfigFlow.NormaliseHostCases` | custom_components/kstar_solar/config_flow.py:33-35 | a stripped input with a scheme is kept as it is; any other gets "http://" in front |
| `ConfigFlow.NormalisedHasNoTrailingSlash` | custom_components/kstar_solar/config_flow.py:33-35 | if the stripped input is non-empty, the result does not end with "/" |
| `ConfigFlow.NormaliseHostIdempotent` | custom_components/kstar_solar/config_flow.py:33-35 | if the stripped input is non-empty, normalising twice is the same as normalising once |
| `ConfigFlow.NormaliseEmptyHost` | custom_components/kstar_solar/config_flow.py:33-35 | "" normalises to "http://", and that normalises to "http://http:" |
| `ConfigFlow.SchemeIsCaseSensitive` | custom_components/kstar_solar/config_flow.py:34 | "HTTP://x" is not recognised as having a scheme and becomes "http://HTTP://x" |
| `ConfigFlow.ErrorKey` | custom_components/kstar_solar/config_flow.py:58-64 | CannotConnect, InvalidAuth and any other exception give "cannot_connect", "invalid_auth" and "unknown" respectively, in both directions |
| `ConfigFlow.EntryData` | custom_components/kstar_solar/config_flow.py:47-51 | the entry holds exactly the keys host, station_id and refresh_token; the host is normalised and has a scheme; the other two are copied verbatim |
| `ConfigFlow.EntryTitle` | custom_components/kstar_solar/config_flow.py:54 | the title is "Kstar Solar - " followed by the station id as submitted |
| `ConfigFlow.EntryHostReachesClient` | custom_components/kstar_solar/config_flow.py:37-41 | the client built from the entry uses the stored host, unchanged, exactly when the stripped input was non-empty ("http://" becomes "http:"); the station id and refresh token reach it as given |
| `ConfigFlow.StepUser` | custom_components/kstar_solar/config_flow.py:25-82 | with no input the form is shown with no errors; an entry titled "Kstar Solar - " + station id with `EntryData` is created exactly when the fields are present and the test passes; otherwise the form is shown with `base` set to the error's key, and a missing field gives "unknown" |

## Left out

- HTTP and aiohttp are not modelled: connectors, TLS (`verify_ssl=False`), the client timeout and its parameter, cookies, and the URL encoding of `stationId`. Each reply is an abstract input.
- Failures that `except aiohttp.ClientError` (kstar_api.py:107) does not catch are not modelled. A total timeout raises `asyncio.TimeoutError`, and a body sent as JSON that does not parse raises `JSONDecodeError`; on the first GET either one escapes at once, with no refresh and no retry. A reply with a non-JSON content type makes `response.json()` raise `ContentTypeError`, which is a `ClientError`, so it is followed by the refresh and the retry like the client failures the model has.
- JSON decoding is not modelled otherwise. A body that is not a JSON object, or a `code`, `value` or `message` of an unexpected type, is not represented.
- A `refreshToken` that is a string is treated like an object without `value`. Python would search the string for the substring "value", and if found, would fail while indexing it.
- The Basic credential is the fixed Base64 text of "kstar:kstarSecret", kept as an opaque constant.
- The exception messages are modelled as error variants that carry the variable part: the message and the description. The fixed Chinese message prefixes are left out.
- Async scheduling and logging are not modelled. Neither is the host framework: `DataUpdateCoordinator`, `CoordinatorEntity`, `available`, the coordinator's first refresh in `async_setup_entry`, and the `async_add_entities` call.
- The connection test in the user step is an abstract outcome, `probe`. The step hands the executor a coroutine function, which is a misuse of the host framework. What that call really raises is not modelled.
- `ConfigFlow.StepUser`: `probe` may be `CannotConnect` or `InvalidAuth`, but no code of the integration raises either; `get_station_data` raises only the errors of `ApiError`, which fall to the catch-all handler. So "unknown" is the only error key the source can produce, and the two other handlers are unreachable.
- `__init__.py` is not part of this model. It is lifecycle glue: setup and unload, and the un-awaited `close()`.
- The form schema and its rendering (`async_show_form`, the help text) are not modelled, except for the errors dictionary.
- Float parsing is an abstract parser for strings, passed as a parameter. NaN and infinities are not modelled.
- `Sensor.ParseFloat`: JSON numbers are exact reals, and integers are not told apart from them. Python decodes an integer literal as an `int`; `float()` rounds it to a double, and raises `OverflowError` when it is beyond the double range. `native_value` (sensor.py:101-104) catches only `ValueError` and `TypeError`, so for such a value it raises, where the model returns the number.
- The session and the sensor entities are values, not objects. Sessions are told apart by an id. A sensor's attributes never change after construction, so object identity is not captured.
- Concurrent fetches are not modelled. The integration calls the client from one task at a time.
