# Romande Énergie integration — a Dafny model

A model of the two stateful cores of the Home Assistant integration
`romande_energie`, together with proofs about them:

* `RomandeEnergieApiClient` (custom_components/romande_energie/api.py) logs in with a
  username and password. It keeps an access token with a fixed 55-minute
  lifetime and renews it through the refresh endpoint, falling back to a
  full login. It resolves the session id and picks a contract (the first
  ACTIVE one, otherwise the first one), then requests the consumption
  curves for a date window. That window defaults to the current month.
* `RomandeEnergieCoordinator` (custom_components/romande_energie/coordinator.py) logs in
  and stores the token's `exp` and `user_account_id` JWT claims. It logs in
  again when the token is within `TOKEN_EXP_MARGIN` of expiry, and fetches
  the last `FETCH_DAYS` days of daily consumption. On HTTP 403 it does one
  re-login and one retry, and it fails on any other final non-200 status.
  It then searches the reply for yesterday's entry, and
  `_async_update_data` fails when there is none. The stray
  `async_step_user` fragment in the same file contributes its contract
  pick: an empty answer is the error "no_contract"; otherwise the id is
  read from the first entry under `contract_account_uid`, then
  `contract_id`, then `id`.

Files:

* `json.dfy` (module `JsonValue`) holds decoded JSON values and the Python
  operations the cores apply to them: truthiness, `dict.get`, `or`, and
  numbers.
* `http.dfy` (module `Http`) holds the network:
  - A `Session` object logs every request sent through it.
  - The server is a function from (the requests sent so far, the new
    request) to an exchange. An exchange is a transport fault, or a status
    with a body that may not decode as JSON.
  - The module also defines the Python exceptions involved and the
    `Call`/`Step` outcome types.
* `api.dfy` (module `Api`) and `coordinator.dfy` (module `Coordinator`)
  model each core in two layers:
  - Each source method is a method of a class with the source's fields,
    with `modifies` on the object and the session.
  - Each method's postcondition equates its new fields, its request log and
    its result with a pure function `...Outcome` of the old state.
  - The properties of the source are proved about these functions, as
    their postconditions and as lemmas.
* `setup_flow.dfy` (module `SetupFragment`) holds the contract pick of the
  setup fragment, and the form errors that a failed pick produces.

Modelling choices:

* The clock is an integer parameter, in seconds, read once per call.
* `api.py` dates are `(year, month, day)` triples. The coordinator's days
  are day numbers, and a configured function turns them into ISO strings.
* `jwt.decode` is a configured function returning a claims map, or `None`
  for a token that does not decode.
* coordinator.py imports the endpoints, `FETCH_DAYS` and
  `TOKEN_EXP_MARGIN` from const.py, but const.py does not define them. The
  model takes them as fields of `Coordinator.Config`.

## Model

| member | source | states |
|---|---|---|
| Api.LoginOutcome | custom_components/romande_energie/api.py:33-63 | Exactly one POST of the credentials. It returns True iff the reply is a 200 JSON object; then the access and refresh tokens are its "access"/"refresh" values and the expiry is now + 55 minutes. Any other status, a transport fault or an undecodable body returns False. Every result other than True leaves every field unchanged. It raises iff the reply is a decoded 200 that is not an object, and then only AttributeError. |
| Api.RefreshOutcome | custom_components/romande_energie/api.py:65-96 | Without a refresh token it is exactly `login`. A refresh that is not a decoded 200 is followed by a full login whose outcome is the result, so a failed refresh never fails on its own. A refresh answered with a JSON object replaces the access token, resets the expiry to now + 55 minutes and keeps the refresh token. A decoded 200 that is not an object raises AttributeError with nothing changed and no login. Session and contract ids never change, at most two requests are sent, and none of them is a curves request. |
| Api.CheckTokenOutcome | custom_components/romande_energie/api.py:98-106 | Three outcomes: no access token → `login`; an expiry that has passed → `refresh_access_token`; otherwise True, with no request and no change. No request is sent iff there is a token that has not expired; this includes a token with no expiry. After True the stored expiry (if any) is in the future. |
| Api.SessionInfoOutcome | custom_components/romande_energie/api.py:108-135 | When the token check returns True, exactly one session GET with the current bearer token follows. A 200 JSON object reply is returned and its "SessionID" stored. A fault, a non-200 status or an undecodable body gives None and changes nothing more. A decoded 200 that is not an object raises AttributeError. Conversely, a non-None result is that 200 object, and the session id changes only then. A failed token check ends the call with the check's fields and requests, no session GET, and None (or the check's exception). The contract id is never touched. |
| Api.ActiveContracts | custom_components/romande_energie/api.py:166 | The comprehension succeeds iff every entry is a dict. Every kept entry is an ACTIVE entry of the list. The result is empty iff no entry is ACTIVE, and otherwise its head is the first ACTIVE entry of the list. |
| Api.SelectContract | custom_components/romande_energie/api.py:164-170 | A falsy "contracts" value keeps the stored id. For a non-empty list of dicts the new id is the "ContractId" of the first ACTIVE entry, or of the first entry when none is active. A list of dicts always succeeds; other shapes raise AttributeError or TypeError. |
| Api.ContractsRequestOutcome | custom_components/romande_energie/api.py:144-176 | Exactly one GET of `{accounts}/{session_id}/contracts/`. A fault, a non-200 status or an undecodable body gives None and changes nothing. On a 200 JSON object the data is returned; its "contracts" pick then sets the contract id when it is an id, and keeps it when the list is falsy. A failing pick, or a decoded 200 that is not an object (AttributeError), raises with nothing changed. Nothing but the contract id ever changes. |
| Api.ContractsOutcome | custom_components/romande_energie/api.py:137-176 | With a session id it is exactly the contracts request. Without one, `get_session_info` runs first: its exception is raised; a falsy result gives None; otherwise the contracts request follows from the state it left. The contract id changes only when the last reply was a returned 200 JSON object, and then to the pick of its "contracts" list. At most four requests are sent, none of them a curves request. |
| Api.ConsumptionWindow | custom_components/romande_energie/api.py:185-189 | The caller's dates when both are given. Otherwise both are defaulted, to the 1st of the current month and to today. |
| Api.CurvesOutcome | custom_components/romande_energie/api.py:191-214 | Exactly one curves GET over the window, with no change of state. A decoded 200 reply is returned as it is; any other reply gives None. |
| Api.ConsumptionOutcome | custom_components/romande_energie/api.py:178-214 | With a contract id it is exactly one curves GET. Without one, `get_contracts` runs first. Its exception is raised. If the contract id is still unset, the result is None and no curves request is sent. Otherwise the curves request follows from the state it left: it comes last, is the only one, and carries the contract id and the window. A non-None result is that request's 200 body. |
| Api.ExceptClause | custom_components/romande_energie/api.py:61-63 | The intended clause catches exactly ClientError, TimeoutError and JSONDecodeError, and lets every other exception through unchanged. |
| Api.ExceptClauseAsWritten | custom_components/romande_energie/api.py:61 | As written, every exception that reaches the clause becomes NameError (`asyncio` is not imported, api.py:1-14). |
| Api.TransportFaultEscapesAsWritten | custom_components/romande_energie/api.py:61-63 | A transport fault, which the intended clause swallows, escapes the clause as written as NameError. |
| Api.RomandeEnergieApiClient.constructor | custom_components/romande_energie/api.py:22-31 | Stores the credentials and the session; every token, id and expiry field starts as None. |
| Api.RomandeEnergieApiClient.Login | custom_components/romande_energie/api.py:33-63 | The new fields, the request log and the result are those of `Api.LoginOutcome`. So True with the payload's tokens and a 55-minute expiry iff the reply is a 200 object; False with nothing changed on any other status, a fault or an undecodable body. |
| Api.RomandeEnergieApiClient.RefreshAccessToken | custom_components/romande_energie/api.py:65-96 | The new fields, the request log and the result are those of `Api.RefreshOutcome`. |
| Api.RomandeEnergieApiClient.CheckToken | custom_components/romande_energie/api.py:98-106 | The new fields, the request log and the result are those of `Api.CheckTokenOutcome`. |
| Api.RomandeEnergieApiClient.GetSessionInfo | custom_components/romande_energie/api.py:108-135 | The new fields, the request log and the result are those of `Api.SessionInfoOutcome`. So after a successful token check, a 200 object is returned and its "SessionID" stored. A fault, a non-200 status or an undecodable body gives None. A decoded 200 that is not an object raises AttributeError. A failed check gives None or re-raises the check's exception, with no session GET. |
| Api.RomandeEnergieApiClient.GetContracts | custom_components/romande_energie/api.py:137-176 | The new fields, the request log and the result are those of `Api.ContractsOutcome`. So a 200 object is returned and the contract id set to its pick (first ACTIVE, else first), or kept for a falsy list. A failing pick re-raises AttributeError or TypeError without returning the data. A decoded 200 that is not an object raises AttributeError. A fault, a non-200 status or an undecodable body gives None. Without a session id, the session lookup's exception is raised and its falsy result gives None. |
| Api.RomandeEnergieApiClient.GetElectricityConsumption | custom_components/romande_energie/api.py:178-214 | The new fields, the request log and the result are those of `Api.ConsumptionOutcome`. So `get_contracts` runs first without a contract id; None without curves request when it stays unset; otherwise one curves GET follows, whose decoded 200 body is returned, while a fault, a non-200 status or an undecodable body gives None. An exception from `get_contracts` is raised. |
| Coordinator.LoginOutcome | custom_components/romande_energie/coordinator.py:73-86 | Exactly one POST of the credentials. It succeeds iff the reply is a 200 object with both tokens whose access token decodes with an "exp" claim. Then both tokens come from the payload, the expiry is the "exp" claim and the account id is the "user_account_id" claim. A non-200 status raises UpdateFailed, a transport fault raises that fault's ClientError or TimeoutError, an undecodable body raises JSONDecodeError and a decoded non-object raises TypeError; none of these changes a field. On a 200 object, a missing "access_token" raises KeyError with nothing changed; a missing "refresh_token" raises KeyError after the access token is stored; an access token that does not decode raises DecodeError, and one without "exp" raises KeyError, after both tokens are stored. On any exception the expiry and account id are unchanged. Each token changes only to the payload's value for it in a 200 object. |
| Coordinator.EnsureTokenOutcome | custom_components/romande_energie/coordinator.py:88-90 | `_login` runs exactly when the access token is empty or `exp - now < TOKEN_EXP_MARGIN`. Otherwise nothing changes and nothing is sent; the only failure then is TypeError, for a non-numeric expiry. |
| Coordinator.FetchWindow | custom_components/romande_energie/coordinator.py:95-97 | The window ends today and spans `FETCH_DAYS` days, so yesterday lies inside it whenever `FETCH_DAYS` ≥ 1. |
| Coordinator.CurveRequest | custom_components/romande_energie/coordinator.py:99-105 | The curves GET for the configured contract, with the given bearer token, over the fetch window's start and end dates, with granularity "DAILY". |
| Coordinator.Lookup | custom_components/romande_energie/coordinator.py:126-131 | Returns the "value" of the first entry whose "date" is yesterday's ISO string. None iff every entry is a dict and none matches. AttributeError exactly when a non-dict entry comes before any match. |
| Coordinator.NonListLookup | custom_components/romande_energie/coordinator.py:127-131 | Iterating a body that is not a list never finds a value. It finds nothing iff the body is an empty dict or string. Otherwise it raises: AttributeError for a non-empty dict or string, and TypeError for a number, a bool or None. |
| Coordinator.FindYesterday | custom_components/romande_energie/coordinator.py:126-131 | The search loop returns exactly what `Coordinator.Lookup` specifies. |
| Coordinator.FetchOutcome | custom_components/romande_energie/coordinator.py:92-131 | The first request is the curves GET with the current token. Without a 403 nothing else is sent and no field changes. On a 403 the next request is exactly one login; if it succeeds, exactly one retry follows with the new token. When the last request is a curve request: a 200 reply with a body gives exactly the search of that body, a non-200 status raises UpdateFailed with that status, a transport fault raises that fault's ClientError or TimeoutError, and an undecodable 200 body raises JSONDecodeError. Conversely, a returned value means that the last request was a curve request answered 200. |
| Coordinator.FetchSendsAtMostTwoCurveRequests | custom_components/romande_energie/coordinator.py:109-115 | A fetch sends at most two curve requests. |
| Coordinator.FetchOutcomeAsWritten | custom_components/romande_energie/coordinator.py:109-122 | As written, the retry's response is read after its `async with` block has released it: a retried fetch that gets any reply raises ClientError. Without a 403 it is the intended fetch. |
| Coordinator.RetriedFetchLosesItsReplyAsWritten | custom_components/romande_energie/coordinator.py:109-131 | A 403, an accepted login and a 200 retry: as written the fetch raises ClientError, while the intended fetch returns the search of the retry's body. |
| Coordinator.UpdateOutcome | custom_components/romande_energie/coordinator.py:62-68 | The update first logs in when the token is missing or near expiry, and only appends to the request log. |
| Coordinator.UpdateIsEnsureThenFetch | custom_components/romande_energie/coordinator.py:62-68 | The update is `_ensure_token` followed by `_fetch_yesterday_kwh`. An exception of `_ensure_token` is raised with nothing fetched. Otherwise the fields and the log are the fetch's: a found value is returned, a fetch that finds nothing raises "No data returned for yesterday", and the fetch's exception is raised. |
| Coordinator.UpdateReturnsWhatTheSearchFinds | custom_components/romande_energie/coordinator.py:62-68 | When the update's last request is a curve request answered 200, the update returns what the search of that body finds. If the search finds nothing it raises "No data returned for yesterday", and if the search fails it raises that error. |
| Coordinator.UpdateReturnsYesterdaysValue | custom_components/romande_energie/coordinator.py:62-68 | A value returned by the update is the search result for yesterday, taken from a 200 reply to the last request, a curve request. |
| Coordinator.UpdateFailsOnlyWithoutYesterday | custom_components/romande_energie/coordinator.py:66-67 | "No data returned for yesterday" is raised only when the last request was a curve request answered 200 whose body holds no entry for yesterday. |
| Coordinator.RomandeEnergieCoordinator.constructor | custom_components/romande_energie/coordinator.py:35-50 | Stores the configuration and the session. The tokens start as None, the expiry as 0, and no account id is set. |
| Coordinator.RomandeEnergieCoordinator.Login | custom_components/romande_energie/coordinator.py:73-86 | The new fields, the request log and the result are those of `Coordinator.LoginOutcome`: success iff an accepted 200 object, and each failure (UpdateFailed for a non-200 status, the fault's ClientError or TimeoutError, JSONDecodeError, TypeError, KeyError, DecodeError) with exactly the fields assigned before it. |
| Coordinator.RomandeEnergieCoordinator.EnsureToken | custom_components/romande_energie/coordinator.py:88-90 | The new fields, the request log and the result are those of `Coordinator.EnsureTokenOutcome`. |
| Coordinator.RomandeEnergieCoordinator.FetchYesterdayKwh | custom_components/romande_energie/coordinator.py:92-131 | The new fields, the request log and the result are those of `Coordinator.FetchOutcome`: at most one login on a 403 and one retry; for the final curve request, a 200 body's search result, UpdateFailed for a non-200 status, the fault's ClientError or TimeoutError, or JSONDecodeError for an undecodable body. |
| Coordinator.RomandeEnergieCoordinator.AsyncUpdateData | custom_components/romande_energie/coordinator.py:62-68 | The new fields, the request log and the result are those of `Coordinator.UpdateOutcome`. |
| SetupFragment.PickContract | custom_components/romande_energie/coordinator.py:159-168 | ValueError("no_contract") iff the answer is falsy. An id is returned iff the answer is a non-empty list whose first entry is a dict. The id is `contract_account_uid` if truthy, else `contract_id` if truthy, else `id`; it is truthy iff one of the three is. Other shapes raise AttributeError, KeyError or TypeError. |
| SetupFragment.FormErrors | custom_components/romande_energie/coordinator.py:172-175 | A ValueError shows its message as the base error. So does a JSONDecodeError, a ValueError subclass; its message depends on the body. A ClientError shows "cannot_connect". A success shows no errors. Any other exception, and only those, escapes the step. |
| SetupFragment.NoContractShownIffEmpty | custom_components/romande_energie/coordinator.py:159-173 | The form shows "no_contract" iff the contracts answer is falsy. Otherwise the pick either yields an id or lets an exception escape. |

## Left out

- HTTP itself, `async`/`await` and `async_timeout`: a request is one
  abstract exchange. The response lifecycle is modelled only for the
  retry of `_fetch_yesterday_kwh` (see Findings). A transport fault is
  ClientError or TimeoutError, and an undecodable body is
  JSONDecodeError. aiohttp's `ContentTypeError` is not distinguished.
- Request headers are summarised: the bearer token, and whether
  `DEFAULT_HEADERS` was sent. Timeouts (10 s, 20 s) are not modelled:
  a timeout is a fault of the single request it interrupts.
- Api.RefreshOutcome: "at most two requests" holds only under that
  per-request view of timeouts. The fallback login at api.py:85 runs
  inside the refresh's own `async_timeout.timeout(10)` block (api.py:76);
  if that block times out during the login, api.py:94-96 logs in a
  second time, which makes three requests.
- Logging (`_LOGGER`), and the truncated error body read at
  coordinator.py:118.
- The clock is read once per call. The sub-second timestamps of
  `datetime.now()` are not modelled. `now` is whole seconds for both
  cores.
- `float(item.get("value"))` (coordinator.py:129) is left opaque: the
  model returns the entry's value unconverted, so the ValueError or
  TypeError of a non-numeric value is not modelled.
- ISO date formatting and `date.isoformat()` are a configured function.
  Month and day validity of `(year, month, day)` triples is not checked.
- Api.ConsumptionWindow: an empty-string date is treated like a given
  date, because dates are `Option<Date>`. In the source, an empty string
  is falsy and triggers the default window.
- JWT decoding is a configured function (signature verification is off in
  the source). Its exceptions are all `JwtDecodeError`.
- The `DataUpdateCoordinator` base class, its scheduling, `self.data` and
  `async_get_yesterday_kwh` (coordinator.py:55-57), and the `hass` field
  are not modelled. They are host-library behaviour with no decision
  logic.
- The rest of `async_step_user` (coordinator.py:134-190) is not modelled:
  the login and contracts requests, entry creation, the entry title and
  the schema helper. The fragment sits inside the coordinator class,
  which has no `async_create_entry` or `async_show_form`, and it uses
  `aiohttp_client`, which coordinator.py does not import. Only its
  contract pick and its error mapping are modelled.
- Coordinator.FetchOutcomeAsWritten: every answered retry raises
  ClientError. An exchange does not record the length of its body, so a
  reply with an empty body, which aiohttp may still read as empty after
  release, is not told apart.
- sensor.py, `__init__.py` and config_flow.py are entity glue, thin
  request wrappers and UI flow. const.py contributes only its URL values
  (in `Api`).

## Findings

| source | as written | input that shows it | evidently intended | confidence | as-written member | corrected member |
|---|---|---|---|---|---|---|
| custom_components/romande_energie/api.py:61 (also 94, 133, 174, 212) | `except (aiohttp.ClientError, asyncio.TimeoutError, json.JSONDecodeError)`, and api.py never imports `asyncio`. When an exception reaches the clause, evaluating the tuple raises NameError, so every caught-by-design failure escapes as NameError. | A login whose POST fails with a connection error (any `aiohttp.ClientError`): NameError escapes `login` instead of `False` being returned. | Transport faults, timeouts and undecodable bodies are caught: `login` returns False, a refresh falls back to `login`, and the getters return None. | high (from reading the code); not executed | Api.ExceptClauseAsWritten, Api.TransportFaultEscapesAsWritten | Api.ExceptClause |
| custom_components/romande_energie/coordinator.py:114-122 | `async with self._session.get(...) as resp_retry: resp = resp_retry` closes the retry's context at once, and aiohttp releases a response when its context exits. `await resp.text()` and `await resp.json()` at lines 117-122 then read a released body, which raises ClientConnectionError ("Connection closed"). | A curves GET answered 403, an accepted login, and a retry answered 200 with yesterday's entry: the fetch raises ClientError instead of returning the value. | The retry's reply is read like the first one: a non-200 status raises UpdateFailed, and a 200 body is searched for yesterday. | medium (from aiohttp's release-on-exit behaviour); not executed | Coordinator.FetchOutcomeAsWritten, Coordinator.RetriedFetchLosesItsReplyAsWritten | Coordinator.FetchOutcome |

The rest of the model follows the corrected behaviour: the `Api` outcome
functions follow the intended except clause, and the coordinator's fetch
and update follow `Coordinator.FetchOutcome`.
