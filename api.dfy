/** `RomandeEnergieApiClient` (custom_components/romande_energie/api.py): a
    client that logs in with username and password, keeps an access token
    with a fixed 55-minute lifetime, renews it through the refresh endpoint
    (falling back to a full login), resolves the session and the contract,
    and requests consumption curves for a date window.

    Every source method is a method of the class below, and a pure function
    `...Outcome` states what it does: the client's new fields, the requests
    sent through the session, and the returned value or raised exception. */
module Api {
  import opened JsonValue
  import opened Http

  // URLs from const.py.
  const ApiBaseUrl: string := "https://api.espace-client.romande-energie.ch"
  const ApiLoginUrl: string := ApiBaseUrl + "/api/login/"
  const ApiSessionUrl: string := ApiBaseUrl + "/users/session/"
  const ApiAccountsUrl: string := ApiBaseUrl + "/accounts"
  const ApiContractsUrl: string := ApiBaseUrl + "/contracts"
  const CurvesSuffix: string := "/services/electricity/curves/"

  /** The fixed token lifetime the client assumes, in seconds (55 minutes). */
  const TokenLifetime: int := 55 * 60

  /** The client's mutable fields; `JNull` is Python's `None`. */
  datatype ClientState = ClientState(
    accessToken: Json,
    refreshToken: Json,
    sessionId: Json,
    contractId: Json,
    tokenExpiresAt: Option<int>)

  // ---------------------------------------------------------------------
  // The except clauses
  // ---------------------------------------------------------------------

  /** The exceptions the clause `except (aiohttp.ClientError,
      asyncio.TimeoutError, json.JSONDecodeError)` is meant to catch. */
  predicate Caught(e: PyError) {
    e == ClientError || e == TimeoutError || e == JsonDecodeError
  }

  /** The intended clause: which exception, if any, leaves it. The model's
      methods behave as if this clause were in place. */
  function ExceptClause(e: PyError): (escaping: Option<PyError>)
    ensures escaping.None? <==> Caught(e)
    ensures escaping.Some? ==> escaping.value == e
  {
    if Caught(e) then None else Some(e)
  }

  /** The clause as written. Python evaluates the exception tuple only when an
      exception reaches it, and api.py never imports `asyncio`, so evaluating
      `asyncio.TimeoutError` raises NameError in place of every exception. */
  function ExceptClauseAsWritten(e: PyError): (escaping: Option<PyError>)
    ensures escaping == Some(NameError)
  {
    Some(NameError)
  }

  /** A transport fault that the clause is meant to swallow escapes the
      clause as written, as a NameError. */
  lemma TransportFaultEscapesAsWritten(f: Fault)
    ensures ExceptClause(FaultError(f)) == None
    ensures ExceptClauseAsWritten(FaultError(f)) == Some(NameError)
  {
  }

  // ---------------------------------------------------------------------
  // Requests
  // ---------------------------------------------------------------------

  function LoginRequest(username: string, password: string): Request {
    Request(POST, Fixed(ApiLoginUrl), [],
            map["username" := JStr(username), "password" := JStr(password)], None, true)
  }

  function RefreshRequest(refreshToken: Json): Request {
    Request(POST, Fixed(ApiLoginUrl + "refresh/"), [], map["refresh" := refreshToken], None, true)
  }

  function SessionRequest(accessToken: Json): Request {
    Request(GET, Fixed(ApiSessionUrl), [], map[], Some(accessToken), true)
  }

  function ContractsRequest(accessToken: Json, sessionId: Json): Request {
    Request(GET, Joined(ApiAccountsUrl + "/", sessionId, "/contracts/"), [], map[], Some(accessToken), true)
  }

  function CurvesRequest(accessToken: Json, contractId: Json, from: Date, to: Date): Request {
    Request(GET, Joined(ApiContractsUrl + "/", contractId, CurvesSuffix),
            [("from_date", Day(from)), ("to_date", Day(to))], map[], Some(accessToken), true)
  }

  predicate IsCurvesRequest(r: Request) {
    r.url.Joined? && r.url.suffix == CurvesSuffix
  }

  /** No consumption curves were requested after position `n` of the log. */
  predicate NoCurvesSince(log: seq<Request>, n: nat) {
    forall i :: n <= i < |log| ==> !IsCurvesRequest(log[i])
  }

  /** A 200 reply whose body decodes as JSON. */
  predicate Decoded(x: Exchange) {
    x.Answered? && x.status == 200 && x.body.Some?
  }

  /** A 200 reply whose body decodes as a JSON object. */
  predicate DecodedObject(x: Exchange) {
    Decoded(x) && x.body.value.JObj?
  }

  /** `self.token_expires_at and datetime.now() >= self.token_expires_at`. */
  predicate Expired(s: ClientState, now: int) {
    s.tokenExpiresAt.Some? && now >= s.tokenExpiresAt.value
  }

  // ---------------------------------------------------------------------
  // login, refresh_access_token, check_token
  // ---------------------------------------------------------------------

  /** `login`: one POST of the credentials. A 200 JSON object stores its
      "access" and "refresh" values and a 55-minute expiry and returns True;
      any other status, a transport fault or an undecodable body returns
      False and changes nothing. */
  function LoginOutcome(username: string, password: string, s: ClientState,
                        sent: seq<Request>, respond: Server, now: int): (o: Step<ClientState, bool>)
    ensures o.sent == sent + [LoginRequest(username, password)]
    ensures o.result == Returned(true) <==> DecodedObject(respond(sent, LoginRequest(username, password)))
    ensures o.result == Returned(true) ==>
      var data := respond(sent, LoginRequest(username, password)).body.value.fields;
      o.state == s.(accessToken := Get(data, "access"), refreshToken := Get(data, "refresh"),
                    tokenExpiresAt := Some(now + TokenLifetime))
    ensures o.result != Returned(true) ==> o.state == s
    ensures !Decoded(respond(sent, LoginRequest(username, password))) ==> o.result == Returned(false)
    ensures var reply := respond(sent, LoginRequest(username, password));
      o.result.Raised? <==> Decoded(reply) && !reply.body.value.JObj?
    ensures o.result.Raised? ==> o.result.error == AttributeError && ExceptClause(o.result.error).Some?
  {
    var req := LoginRequest(username, password);
    var sent' := sent + [req];
    match respond(sent, req)
    case Failed(_) => Step(s, sent', Returned(false))           // caught by the except clause
    case Answered(status, body) =>
      if status != 200 then Step(s, sent', Returned(false))
      else match body
        case None => Step(s, sent', Returned(false))            // JSONDecodeError, caught
        case Some(JObj(data)) =>
          Step(s.(accessToken := Get(data, "access"), refreshToken := Get(data, "refresh"),
                  tokenExpiresAt := Some(now + TokenLifetime)),
               sent', Returned(true))
        case Some(_) => Step(s, sent', Raised(AttributeError))  // `data.get` on a non-dict
  }

  /** `refresh_access_token`. Without a refresh token it is a full login. A
      refresh that fails (transport fault, non-200 status, undecodable body)
      is followed by a full login whose outcome is the result. A refresh
      answered with a JSON object replaces the access token, resets the
      expiry and keeps the refresh token. */
  function RefreshOutcome(username: string, password: string, s: ClientState,
                          sent: seq<Request>, respond: Server, now: int): (o: Step<ClientState, bool>)
    ensures !Truthy(s.refreshToken) ==> o == LoginOutcome(username, password, s, sent, respond, now)
    ensures Truthy(s.refreshToken) ==>
      |o.sent| > |sent| && o.sent[..|sent| + 1] == sent + [RefreshRequest(s.refreshToken)]
    ensures Truthy(s.refreshToken) && !Decoded(respond(sent, RefreshRequest(s.refreshToken))) ==>
      o == LoginOutcome(username, password, s, sent + [RefreshRequest(s.refreshToken)], respond, now)
    ensures Truthy(s.refreshToken) && DecodedObject(respond(sent, RefreshRequest(s.refreshToken))) ==>
      var data := respond(sent, RefreshRequest(s.refreshToken)).body.value.fields;
      && o.result == Returned(true)
      && o.sent == sent + [RefreshRequest(s.refreshToken)]
      && o.state == s.(accessToken := Get(data, "access"), tokenExpiresAt := Some(now + TokenLifetime))
    ensures var reply := respond(sent, RefreshRequest(s.refreshToken));
      Truthy(s.refreshToken) && Decoded(reply) && !reply.body.value.JObj? ==>
        o == Step(s, sent + [RefreshRequest(s.refreshToken)], Raised(AttributeError))
    ensures o.result == Returned(true) ==> o.state.tokenExpiresAt == Some(now + TokenLifetime)
    ensures o.result.Raised? ==> o.result.error == AttributeError
    ensures o.state.sessionId == s.sessionId && o.state.contractId == s.contractId
    ensures Extends(o.sent, sent) && |o.sent| <= |sent| + 2 && NoCurvesSince(o.sent, |sent|)
  {
    if !Truthy(s.refreshToken) then
      LoginOutcome(username, password, s, sent, respond, now)
    else
      var req := RefreshRequest(s.refreshToken);
      var sent' := sent + [req];
      match respond(sent, req)
      case Failed(_) => LoginOutcome(username, password, s, sent', respond, now)   // caught
      case Answered(status, body) =>
        // A login called inside the try block raises only AttributeError,
        // which the except clause lets through.
        if status != 200 then LoginOutcome(username, password, s, sent', respond, now)
        else match body
          case None => LoginOutcome(username, password, s, sent', respond, now)  // caught
          case Some(JObj(data)) =>
            Step(s.(accessToken := Get(data, "access"), tokenExpiresAt := Some(now + TokenLifetime)),
                 sent', Returned(true))
          case Some(_) => Step(s, sent', Raised(AttributeError))
  }

  /** `check_token`: with no access token, log in; with an expiry that has
      passed, refresh; otherwise return True without a request. When it
      returns True the stored expiry, if any, lies in the future. */
  function CheckTokenOutcome(username: string, password: string, s: ClientState,
                             sent: seq<Request>, respond: Server, now: int): (o: Step<ClientState, bool>)
    ensures !Truthy(s.accessToken) ==> o == LoginOutcome(username, password, s, sent, respond, now)
    ensures Truthy(s.accessToken) && Expired(s, now) ==> o == RefreshOutcome(username, password, s, sent, respond, now)
    ensures o.sent == sent <==> Truthy(s.accessToken) && !Expired(s, now)
    ensures o.sent == sent ==> o.state == s && o.result == Returned(true)
    ensures o.result == Returned(true) ==> !Expired(o.state, now)
    ensures o.result.Raised? ==> o.result.error == AttributeError
    ensures o.state.sessionId == s.sessionId && o.state.contractId == s.contractId
    ensures Extends(o.sent, sent) && |o.sent| <= |sent| + 2 && NoCurvesSince(o.sent, |sent|)
  {
    if !Truthy(s.accessToken) then
      LoginOutcome(username, password, s, sent, respond, now)
    else if Expired(s, now) then
      RefreshOutcome(username, password, s, sent, respond, now)
    else
      Step(s, sent, Returned(true))
  }

  // ---------------------------------------------------------------------
  // get_session_info, get_contracts
  // ---------------------------------------------------------------------

  /** `get_session_info`: after a successful token check, one GET of the
      session endpoint with the (possibly renewed) bearer token. A JSON
      object is returned and its "SessionID" stored; every other reply
      returns None (`JNull`). */
  function SessionInfoOutcome(username: string, password: string, s: ClientState,
                              sent: seq<Request>, respond: Server, now: int): (o: Step<ClientState, Json>)
    ensures o.result.Returned? && o.result.value != JNull ==>
      && o.result.value.JObj?
      && o.state.sessionId == Get(o.result.value.fields, "SessionID")
      && |o.sent| > |sent|
      && o.sent[|o.sent| - 1] == SessionRequest(o.state.accessToken)
      && respond(o.sent[..|o.sent| - 1], o.sent[|o.sent| - 1]) == Answered(200, Some(o.result.value))
    ensures o.state.sessionId != s.sessionId ==> o.result.Returned? && o.result.value.JObj?
    ensures var c := CheckTokenOutcome(username, password, s, sent, respond, now);
      c.result == Returned(true) ==>
        var req := SessionRequest(c.state.accessToken);
        var reply := respond(c.sent, req);
        && o.sent == c.sent + [req]
        && (DecodedObject(reply) ==>
              o.result == Returned(reply.body.value)
              && o.state == c.state.(sessionId := Get(reply.body.value.fields, "SessionID")))
        && (!Decoded(reply) ==> o.result == Returned(JNull) && o.state == c.state)
        && (Decoded(reply) && !reply.body.value.JObj? ==> o.result == Raised(AttributeError) && o.state == c.state)
    ensures var c := CheckTokenOutcome(username, password, s, sent, respond, now);
      c.result != Returned(true) ==>
        && o.state == c.state && o.sent == c.sent
        && o.result == (if c.result.Raised? then Raised(c.result.error) else Returned(JNull))
    ensures o.result.Raised? ==> o.result.error == AttributeError
    ensures o.state.contractId == s.contractId
    ensures Extends(o.sent, sent) && |o.sent| <= |sent| + 3 && NoCurvesSince(o.sent, |sent|)
  {
    var c := CheckTokenOutcome(username, password, s, sent, respond, now);
    match c.result
    case Raised(e) => Step(c.state, c.sent, Raised(e))
    case Returned(ok) =>
      if !ok then Step(c.state, c.sent, Returned(JNull))
      else
        var req := SessionRequest(c.state.accessToken);
        var sent' := c.sent + [req];
        match respond(c.sent, req)
        case Failed(_) => Step(c.state, sent', Returned(JNull))
        case Answered(status, body) =>
          if status != 200 then Step(c.state, sent', Returned(JNull))
          else match body
            case None => Step(c.state, sent', Returned(JNull))
            case Some(JObj(data)) =>
              Step(c.state.(sessionId := Get(data, "SessionID")), sent', Returned(JObj(data)))
            case Some(_) => Step(c.state, sent', Raised(AttributeError))
  }

  /** A contract entry whose "StatusID" is "ACTIVE". */
  predicate IsActive(c: Json) {
    c.JObj? && Get(c.fields, "StatusID") == JStr("ACTIVE")
  }

  /** `[c for c in contracts if c.get("StatusID") == "ACTIVE"]`: the active
      entries in list order, or `None` when an entry is not a dict (the
      comprehension raises AttributeError). */
  function ActiveContracts(items: seq<Json>): (act: Option<seq<Json>>)
    ensures act.Some? <==> forall i :: 0 <= i < |items| ==> items[i].JObj?
    ensures act.Some? ==> forall c :: c in act.value ==> c in items && IsActive(c)
    ensures act.Some? && act.value == [] ==> forall i :: 0 <= i < |items| ==> !IsActive(items[i])
    ensures act.Some? && act.value != [] ==>
      exists k :: 0 <= k < |items| && items[k] == act.value[0] && IsActive(items[k])
        && forall j :: 0 <= j < k ==> !IsActive(items[j])
  {
    if items == [] then Some([])
    else if !items[0].JObj? then None
    else match ActiveContracts(items[1..])
      case None => None
      case Some(rest) =>
        assert forall i :: 1 <= i < |items| ==> items[i] == items[1..][i - 1];
        Some(if IsActive(items[0]) then [items[0]] + rest else rest)
  }

  /** The contract pick of `get_contracts` applied to `data.get("contracts",
      [])`: `None` (keep the stored id) for a falsy value; for a non-empty list
      of dicts, the "ContractId" of the first ACTIVE entry, or of the first
      entry when none is active; an exception for anything else. */
  function SelectContract(contracts: Json): (r: Call<Option<Json>>)
    ensures r == Returned(None) <==> !Truthy(contracts)
    ensures r.Returned? && r.value.Some? ==>
      && contracts.JList? && |contracts.items| > 0
      && (forall i :: 0 <= i < |contracts.items| ==> contracts.items[i].JObj?)
      && exists k :: 0 <= k < |contracts.items|
           && r.value.value == Get(contracts.items[k].fields, "ContractId")
           && (forall j :: 0 <= j < k ==> !IsActive(contracts.items[j]))
           && (IsActive(contracts.items[k]) || (k == 0 && forall j :: 0 <= j < |contracts.items| ==> !IsActive(contracts.items[j])))
    ensures contracts.JList? && (forall i :: 0 <= i < |contracts.items| ==> contracts.items[i].JObj?) ==> r.Returned?
    ensures r.Raised? ==> r.error == AttributeError || r.error == TypeError
  {
    if !Truthy(contracts) then Returned(None)
    else match contracts
      case JList(items) =>
        (match ActiveContracts(items)
         case None => Raised(AttributeError)
         case Some(active) =>
           if active != [] then Returned(Some(Get(active[0].fields, "ContractId")))
           else Returned(Some(Get(items[0].fields, "ContractId"))))
      case JObj(_) => Raised(AttributeError)   // iterates the keys: `str.get`
      case JStr(_) => Raised(AttributeError)   // iterates the characters: `str.get`
      case _ => Raised(TypeError)              // not iterable
  }

  /** The try block of `get_contracts`: one GET of the account's contracts. */
  function ContractsRequestOutcome(s: ClientState, sent: seq<Request>, respond: Server): (o: Step<ClientState, Json>)
    ensures o.sent == sent + [ContractsRequest(s.accessToken, s.sessionId)]
    ensures o.state == s.(contractId := o.state.contractId)
    ensures var reply := respond(sent, ContractsRequest(s.accessToken, s.sessionId));
      && (!Decoded(reply) ==> o == Step(s, o.sent, Returned(JNull)))
      && (Decoded(reply) && !reply.body.value.JObj? ==> o == Step(s, o.sent, Raised(AttributeError)))
      && (DecodedObject(reply) ==>
            var pick := SelectContract(GetOr(reply.body.value.fields, "contracts", JList([])));
            && (pick.Returned? ==> o.result == Returned(reply.body.value))
            && (pick == Returned(None) ==> o.state == s)
            && (pick.Returned? && pick.value.Some? ==> o.state.contractId == pick.value.value)
            && (pick.Raised? ==> o.state == s && o.result == Raised(pick.error)))
  {
    var req := ContractsRequest(s.accessToken, s.sessionId);
    var sent' := sent + [req];
    match respond(sent, req)
    case Failed(_) => Step(s, sent', Returned(JNull))
    case Answered(status, body) =>
      if status != 200 then Step(s, sent', Returned(JNull))
      else match body
        case None => Step(s, sent', Returned(JNull))
        case Some(JObj(data)) =>
          (match SelectContract(GetOr(data, "contracts", JList([])))
           case Raised(e) => Step(s, sent', Raised(e))
           case Returned(None) => Step(s, sent', Returned(JObj(data)))
           case Returned(Some(id)) => Step(s.(contractId := id), sent', Returned(JObj(data))))
        case Some(_) => Step(s, sent', Raised(AttributeError))
  }

  /** `get_contracts`: resolves the session first when no session id is
      stored, then fetches the contracts. The stored contract id changes only
      on a 200 JSON object, and then to the pick of its "contracts" list. */
  function ContractsOutcome(username: string, password: string, s: ClientState,
                            sent: seq<Request>, respond: Server, now: int): (o: Step<ClientState, Json>)
    ensures Truthy(s.sessionId) ==> o == ContractsRequestOutcome(s, sent, respond)
    ensures !Truthy(s.sessionId) ==>
      var si := SessionInfoOutcome(username, password, s, sent, respond, now);
      && (si.result.Raised? ==> o == Step(si.state, si.sent, Raised(si.result.error)))
      && (si.result.Returned? && !Truthy(si.result.value) ==> o == Step(si.state, si.sent, Returned(JNull)))
      && (si.result.Returned? && Truthy(si.result.value) ==> o == ContractsRequestOutcome(si.state, si.sent, respond))
    ensures o.state.contractId != s.contractId ==>
      && |o.sent| > |sent|
      && var reply := respond(o.sent[..|o.sent| - 1], o.sent[|o.sent| - 1]);
      && DecodedObject(reply)
      && o.result == Returned(reply.body.value)
      && SelectContract(GetOr(reply.body.value.fields, "contracts", JList([]))) == Returned(Some(o.state.contractId))
    ensures Extends(o.sent, sent) && |o.sent| <= |sent| + 4 && NoCurvesSince(o.sent, |sent|)
  {
    if !Truthy(s.sessionId) then
      var si := SessionInfoOutcome(username, password, s, sent, respond, now);
      if si.result.Raised? then Step(si.state, si.sent, Raised(si.result.error))
      else if !Truthy(si.result.value) then Step(si.state, si.sent, Returned(JNull))
      else ContractsRequestOutcome(si.state, si.sent, respond)
    else
      ContractsRequestOutcome(s, sent, respond)
  }

  // ---------------------------------------------------------------------
  // get_electricity_consumption
  // ---------------------------------------------------------------------

  /** The date window of a consumption request: the caller's dates when both
      are given, otherwise from the 1st of the current month to today. */
  function ConsumptionWindow(today: Date, from: Option<Date>, to: Option<Date>): (w: (Date, Date))
    ensures from.Some? && to.Some? ==> w == (from.value, to.value)
    ensures from.None? || to.None? ==>
      w.1 == today && w.0.year == today.year && w.0.month == today.month && w.0.day == 1
  {
    if from.None? || to.None? then (today.(day := 1), today) else (from.value, to.value)
  }

  /** The try block of `get_electricity_consumption`: one GET of the curves. */
  function CurvesOutcome(s: ClientState, sent: seq<Request>, respond: Server,
                         today: Date, from: Option<Date>, to: Option<Date>): (o: Step<ClientState, Json>)
    ensures o.state == s
    ensures o.sent == sent + [CurvesRequest(s.accessToken, s.contractId,
                                            ConsumptionWindow(today, from, to).0,
                                            ConsumptionWindow(today, from, to).1)]
    ensures o.result.Returned?
    ensures o.result.value != JNull ==> respond(sent, o.sent[|sent|]) == Answered(200, Some(o.result.value))
    ensures Decoded(respond(sent, o.sent[|sent|])) ==> o.result == Returned(respond(sent, o.sent[|sent|]).body.value)
    ensures !Decoded(respond(sent, o.sent[|sent|])) ==> o.result == Returned(JNull)
  {
    var w := ConsumptionWindow(today, from, to);
    var req := CurvesRequest(s.accessToken, s.contractId, w.0, w.1);
    var sent' := sent + [req];
    match respond(sent, req)
    case Failed(_) => Step(s, sent', Returned(JNull))
    case Answered(status, body) =>
      if status != 200 then Step(s, sent', Returned(JNull))
      else match body
        case None => Step(s, sent', Returned(JNull))
        case Some(data) => Step(s, sent', Returned(data))
  }

  /** `get_electricity_consumption`: without a contract id it first runs
      `get_contracts`, and returns None without requesting curves when the
      id is still unset. At most one curves request is sent, always last, and
      only with a contract id; with a known contract id nothing else is sent
      (not even a token check). */
  function ConsumptionOutcome(username: string, password: string, s: ClientState, sent: seq<Request>,
                              respond: Server, now: int, today: Date,
                              from: Option<Date>, to: Option<Date>): (o: Step<ClientState, Json>)
    ensures Truthy(s.contractId) ==> o == CurvesOutcome(s, sent, respond, today, from, to)
    ensures !Truthy(s.contractId) ==>
      var c := ContractsOutcome(username, password, s, sent, respond, now);
      && (c.result.Raised? ==> o == Step(c.state, c.sent, Raised(c.result.error)))
      && (c.result.Returned? && !Truthy(c.state.contractId) ==> o == Step(c.state, c.sent, Returned(JNull)))
      && (c.result.Returned? && Truthy(c.state.contractId) ==> o == CurvesOutcome(c.state, c.sent, respond, today, from, to))
    ensures Truthy(s.contractId) ==>
      o.state == s && o.sent == sent + [CurvesRequest(s.accessToken, s.contractId,
                                                      ConsumptionWindow(today, from, to).0,
                                                      ConsumptionWindow(today, from, to).1)]
    ensures !Truthy(o.state.contractId) ==>
      NoCurvesSince(o.sent, |sent|) && (o.result.Raised? || o.result == Returned(JNull))
    ensures Truthy(o.state.contractId) ==>
      && |o.sent| > |sent|
      && NoCurvesSince(o.sent[..|o.sent| - 1], |sent|)
      && o.sent[|o.sent| - 1] == CurvesRequest(o.state.accessToken, o.state.contractId,
                                                ConsumptionWindow(today, from, to).0,
                                                ConsumptionWindow(today, from, to).1)
    ensures o.result.Returned? && o.result.value != JNull ==>
      && |o.sent| > |sent|
      && respond(o.sent[..|o.sent| - 1], o.sent[|o.sent| - 1]) == Answered(200, Some(o.result.value))
    ensures Extends(o.sent, sent) && |o.sent| <= |sent| + 5
  {
    if !Truthy(s.contractId) then
      var c := ContractsOutcome(username, password, s, sent, respond, now);
      if c.result.Raised? then Step(c.state, c.sent, Raised(c.result.error))
      else if !Truthy(c.state.contractId) then Step(c.state, c.sent, Returned(JNull))
      else CurvesOutcome(c.state, c.sent, respond, today, from, to)
    else
      CurvesOutcome(s, sent, respond, today, from, to)
  }

  // ---------------------------------------------------------------------
  // The client object
  // ---------------------------------------------------------------------

  class RomandeEnergieApiClient {
    const username: string
    const password: string
    const session: Session
    var accessToken: Json
    var refreshToken: Json
    var sessionId: Json
    var contractId: Json
    var tokenExpiresAt: Option<int>

    function State(): ClientState
      reads this
    {
      ClientState(accessToken, refreshToken, sessionId, contractId, tokenExpiresAt)
    }

    constructor (username: string, password: string, session: Session)
      ensures this.username == username && this.password == password && this.session == session
      ensures State() == ClientState(JNull, JNull, JNull, JNull, None)
    {
      this.username := username;
      this.password := password;
      this.session := session;
      accessToken := JNull;
      refreshToken := JNull;
      sessionId := JNull;
      contractId := JNull;
      tokenExpiresAt := None;
    }

    method Login(now: int) returns (r: Call<bool>)
      modifies this, session
      ensures Step(State(), session.sent, r)
           == LoginOutcome(username, password, old(State()), old(session.sent), session.respond, now)
    {
      var reply := session.Send(LoginRequest(username, password));
      match reply
      case Failed(_) =>
        r := Returned(false);
      case Answered(status, body) =>
        if status != 200 {
          return Returned(false);
        }
        match body
        case None =>
          r := Returned(false);
        case Some(data) =>
          if data.JObj? {
            accessToken := Get(data.fields, "access");
            refreshToken := Get(data.fields, "refresh");
            tokenExpiresAt := Some(now + TokenLifetime);
            r := Returned(true);
          } else {
            r := Raised(AttributeError);
          }
    }

    method RefreshAccessToken(now: int) returns (r: Call<bool>)
      modifies this, session
      ensures Step(State(), session.sent, r)
           == RefreshOutcome(username, password, old(State()), old(session.sent), session.respond, now)
    {
      if !Truthy(refreshToken) {
        r := Login(now);
        return;
      }
      var reply := session.Send(RefreshRequest(refreshToken));
      match reply
      case Failed(_) =>
        r := Login(now);
      case Answered(status, body) =>
        if status != 200 {
          r := Login(now);
          return;
        }
        match body
        case None =>
          r := Login(now);
        case Some(data) =>
          if data.JObj? {
            accessToken := Get(data.fields, "access");
            tokenExpiresAt := Some(now + TokenLifetime);
            r := Returned(true);
          } else {
            r := Raised(AttributeError);
          }
    }

    method CheckToken(now: int) returns (r: Call<bool>)
      modifies this, session
      ensures Step(State(), session.sent, r)
           == CheckTokenOutcome(username, password, old(State()), old(session.sent), session.respond, now)
    {
      if !Truthy(accessToken) {
        r := Login(now);
      } else if tokenExpiresAt.Some? && now >= tokenExpiresAt.value {
        r := RefreshAccessToken(now);
      } else {
        r := Returned(true);
      }
    }

    method GetSessionInfo(now: int) returns (r: Call<Json>)
      modifies this, session
      ensures Step(State(), session.sent, r)
           == SessionInfoOutcome(username, password, old(State()), old(session.sent), session.respond, now)
    {
      var valid := CheckToken(now);
      if valid.Raised? {
        return Raised(valid.error);
      }
      if !valid.value {
        return Returned(JNull);
      }
      var reply := session.Send(SessionRequest(accessToken));
      match reply
      case Failed(_) =>
        r := Returned(JNull);
      case Answered(status, body) =>
        if status != 200 {
          return Returned(JNull);
        }
        match body
        case None =>
          r := Returned(JNull);
        case Some(data) =>
          if data.JObj? {
            sessionId := Get(data.fields, "SessionID");
            r := Returned(data);
          } else {
            r := Raised(AttributeError);
          }
    }

    method GetContracts(now: int) returns (r: Call<Json>)
      modifies this, session
      ensures Step(State(), session.sent, r)
           == ContractsOutcome(username, password, old(State()), old(session.sent), session.respond, now)
    {
      if !Truthy(sessionId) {
        var sessionData := GetSessionInfo(now);
        if sessionData.Raised? {
          return Raised(sessionData.error);
        }
        if !Truthy(sessionData.value) {
          return Returned(JNull);
        }
      }
      var reply := session.Send(ContractsRequest(accessToken, sessionId));
      match reply
      case Failed(_) =>
        r := Returned(JNull);
      case Answered(status, body) =>
        if status != 200 {
          return Returned(JNull);
        }
        match body
        case None =>
          r := Returned(JNull);
        case Some(data) =>
          if data.JObj? {
            var pick := SelectContract(GetOr(data.fields, "contracts", JList([])));
            match pick
            case Raised(e) =>
              r := Raised(e);
            case Returned(id) =>
              if id.Some? {
                contractId := id.value;
              }
              r := Returned(data);
          } else {
            r := Raised(AttributeError);
          }
    }

    method GetElectricityConsumption(now: int, today: Date, from: Option<Date>, to: Option<Date>)
      returns (r: Call<Json>)
      modifies this, session
      ensures Step(State(), session.sent, r)
           == ConsumptionOutcome(username, password, old(State()), old(session.sent), session.respond,
                                 now, today, from, to)
    {
      if !Truthy(contractId) {
        var contractsData := GetContracts(now);
        if contractsData.Raised? {
          return Raised(contractsData.error);
        }
        if !Truthy(contractId) {
          return Returned(JNull);
        }
      }
      var fromDate, toDate := from, to;
      if fromDate.None? || toDate.None? {
        fromDate, toDate := Some(today.(day := 1)), Some(today);
      }
      var reply := session.Send(CurvesRequest(accessToken, contractId, fromDate.value, toDate.value));
      match reply
      case Failed(_) =>
        r := Returned(JNull);
      case Answered(status, body) =>
        if status != 200 {
          return Returned(JNull);
        }
        match body
        case None =>
          r := Returned(JNull);
        case Some(data) =>
          r := Returned(data);
    }
  }
}
