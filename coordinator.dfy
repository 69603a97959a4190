/** `RomandeEnergieCoordinator` (custom_components/romande_energie/coordinator.py):
    the Home Assistant update coordinator. It logs in and keeps the token's
    expiry from the JWT "exp" claim, logs in again when the token is within
    a margin of expiry, fetches a trailing window of daily consumption with
    one re-login and one retry on HTTP 403, and returns yesterday's value.

    As in the client model, each source method is a class method, and a pure
    function `...Outcome` states its effect on the fields, the requests it
    sends and what it returns or raises. The settings that coordinator.py
    imports from const.py but that const.py does not define are fields of
    `Config`, as are the two library calls the model leaves abstract. */
module Coordinator {
  import opened JsonValue
  import opened Http

  /** The claims of a decoded JWT. */
  type Claims = map<string, Json>

  datatype Config = Config(
    username: string,
    password: string,
    contractId: Json,                    // the entry's CONF_CONTRACT_ID
    loginEndpoint: string,               // LOGIN_ENDPOINT
    curveEndpoint: string,               // CURVE_ENDPOINT, formatted with contract_id
    fetchDays: int,                      // FETCH_DAYS
    tokenExpMargin: int,                 // TOKEN_EXP_MARGIN, in seconds
    jwtDecode: Json -> Option<Claims>,   // jwt.decode without signature check; None: DecodeError
    isoDate: int -> string)              // date.isoformat() of a day number

  /** The coordinator's token fields. `accountId` is `None` until the first
      successful login assigns `_account_id` (the constructor never does). */
  datatype CoordState = CoordState(
    accessToken: Json,
    refreshToken: Json,
    tokenExp: Json,
    accountId: Option<Json>)

  function LoginRequest(conf: Config): Request {
    Request(POST, Fixed(conf.loginEndpoint), [],
            map["username" := JStr(conf.username), "password" := JStr(conf.password)], None, false)
  }

  /** The days the curves GET asks for, `(start_date, end_date)`: a window
      of `FETCH_DAYS` days ending today. Yesterday, the day searched for,
      lies inside it whenever `FETCH_DAYS` is at least 1. */
  function FetchWindow(conf: Config, today: int): (w: (int, int))
    ensures w.1 == today && w.1 - w.0 == conf.fetchDays
    ensures conf.fetchDays >= 1 ==> w.0 <= today - 1 < w.1
  {
    (today - conf.fetchDays, today)
  }

  /** The curves GET for the configured contract over the fetch window,
      daily, with the given bearer token. */
  function CurveRequest(conf: Config, accessToken: Json, today: int): (r: Request)
    ensures IsCurveRequest(conf, r) && r.verb == GET && r.bearer == Some(accessToken)
    ensures r.query == [("start_date", Text(conf.isoDate(FetchWindow(conf, today).0))),
                        ("end_date", Text(conf.isoDate(FetchWindow(conf, today).1))),
                        ("granularity", Text("DAILY"))]
  {
    var w := FetchWindow(conf, today);
    Request(GET, Template(conf.curveEndpoint, "contract_id", conf.contractId),
            [("start_date", Text(conf.isoDate(w.0))),
             ("end_date", Text(conf.isoDate(w.1))),
             ("granularity", Text("DAILY"))],
            map[], Some(accessToken), false)
  }

  predicate IsCurveRequest(conf: Config, r: Request) {
    r.url == Template(conf.curveEndpoint, "contract_id", conf.contractId)
  }

  /** The number of curve requests in a log. */
  function CurveRequests(conf: Config, log: seq<Request>): nat {
    if log == [] then 0
    else (if IsCurveRequest(conf, log[0]) then 1 else 0) + CurveRequests(conf, log[1..])
  }

  // ---------------------------------------------------------------------
  // _login
  // ---------------------------------------------------------------------

  /** A login reply that `_login` accepts: status 200, a JSON object with
      both tokens, and an access token that decodes to claims with "exp". */
  predicate LoginAccepted(conf: Config, x: Exchange) {
    && x.Answered? && x.status == 200 && x.body.Some? && x.body.value.JObj?
    && "access_token" in x.body.value.fields && "refresh_token" in x.body.value.fields
    && conf.jwtDecode(x.body.value.fields["access_token"]).Some?
    && "exp" in conf.jwtDecode(x.body.value.fields["access_token"]).value
  }

  /** Lines 81-86 of `_login` on a decoded JSON object: each assignment
      happens before the lookup after it can raise, so a KeyError or a
      DecodeError leaves the fields assigned so far. */
  function StoreTokens(conf: Config, s: CoordState, sent: seq<Request>, data: map<string, Json>)
    : Step<CoordState, ()>
  {
    if "access_token" !in data then Step(s, sent, Raised(KeyError))
    else
      var s1 := s.(accessToken := data["access_token"]);
      if "refresh_token" !in data then Step(s1, sent, Raised(KeyError))
      else
        var s2 := s1.(refreshToken := data["refresh_token"]);
        match conf.jwtDecode(s2.accessToken)
        case None => Step(s2, sent, Raised(JwtDecodeError))
        case Some(claims) =>
          if "exp" !in claims then Step(s2, sent, Raised(KeyError))
          else Step(s2.(tokenExp := claims["exp"], accountId := Some(Get(claims, "user_account_id"))),
                    sent, Returned(()))
  }

  /** `_login`: one POST of the credentials. On an accepted reply both
      tokens come from the payload and the expiry and account id from the
      token's claims. A non-200 status raises UpdateFailed and changes
      nothing; the expiry and account id change only on success. */
  function LoginOutcome(conf: Config, s: CoordState, sent: seq<Request>, respond: Server): (o: Step<CoordState, ()>)
    ensures o.sent == sent + [LoginRequest(conf)]
    ensures o.result.Returned? <==> LoginAccepted(conf, respond(sent, LoginRequest(conf)))
    ensures o.result.Returned? ==>
      var data := respond(sent, LoginRequest(conf)).body.value.fields;
      var claims := conf.jwtDecode(data["access_token"]).value;
      o.state == CoordState(data["access_token"], data["refresh_token"], claims["exp"],
                            Some(Get(claims, "user_account_id")))
    ensures var reply := respond(sent, LoginRequest(conf));
      reply.Answered? && reply.status != 200 ==>
        o.result == Raised(UpdateFailed(LoginRejected(reply.status))) && o.state == s
    ensures o.result.Raised? ==> o.state.tokenExp == s.tokenExp && o.state.accountId == s.accountId
    ensures o.result.Raised? && o.result.error.UpdateFailed? ==> o.result.error.cause.LoginRejected?
    ensures o.state.accessToken != s.accessToken || o.state.refreshToken != s.refreshToken ==>
      var reply := respond(sent, LoginRequest(conf));
      reply.Answered? && reply.status == 200 && reply.body.Some? && reply.body.value.JObj?
      && "access_token" in reply.body.value.fields
      && o.state.accessToken == reply.body.value.fields["access_token"]
    ensures o.state.refreshToken != s.refreshToken ==>
      var reply := respond(sent, LoginRequest(conf));
      reply.Answered? && reply.status == 200 && reply.body.Some? && reply.body.value.JObj?
      && "refresh_token" in reply.body.value.fields
      && o.state.refreshToken == reply.body.value.fields["refresh_token"]
    // The failures before the payload is read: none of them touches a field.
    ensures var reply := respond(sent, LoginRequest(conf));
      && (reply.Failed? ==> o.result == Raised(FaultError(reply.fault)) && o.state == s)
      && (reply == Answered(200, None) ==> o.result == Raised(JsonDecodeError) && o.state == s)
      && (reply.Answered? && reply.status == 200 && reply.body.Some? && !reply.body.value.JObj? ==>
            o.result == Raised(TypeError) && o.state == s)
    // The failures while the payload is stored keep what was assigned before them.
    ensures var reply := respond(sent, LoginRequest(conf));
      reply.Answered? && reply.status == 200 && reply.body.Some? && reply.body.value.JObj? ==>
        var data := reply.body.value.fields;
        && ("access_token" !in data ==> o.result == Raised(KeyError) && o.state == s)
        && ("access_token" in data && "refresh_token" !in data ==>
              o.result == Raised(KeyError) && o.state == s.(accessToken := data["access_token"]))
        && ("access_token" in data && "refresh_token" in data ==>
              var stored := s.(accessToken := data["access_token"], refreshToken := data["refresh_token"]);
              && (conf.jwtDecode(data["access_token"]).None? ==>
                    o.result == Raised(JwtDecodeError) && o.state == stored)
              && (conf.jwtDecode(data["access_token"]).Some? && "exp" !in conf.jwtDecode(data["access_token"]).value ==>
                    o.result == Raised(KeyError) && o.state == stored))
  {
    var req := LoginRequest(conf);
    var sent' := sent + [req];
    match respond(sent, req)
    case Failed(f) => Step(s, sent', Raised(FaultError(f)))
    case Answered(status, body) =>
      if status != 200 then Step(s, sent', Raised(UpdateFailed(LoginRejected(status))))
      else match body
        case None => Step(s, sent', Raised(JsonDecodeError))
        case Some(JObj(data)) => StoreTokens(conf, s, sent', data)
        case Some(_) => Step(s, sent', Raised(TypeError))   // subscripting a non-dict
  }

  // ---------------------------------------------------------------------
  // _ensure_token
  // ---------------------------------------------------------------------

  /** `self._token_exp - now < TOKEN_EXP_MARGIN`, when the subtraction is
      defined. */
  predicate NearExpiry(tokenExp: Json, now: int, margin: int) {
    Numeric(tokenExp).Some? && Numeric(tokenExp).value - now as real < margin as real
  }

  /** `_ensure_token`: logs in exactly when there is no access token or the
      token expires within the margin; otherwise it sends nothing and
      changes nothing, and the token it keeps is valid for at least the
      margin. A non-numeric expiry makes the comparison raise TypeError. */
  function EnsureTokenOutcome(conf: Config, s: CoordState, sent: seq<Request>, respond: Server, now: int)
    : (o: Step<CoordState, ()>)
    ensures !Truthy(s.accessToken) || NearExpiry(s.tokenExp, now, conf.tokenExpMargin) ==>
      o == LoginOutcome(conf, s, sent, respond)
    ensures o.sent != sent <==> !Truthy(s.accessToken) || NearExpiry(s.tokenExp, now, conf.tokenExpMargin)
    ensures o.sent == sent ==> o.state == s
    ensures o.sent == sent && o.result.Returned? ==>
      Truthy(s.accessToken) && Numeric(s.tokenExp).Some? && Numeric(s.tokenExp).value - now as real >= conf.tokenExpMargin as real
    ensures o.sent == sent && o.result.Raised? ==> o.result.error == TypeError && Numeric(s.tokenExp).None?
  {
    if !Truthy(s.accessToken) then LoginOutcome(conf, s, sent, respond)
    else match Numeric(s.tokenExp)
      case None => Step(s, sent, Raised(TypeError))
      case Some(exp) =>
        if exp - now as real < conf.tokenExpMargin as real then LoginOutcome(conf, s, sent, respond)
        else Step(s, sent, Returned(()))
  }

  // ---------------------------------------------------------------------
  // The yesterday lookup
  // ---------------------------------------------------------------------

  /** A curve entry whose "date" is the target day's ISO string. */
  predicate IsEntryFor(item: Json, target: string) {
    item.JObj? && Get(item.fields, "date") == JStr(target)
  }

  /** The `for item in curves` loop over a list: the "value" of the first
      entry for the target day, `None` when no entry matches, and
      AttributeError when a non-dict is reached before a match. */
  function Lookup(items: seq<Json>, target: string): (r: Call<Option<Json>>)
    ensures r == Returned(None) <==>
      forall i :: 0 <= i < |items| ==> items[i].JObj? && !IsEntryFor(items[i], target)
    ensures r.Returned? && r.value.Some? ==>
      exists k :: 0 <= k < |items| && IsEntryFor(items[k], target)
        && r.value.value == Get(items[k].fields, "value")
        && forall j :: 0 <= j < k ==> items[j].JObj? && !IsEntryFor(items[j], target)
    ensures r.Raised? ==>
      && r.error == AttributeError
      && (exists k :: 0 <= k < |items| && !items[k].JObj?
            && forall j :: 0 <= j < k ==> items[j].JObj? && !IsEntryFor(items[j], target))
  {
    if items == [] then Returned(None)
    else if !items[0].JObj? then Raised(AttributeError)
    else if IsEntryFor(items[0], target) then Returned(Some(Get(items[0].fields, "value")))
    else
      var r := Lookup(items[1..], target);
      assert forall i :: 1 <= i < |items| ==> items[i] == items[1..][i - 1];
      r
  }

  /** The same loop when the decoded body is not a list: iterating an empty
      dict or string finds nothing; a non-empty one yields strings, whose
      `.get` raises AttributeError; other values are not iterable. */
  function NonListLookup(curves: Json): (r: Call<Option<Json>>)
    requires !curves.JList?
    ensures r == Returned(None) <==> !Truthy(curves) && (curves.JObj? || curves.JStr?)
    ensures r.Returned? ==> r.value.None?
    ensures r.Raised? ==>
      r.error == (if curves.JObj? || curves.JStr? then AttributeError else TypeError)
  {
    match curves
    case JObj(m) => if |m| == 0 then Returned(None) else Raised(AttributeError)
    case JStr(t) => if |t| == 0 then Returned(None) else Raised(AttributeError)
    case _ => Raised(TypeError)
  }

  function SearchCurves(curves: Json, target: string): Call<Option<Json>> {
    if curves.JList? then Lookup(curves.items, target) else NonListLookup(curves)
  }

  /** The search loop of `_fetch_yesterday_kwh` over a list of entries. */
  method FindYesterday(items: seq<Json>, target: string) returns (r: Call<Option<Json>>)
    ensures r == Lookup(items, target)
  {
    var i := 0;
    while i < |items|
      invariant 0 <= i <= |items|
      invariant Lookup(items, target) == Lookup(items[i..], target)
    {
      var item := items[i];
      if !item.JObj? {
        return Raised(AttributeError);
      }
      if Get(item.fields, "date") == JStr(target) {
        return Returned(Some(Get(item.fields, "value")));
      }
      assert items[i..][1..] == items[i + 1..];
      i := i + 1;
    }
    r := Returned(None);
  }

  // ---------------------------------------------------------------------
  // _fetch_yesterday_kwh
  // ---------------------------------------------------------------------

  /** The reply that decides the fetch: a fault raises, a non-200 status
      raises UpdateFailed, and only a 200 body reaches the search. */
  function ReadCurves(conf: Config, s: CoordState, sent: seq<Request>, reply: Exchange, today: int)
    : Step<CoordState, Option<Json>>
  {
    match reply
    case Failed(f) => Step(s, sent, Raised(FaultError(f)))
    case Answered(status, body) =>
      if status != 200 then Step(s, sent, Raised(UpdateFailed(CurveFetchFailed(status))))
      else match body
        case None => Step(s, sent, Raised(JsonDecodeError))
        case Some(curves) => Step(s, sent, SearchCurves(curves, conf.isoDate(today - 1)))
  }

  predicate IsForbidden(x: Exchange) {
    x.Answered? && x.status == 403
  }

  /** `_fetch_yesterday_kwh`. The first request is the curves GET with the
      current token. Only a 403 triggers a login, at most one, and after a
      successful login exactly one retry with the new token; so at most two
      curve requests per fetch. Only a final 200 reaches the search, and a
      final non-200 raises UpdateFailed. */
  function FetchOutcome(conf: Config, s: CoordState, sent: seq<Request>, respond: Server, today: int)
    : (o: Step<CoordState, Option<Json>>)
    ensures Extends(o.sent, sent) && |sent| < |o.sent| <= |sent| + 3
    ensures o.sent[|sent|] == CurveRequest(conf, s.accessToken, today)
    ensures !IsForbidden(respond(sent, CurveRequest(conf, s.accessToken, today))) ==>
      o.state == s && o.sent == sent + [CurveRequest(conf, s.accessToken, today)]
    ensures IsForbidden(respond(sent, CurveRequest(conf, s.accessToken, today))) ==>
      var l := LoginOutcome(conf, s, sent + [CurveRequest(conf, s.accessToken, today)], respond);
      && o.state == l.state
      && |o.sent| >= |sent| + 2 && o.sent[|sent| + 1] == LoginRequest(conf)
      && (l.result.Raised? ==> o.sent == l.sent && o.result == Raised(l.result.error))
      && (l.result.Returned? ==> o.sent == l.sent + [CurveRequest(conf, l.state.accessToken, today)])
    ensures o.result.Returned? ==>
      var last := LastReply(respond, o.sent);
      && IsCurveRequest(conf, o.sent[|o.sent| - 1])
      && last.Answered? && last.status == 200 && last.body.Some?
      && o.result == SearchCurves(last.body.value, conf.isoDate(today - 1))
    ensures var last := LastReply(respond, o.sent);
      (IsCurveRequest(conf, o.sent[|o.sent| - 1]) && last.Answered? && last.status != 200) ==>
        o.result == Raised(UpdateFailed(CurveFetchFailed(last.status)))
    ensures var last := LastReply(respond, o.sent);
      (IsCurveRequest(conf, o.sent[|o.sent| - 1]) && last.Answered? && last.status == 200 && last.body.Some?) ==>
        o.result == SearchCurves(last.body.value, conf.isoDate(today - 1))
    ensures var last := LastReply(respond, o.sent);
      IsCurveRequest(conf, o.sent[|o.sent| - 1]) ==>
        && (last.Failed? ==> o.result == Raised(FaultError(last.fault)))
        && (last == Answered(200, None) ==> o.result == Raised(JsonDecodeError))
  {
    var first := CurveRequest(conf, s.accessToken, today);
    var sent1 := sent + [first];
    var reply := respond(sent, first);
    if IsForbidden(reply) then
      var l := LoginOutcome(conf, s, sent1, respond);
      if l.result.Raised? then Step(l.state, l.sent, Raised(l.result.error))
      else
        var retry := CurveRequest(conf, l.state.accessToken, today);
        ReadCurves(conf, l.state, l.sent + [retry], respond(l.sent, retry), today)
    else
      ReadCurves(conf, s, sent1, reply, today)
  }

  /** A fetch never sends more than two curve requests. */
  lemma {:induction false} FetchSendsAtMostTwoCurveRequests(conf: Config, s: CoordState, sent: seq<Request>,
                                                            respond: Server, today: int)
    ensures var o := FetchOutcome(conf, s, sent, respond, today);
      CurveRequests(conf, o.sent[|sent|..]) <= 2
  {
    var o := FetchOutcome(conf, s, sent, respond, today);
    var tail := o.sent[|sent|..];
    assert !IsCurveRequest(conf, LoginRequest(conf));
    if |tail| == 3 {
      assert tail[1] == o.sent[|sent| + 1] == LoginRequest(conf);
      assert tail[1..][1..][1..] == [];
      assert CurveRequests(conf, tail[1..][1..]) <= 1;
      assert CurveRequests(conf, tail[1..]) <= 1;
    } else if |tail| == 2 {
      assert tail[1] == o.sent[|sent| + 1] == LoginRequest(conf);
      assert tail[1..][1..] == [];
    } else {
      assert tail[1..] == [];
    }
  }

  /** `_fetch_yesterday_kwh` as written. The retry's response is bound by
      its own `async with` block (coordinator.py:114-115), which releases it
      on exit; reading its body afterwards (`resp.text()` or `resp.json()`,
      coordinator.py:117-122) raises aiohttp's ClientConnectionError, a
      ClientError. So a retry that gets any reply ends in ClientError. */
  function FetchOutcomeAsWritten(conf: Config, s: CoordState, sent: seq<Request>, respond: Server, today: int)
    : (o: Step<CoordState, Option<Json>>)
    ensures !IsForbidden(respond(sent, CurveRequest(conf, s.accessToken, today))) ==>
      o == FetchOutcome(conf, s, sent, respond, today)
    ensures IsForbidden(respond(sent, CurveRequest(conf, s.accessToken, today))) ==>
      var l := LoginOutcome(conf, s, sent + [CurveRequest(conf, s.accessToken, today)], respond);
      l.result.Returned? && respond(l.sent, CurveRequest(conf, l.state.accessToken, today)).Answered? ==>
        o.result == Raised(ClientError)
  {
    var first := CurveRequest(conf, s.accessToken, today);
    var sent1 := sent + [first];
    var reply := respond(sent, first);
    if IsForbidden(reply) then
      var l := LoginOutcome(conf, s, sent1, respond);
      if l.result.Raised? then Step(l.state, l.sent, Raised(l.result.error))
      else
        var retry := CurveRequest(conf, l.state.accessToken, today);
        match respond(l.sent, retry)
        case Failed(f) => Step(l.state, l.sent + [retry], Raised(FaultError(f)))
        case Answered(_, _) => Step(l.state, l.sent + [retry], Raised(ClientError))  // body read after release
    else
      ReadCurves(conf, s, sent1, reply, today)
  }

  /** A 403, a successful login and a 200 retry whose body holds yesterday's
      entry: the fetch as written raises ClientError, while the intended
      fetch returns what the search of the retry's body finds. */
  lemma {:induction false} RetriedFetchLosesItsReplyAsWritten(conf: Config, s: CoordState, sent: seq<Request>,
                                                              respond: Server, today: int, b: Json)
    requires IsForbidden(respond(sent, CurveRequest(conf, s.accessToken, today)))
    requires var l := LoginOutcome(conf, s, sent + [CurveRequest(conf, s.accessToken, today)], respond);
      l.result.Returned? && respond(l.sent, CurveRequest(conf, l.state.accessToken, today)) == Answered(200, Some(b))
    ensures FetchOutcomeAsWritten(conf, s, sent, respond, today).result == Raised(ClientError)
    ensures FetchOutcome(conf, s, sent, respond, today).result == SearchCurves(b, conf.isoDate(today - 1))
  {
    var l := LoginOutcome(conf, s, sent + [CurveRequest(conf, s.accessToken, today)], respond);
    var o := FetchOutcome(conf, s, sent, respond, today);
    assert o.sent == l.sent + [CurveRequest(conf, l.state.accessToken, today)];
    assert IsCurveRequest(conf, o.sent[|o.sent| - 1]);
  }

  // ---------------------------------------------------------------------
  // _async_update_data
  // ---------------------------------------------------------------------

  /** `_async_update_data`: ensure the token, fetch, and turn a missing
      value into UpdateFailed. */
  function UpdateOutcome(conf: Config, s: CoordState, sent: seq<Request>, respond: Server,
                         now: int, today: int): (o: Step<CoordState, Json>)
    ensures Extends(o.sent, sent)
    ensures !Truthy(s.accessToken) || NearExpiry(s.tokenExp, now, conf.tokenExpMargin) ==>
      |o.sent| > |sent| && o.sent[|sent|] == LoginRequest(conf)
  {
    var e := EnsureTokenOutcome(conf, s, sent, respond, now);
    if e.result.Raised? then Step(e.state, e.sent, Raised(e.result.error))
    else
      var f := FetchOutcome(conf, e.state, e.sent, respond, today);
      match f.result
      case Raised(err) => Step(f.state, f.sent, Raised(err))
      case Returned(None) => Step(f.state, f.sent, Raised(UpdateFailed(NoDataForYesterday)))
      case Returned(Some(v)) => Step(f.state, f.sent, Returned(v))
  }

  /** A value returned by `_async_update_data` is what the search found for
      yesterday in a 200 reply to the last request, a curve request. */
  lemma UpdateReturnsYesterdaysValue(conf: Config, s: CoordState, sent: seq<Request>, respond: Server,
                                     now: int, today: int)
    ensures var o := UpdateOutcome(conf, s, sent, respond, now, today);
      o.result.Returned? ==>
        && |o.sent| > |sent|
        && var last := LastReply(respond, o.sent);
        && IsCurveRequest(conf, o.sent[|o.sent| - 1])
        && last.Answered? && last.status == 200 && last.body.Some?
        && SearchCurves(last.body.value, conf.isoDate(today - 1)) == Returned(Some(o.result.value))
  {
    var o := UpdateOutcome(conf, s, sent, respond, now, today);
    var e := EnsureTokenOutcome(conf, s, sent, respond, now);
    if o.result.Returned? {
      assert e.result.Returned?;
      var f := FetchOutcome(conf, e.state, e.sent, respond, today);
      assert f.result == Returned(Some(o.result.value));
      assert o.sent == f.sent;
    }
  }

  /** `_async_update_data` raises UpdateFailed for missing data only when
      the last request was a curve request, its reply was a 200 and the
      search found no entry for yesterday in it. */
  lemma UpdateFailsOnlyWithoutYesterday(conf: Config, s: CoordState, sent: seq<Request>, respond: Server,
                                        now: int, today: int)
    ensures var o := UpdateOutcome(conf, s, sent, respond, now, today);
      o.result == Raised(UpdateFailed(NoDataForYesterday)) ==>
        && |o.sent| > |sent|
        && var last := LastReply(respond, o.sent);
        && IsCurveRequest(conf, o.sent[|o.sent| - 1])
        && last.Answered? && last.status == 200 && last.body.Some?
        && SearchCurves(last.body.value, conf.isoDate(today - 1)) == Returned(None)
  {
    var o := UpdateOutcome(conf, s, sent, respond, now, today);
    var e := EnsureTokenOutcome(conf, s, sent, respond, now);
    if o.result == Raised(UpdateFailed(NoDataForYesterday)) {
      assert e.result.Returned?;
      var f := FetchOutcome(conf, e.state, e.sent, respond, today);
      assert f.result == Returned(None);
      assert o.sent == f.sent;
    }
  }

  /** `_async_update_data` is `_ensure_token` followed, when that returns,
      by `_fetch_yesterday_kwh`: the fields and the log are the fetch's, a
      found value is returned, and a fetch that finds nothing becomes
      UpdateFailed. Any exception of either step is the update's. */
  lemma UpdateIsEnsureThenFetch(conf: Config, s: CoordState, sent: seq<Request>, respond: Server,
                                now: int, today: int)
    ensures var o := UpdateOutcome(conf, s, sent, respond, now, today);
      var e := EnsureTokenOutcome(conf, s, sent, respond, now);
      && (e.result.Raised? ==> o == Step(e.state, e.sent, Raised(e.result.error)))
      && (e.result.Returned? ==>
            var f := FetchOutcome(conf, e.state, e.sent, respond, today);
            && o.state == f.state && o.sent == f.sent
            && (f.result.Raised? ==> o.result == Raised(f.result.error))
            && (f.result == Returned(None) ==> o.result == Raised(UpdateFailed(NoDataForYesterday)))
            && (f.result.Returned? && f.result.value.Some? ==> o.result == Returned(f.result.value.value)))
  {
    var e := EnsureTokenOutcome(conf, s, sent, respond, now);
    if e.result.Returned? {
      var f := FetchOutcome(conf, e.state, e.sent, respond, today);
      match f.result
      case Raised(_) =>
      case Returned(None) =>
      case Returned(Some(_)) =>
    }
  }

  /** The converse of the two lemmas above: when the update's last request
      is a curve request answered 200, the update returns what the search of
      that body finds, or raises UpdateFailed when it finds nothing. */
  lemma UpdateReturnsWhatTheSearchFinds(conf: Config, s: CoordState, sent: seq<Request>, respond: Server,
                                        now: int, today: int)
    ensures var o := UpdateOutcome(conf, s, sent, respond, now, today);
      |o.sent| > |sent| && IsCurveRequest(conf, o.sent[|o.sent| - 1]) ==>
        var last := LastReply(respond, o.sent);
        last.Answered? && last.status == 200 && last.body.Some? ==>
          var found := SearchCurves(last.body.value, conf.isoDate(today - 1));
          && (found == Returned(None) ==> o.result == Raised(UpdateFailed(NoDataForYesterday)))
          && (found.Returned? && found.value.Some? ==> o.result == Returned(found.value.value))
          && (found.Raised? ==> o.result == Raised(found.error))
  {
    var o := UpdateOutcome(conf, s, sent, respond, now, today);
    var e := EnsureTokenOutcome(conf, s, sent, respond, now);
    UpdateIsEnsureThenFetch(conf, s, sent, respond, now, today);
    // A failed ensure sends nothing or ends with the login request, so only
    // the fetch can leave a curve request last.
    if |o.sent| > |sent| && IsCurveRequest(conf, o.sent[|o.sent| - 1]) && e.result.Returned? {
      var f := FetchOutcome(conf, e.state, e.sent, respond, today);
      assert o.sent == f.sent;
    }
  }

  // ---------------------------------------------------------------------
  // The coordinator object
  // ---------------------------------------------------------------------

  class RomandeEnergieCoordinator {
    const conf: Config
    const session: Session
    var accessToken: Json
    var refreshToken: Json
    var tokenExp: Json
    var accountId: Option<Json>

    function State(): CoordState
      reads this
    {
      CoordState(accessToken, refreshToken, tokenExp, accountId)
    }

    constructor (conf: Config, session: Session)
      ensures this.conf == conf && this.session == session
      ensures State() == CoordState(JNull, JNull, JInt(0), None)
    {
      this.conf := conf;
      this.session := session;
      accessToken := JNull;
      refreshToken := JNull;
      tokenExp := JInt(0);
      accountId := None;
    }

    method Login() returns (r: Call<()>)
      modifies this, session
      ensures Step(State(), session.sent, r) == LoginOutcome(conf, old(State()), old(session.sent), session.respond)
    {
      var reply := session.Send(LoginRequest(conf));
      if reply.Failed? {
        return Raised(FaultError(reply.fault));
      }
      if reply.status != 200 {
        return Raised(UpdateFailed(LoginRejected(reply.status)));
      }
      if reply.body.None? {
        return Raised(JsonDecodeError);
      }
      var data := reply.body.value;
      if !data.JObj? {
        return Raised(TypeError);
      }
      if "access_token" !in data.fields {
        return Raised(KeyError);
      }
      accessToken := data.fields["access_token"];
      if "refresh_token" !in data.fields {
        return Raised(KeyError);
      }
      refreshToken := data.fields["refresh_token"];
      var decoded := conf.jwtDecode(accessToken);
      if decoded.None? {
        return Raised(JwtDecodeError);
      }
      if "exp" !in decoded.value {
        return Raised(KeyError);
      }
      tokenExp := decoded.value["exp"];
      accountId := Some(Get(decoded.value, "user_account_id"));
      r := Returned(());
    }

    method EnsureToken(now: int) returns (r: Call<()>)
      modifies this, session
      ensures Step(State(), session.sent, r)
           == EnsureTokenOutcome(conf, old(State()), old(session.sent), session.respond, now)
    {
      if !Truthy(accessToken) {
        r := Login();
        return;
      }
      var exp := Numeric(tokenExp);
      if exp.None? {
        return Raised(TypeError);
      }
      if exp.value - now as real < conf.tokenExpMargin as real {
        r := Login();
      } else {
        r := Returned(());
      }
    }

    method FetchYesterdayKwh(today: int) returns (r: Call<Option<Json>>)
      modifies this, session
      ensures Step(State(), session.sent, r)
           == FetchOutcome(conf, old(State()), old(session.sent), session.respond, today)
    {
      var reply := session.Send(CurveRequest(conf, accessToken, today));
      if IsForbidden(reply) {
        var login := Login();
        if login.Raised? {
          return Raised(login.error);
        }
        reply := session.Send(CurveRequest(conf, accessToken, today));
      }
      if reply.Failed? {
        return Raised(FaultError(reply.fault));
      }
      if reply.status != 200 {
        return Raised(UpdateFailed(CurveFetchFailed(reply.status)));
      }
      if reply.body.None? {
        return Raised(JsonDecodeError);
      }
      var curves := reply.body.value;
      var target := conf.isoDate(today - 1);
      if curves.JList? {
        r := FindYesterday(curves.items, target);
      } else {
        r := NonListLookup(curves);
      }
    }

    method AsyncUpdateData(now: int, today: int) returns (r: Call<Json>)
      modifies this, session
      ensures Step(State(), session.sent, r)
           == UpdateOutcome(conf, old(State()), old(session.sent), session.respond, now, today)
    {
      var ensured := EnsureToken(now);
      if ensured.Raised? {
        return Raised(ensured.error);
      }
      var yesterday := FetchYesterdayKwh(today);
      if yesterday.Raised? {
        return Raised(yesterday.error);
      }
      if yesterday.value.None? {
        return Raised(UpdateFailed(NoDataForYesterday));
      }
      r := Returned(yesterday.value.value);
    }
  }
}
