/** The client facade: one `getConfigByName` call ensures a usable token
    (reusing the cached one, or asking the token endpoint), then asks the
    configuration endpoint, and ends with exactly one of an error or a result. */
module Configurine {
  import opened Wrappers
  import opened Query
  import opened Tokens
  import opened Http

  /** Connection and identity settings, fixed for a client's lifetime. */
  datatype ClientOptions = ClientOptions(host: string, clientId: string, sharedKey: string)

  /** Why a call failed. */
  datatype ClientError =
      /** The token endpoint answered with a status other than 200. */
    | AuthRejected(status: int, body: Body)
      /** The token endpoint gave no answer. */
    | AuthUnreachable
      /** The token endpoint answered 200 without a readable `access_token`. */
    | MalformedToken(body: Body)
      /** The configuration endpoint answered with a status other than 200. */
    | ConfigRejected(status: int, body: Body)
      /** The configuration endpoint gave no answer. */
    | ConfigUnreachable
      /** The configuration endpoint answered 200 with something other than an array. */
    | MalformedConfig(body: Body)

  predicate IsAuthError(e: ClientError)
  {
    e.AuthRejected? || e.AuthUnreachable? || e.MalformedToken?
  }

  /** The outcome of a call: the entries the service returned, or an error. */
  type Outcome = Result<seq<Json>, ClientError>

  /** The `access_token` member of a JSON object body, when it is a string. */
  function AccessTokenField(body: Body): Option<string>
  {
    match body
    case JsonBody(JObject(m)) =>
      if "access_token" in m && m["access_token"].JString? then Some(m["access_token"].s) else None
    case _ => None
  }

  /** The token a 200 reply of the token endpoint carries, if it carries one. */
  function TokenOf(body: Body): Option<AccessToken>
  {
    match AccessTokenField(body)
    case Some(s) => ParseToken(s)
    case None => None
  }

  /** Token acquisition: what the reply of the token endpoint means. */
  function TokenOutcome(reply: Option<Response>): (r: Result<AccessToken, ClientError>)
    ensures r.Failure? ==> IsAuthError(r.error)
    ensures r.Success? ==> reply.Some? && reply.value.status == 200 && TokenOf(reply.value.body) == Some(r.value)
    ensures reply.Some? && reply.value.status == 200 && TokenOf(reply.value.body).Some? ==>
              r == Success(TokenOf(reply.value.body).value)
    ensures reply.Some? && reply.value.status != 200 ==>
              r == Failure(AuthRejected(reply.value.status, reply.value.body))
  {
    match reply
    case None => Failure(AuthUnreachable)
    case Some(Response(status, body)) =>
      if status != 200 then Failure(AuthRejected(status, body))
      else match TokenOf(body)
        case Some(t) => Success(t)
        case None => Failure(MalformedToken(body))
  }

  /** The configuration request: what the reply of the configuration endpoint means. */
  function ConfigOutcome(reply: Option<Response>): (r: Outcome)
    ensures r.Failure? ==> !IsAuthError(r.error)
    ensures r.Success? ==> reply == Some(Response(200, JsonBody(JArray(r.value))))
    ensures reply.Some? && reply.value.status == 200 && reply.value.body.JsonBody? && reply.value.body.json.JArray? ==>
              r == Success(reply.value.body.json.items)
    ensures reply.Some? && reply.value.status != 200 ==>
              r == Failure(ConfigRejected(reply.value.status, reply.value.body))
  {
    match reply
    case None => Failure(ConfigUnreachable)
    case Some(Response(status, body)) =>
      if status != 200 then Failure(ConfigRejected(status, body))
      else match body
        case JsonBody(JArray(entries)) => Success(entries)
        case _ => Failure(MalformedConfig(body))
  }

  /** What one call does: the requests it sends in order, the token cached
      afterwards, and its outcome. */
  datatype Trace = Trace(sent: seq<Request>, cached: Option<AccessToken>, outcome: Outcome)

  function ConfigCall(opts: ClientOptions, t: AccessToken, name: string,
                      assoc: Option<Associations>): Request
  {
    ConfigRequest(opts.host, ConfigTarget(name, assoc), t.value)
  }

  function TokenCall(opts: ClientOptions): Request
  {
    TokenRequest(opts.host, opts.clientId, opts.sharedKey)
  }

  /** One `getConfigByName` call, from the cached token, the clock, the
      arguments and the transport. */
  function Call(opts: ClientOptions, cached: Option<AccessToken>, now: int, name: string,
                assoc: Option<Associations>, transport: Transport): (r: Trace)
    ensures 1 <= |r.sent| <= 2
    ensures r.cached != cached ==> r.sent[0] == TokenCall(opts) && r.cached.Some?
    ensures r.sent[|r.sent| - 1].TokenRequest? <==> r.outcome.Failure? && IsAuthError(r.outcome.error)
  {
    match CurrentToken(cached, now)
    case Some(t) =>
      var req := ConfigCall(opts, t, name, assoc);
      Trace([req], cached, ConfigOutcome(transport(req)))
    case None =>
      match TokenOutcome(transport(TokenCall(opts)))
      case Failure(e) => Trace([TokenCall(opts)], cached, Failure(e))
      case Success(t) =>
        var req := ConfigCall(opts, t, name, assoc);
        Trace([TokenCall(opts), req], Some(t), ConfigOutcome(transport(req)))
  }

  /** The arguments the caller's callback receives: `(err, result)`. */
  function CallbackArgs(r: Outcome): (args: (Option<ClientError>, Option<seq<Json>>))
    ensures args.0.Some? != args.1.Some?
    ensures args.0.Some? <==> r.Failure?
    ensures r.Failure? ==> args.0 == Some(r.error)
    ensures r.Success? ==> args.1 == Some(r.value)
  {
    match r
    case Success(entries) => (None, Some(entries))
    case Failure(e) => (Some(e), None)
  }

  /** The number of token requests in a request log. */
  function TokenRequests(log: seq<Request>): nat
  {
    if log == [] then 0
    else (if log[0].TokenRequest? then 1 else 0) + TokenRequests(log[1..])
  }

  lemma {:induction false} TokenRequestsAppend(a: seq<Request>, b: seq<Request>)
    ensures TokenRequests(a + b) == TokenRequests(a) + TokenRequests(b)
    decreases |a|
  {
    if a == [] {
      assert a + b == b;
    } else {
      assert (a + b)[0] == a[0];
      assert (a + b)[1..] == a[1..] + b;
      TokenRequestsAppend(a[1..], b);
    }
  }

  /** Without a usable cached token (none yet, or expired), a call asks the
      token endpoint first and exactly once; when that succeeds it asks for
      the configuration with the new token and caches that token. */
  lemma AuthenticatesWithoutUsableToken(opts: ClientOptions, cached: Option<AccessToken>, now: int,
                                        name: string, assoc: Option<Associations>, transport: Transport)
    requires cached.None? || !Usable(cached.value, now)
    ensures var trace := Call(opts, cached, now, name, assoc, transport);
      && 1 <= |trace.sent| <= 2
      && trace.sent[0] == TokenCall(opts)
      && TokenRequests(trace.sent) == 1
      && var acquired := TokenOutcome(transport(TokenCall(opts)));
         (acquired.Success? ==>
            && trace.sent == [TokenCall(opts), ConfigCall(opts, acquired.value, name, assoc)]
            && trace.cached == Some(acquired.value))
  {
    var trace := Call(opts, cached, now, name, assoc, transport);
    var rest := trace.sent[1..];
    if |trace.sent| == 2 {
      assert rest == [trace.sent[1]] && rest[1..] == [];
      assert !rest[0].TokenRequest?;
      assert TokenRequests(rest) == TokenRequests(rest[1..]) == 0;
    } else {
      assert rest == [];
    }
  }

  /** With a usable cached token, a call sends only the configuration request,
      with that token, and keeps the cache as it was. */
  lemma ReusesUsableToken(opts: ClientOptions, t: AccessToken, now: int,
                          name: string, assoc: Option<Associations>, transport: Transport)
    requires Usable(t, now)
    ensures var trace := Call(opts, Some(t), now, name, assoc, transport);
      && trace.sent == [ConfigCall(opts, t, name, assoc)]
      && TokenRequests(trace.sent) == 0
      && trace.cached == Some(t)
  {
    var trace := Call(opts, Some(t), now, name, assoc, transport);
    assert trace.sent[1..] == [];
  }

  /** When the token endpoint does not give a token, the call ends with that
      authentication error, sends no configuration request, and leaves the
      cache as it was. */
  lemma TokenFailureEndsCall(opts: ClientOptions, cached: Option<AccessToken>, now: int,
                             name: string, assoc: Option<Associations>, transport: Transport)
    requires cached.None? || !Usable(cached.value, now)
    requires TokenOutcome(transport(TokenCall(opts))).Failure?
    ensures var trace := Call(opts, cached, now, name, assoc, transport);
      && trace.sent == [TokenCall(opts)]
      && trace.cached == cached
      && trace.outcome == Failure(TokenOutcome(transport(TokenCall(opts))).error)
      && IsAuthError(trace.outcome.error)
  {
  }

  /** The last request of a call decides its outcome: after a configuration
      request the outcome is what its reply means; a call that stops after
      the token request ends with an authentication error. */
  lemma LastRequestDecidesOutcome(opts: ClientOptions, cached: Option<AccessToken>, now: int,
                                  name: string, assoc: Option<Associations>, transport: Transport)
    ensures var trace := Call(opts, cached, now, name, assoc, transport);
      && |trace.sent| >= 1
      && var last := trace.sent[|trace.sent| - 1];
         && (last.ConfigRequest? ==>
               && trace.cached.Some?
               && last == ConfigCall(opts, trace.cached.value, name, assoc)
               && trace.outcome == ConfigOutcome(transport(last)))
         && (last.TokenRequest? ==> trace.outcome.Failure? && IsAuthError(trace.outcome.error))
  {
  }

  /** Two calls on one client: once the first call has acquired a token
      that is still usable at the second call's clock reading, the second
      call (whatever name or filters it asks for) sends no token request, so
      the two together send exactly one. */
  lemma {:induction false} SecondCallReusesToken(
    opts: ClientOptions, now1: int, now2: int,
    name1: string, assoc1: Option<Associations>, transport1: Transport,
    name2: string, assoc2: Option<Associations>, transport2: Transport)
    requires TokenOutcome(transport1(TokenCall(opts))).Success?
    requires Usable(TokenOutcome(transport1(TokenCall(opts))).value, now2)
    ensures var first := Call(opts, None, now1, name1, assoc1, transport1);
      var second := Call(opts, first.cached, now2, name2, assoc2, transport2);
      var t := TokenOutcome(transport1(TokenCall(opts))).value;
      && second.sent == [ConfigCall(opts, t, name2, assoc2)]
      && second.cached == Some(t)
      && TokenRequests(first.sent + second.sent) == 1
  {
    var first := Call(opts, None, now1, name1, assoc1, transport1);
    var t := TokenOutcome(transport1(TokenCall(opts))).value;
    AuthenticatesWithoutUsableToken(opts, None, now1, name1, assoc1, transport1);
    ReusesUsableToken(opts, t, now2, name2, assoc2, transport2);
    TokenRequestsAppend(first.sent, Call(opts, first.cached, now2, name2, assoc2, transport2).sent);
  }

  /** A client owns its options, at most one cached token, and the log of
      every request it has sent, oldest first. */
  class Client {
    const options: ClientOptions
    var token: Option<AccessToken>
    var sent: seq<Request>

    constructor (options: ClientOptions)
      ensures this.options == options && token == None && sent == []
    {
      this.options := options;
      token := None;
      sent := [];
    }

    /** Retrieves the entries named `name`, narrowed by `assoc`, at clock
        reading `now`, over `transport`. */
    method GetConfigByName(name: string, assoc: Option<Associations>, now: int,
                           transport: Transport) returns (outcome: Outcome)
      modifies this
      ensures var trace := Call(options, old(token), now, name, assoc, transport);
        && sent == old(sent) + trace.sent
        && token == trace.cached
        && outcome == trace.outcome
    {
      var bearer: AccessToken;
      var current := CurrentToken(token, now);
      if current.Some? {
        bearer := current.value;
      } else {
        var tokenRequest := TokenCall(options);
        sent := sent + [tokenRequest];
        var acquired := TokenOutcome(transport(tokenRequest));
        if acquired.Failure? {
          return Failure(acquired.error);
        }
        bearer := acquired.value;
        token := Some(bearer);
      }
      var configRequest := ConfigCall(options, bearer, name, assoc);
      sent := sent + [configRequest];
      outcome := ConfigOutcome(transport(configRequest));
    }
  }
}
