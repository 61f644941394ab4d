/** The unit tests of the client, each as a statement about the model: the
    service is mocked by a transport that answers only the routes a test
    registers, and the clock reading is a parameter. */
module Scenarios {
  import opened Wrappers
  import opened Query
  import opened Tokens
  import opened Http
  import opened Configurine

  /** The options every test constructs its client with. */
  const TestOptions: ClientOptions :=
    ClientOptions("http://127.0.0.1:8080", "fnord", "a1c1f962-bc57-4109-8d49-bee9f562b321")

  /** The structured 404 body the service is mocked with. */
  const NotFoundError: Json :=
    JObject(map["code" := JNumber(404), "error" := JString("Not Found"),
                "message" := JString("Config entry not found")])

  /** The mocked routes, broken where the filter values stand. */
  const PlainRoute: string := "/config?isActive=true&names=" + "loglevel"
  const FilteredRoute: string :=
    "/config?isActive=true&names=" + "loglevel"
    + "&associations=" + ("application%7C" + "myapp" + "%7C" + "1.0.0")
    + "&associations=" + ("environment%7C" + "production")

  const Filters: Option<Associations> :=
    Some(Associations([Application("myapp", "1.0.0")], ["production"]))

  /** The token endpoint's reply: a JSON object whose `access_token` is the mocked token. */
  function TokenGrant(now: nat): Response
  {
    Response(200, JsonBody(JObject(map["access_token" := JString(MockToken(now))])))
  }

  /** A 200 reply carrying the given entries. */
  function Entries(entries: seq<Json>): Response
  {
    Response(200, JsonBody(JArray(entries)))
  }

  /** A mocked service on the test host: `token` answers the token request,
      `config` answers a configuration request for exactly `route`; any
      other request gets no reply. */
  function Mock(token: Option<Response>, route: string, config: Option<Response>): Transport
  {
    (r: Request) =>
      match r
      case TokenRequest(host, _, _) => if host == TestOptions.host then token else None
      case ConfigRequest(host, target, _) =>
        if host == TestOptions.host && target == route then config else None
  }

  lemma GrantedToken(now: nat)
    ensures ParseToken(MockToken(now)).Some?
    ensures TokenOutcome(Some(TokenGrant(now))) == Success(ParseToken(MockToken(now)).value)
    ensures ParseToken(MockToken(now)).value.value == MockToken(now)
    ensures Usable(ParseToken(MockToken(now)).value, now + 200)
  {
    MockTokenUsable(now);
    var m := map["access_token" := JString(MockToken(now))];
    assert "access_token" in m && m["access_token"] == JString(MockToken(now));
  }

  /** Getting `loglevel` on a new client: one token request, then the
      configuration request for exactly the plain route; the result is the
      served array itself and there is no error. */
  lemma GetsConfigByName(now: nat, entry: Json)
    ensures var trace := Call(TestOptions, None, now, "loglevel", None,
                              Mock(Some(TokenGrant(now)), PlainRoute, Some(Entries([entry]))));
      && trace.sent == [TokenCall(TestOptions), ConfigRequest(TestOptions.host, PlainRoute, MockToken(now))]
      && trace.outcome == Success([entry])
      && CallbackArgs(trace.outcome) == (None, Some([entry]))
  {
    GrantedToken(now);
    ExampleTargets();
  }

  /** The same with one application and one environment filter: the
      configuration request is for exactly the filtered route. */
  lemma GetsConfigByNameAndAssociations(now: nat, entry: Json)
    ensures var trace := Call(TestOptions, None, now, "loglevel", Filters,
                              Mock(Some(TokenGrant(now)), FilteredRoute, Some(Entries([entry]))));
      && trace.sent == [TokenCall(TestOptions), ConfigRequest(TestOptions.host, FilteredRoute, MockToken(now))]
      && trace.outcome == Success([entry])
      && CallbackArgs(trace.outcome) == (None, Some([entry]))
  {
    GrantedToken(now);
    ExampleTargets();
  }

  /** A structured 404 from the configuration endpoint: an error, no result. */
  lemma ConfigNotFound(now: nat)
    ensures var trace := Call(TestOptions, None, now, "loglevel", None,
                              Mock(Some(TokenGrant(now)), PlainRoute, Some(Response(404, JsonBody(NotFoundError)))));
      && |trace.sent| == 2
      && trace.outcome == Failure(ConfigRejected(404, JsonBody(NotFoundError)))
      && CallbackArgs(trace.outcome).0.Some? && CallbackArgs(trace.outcome).1.None?
  {
    GrantedToken(now);
    ExampleTargets();
  }

  /** A 500 with a text body from the configuration endpoint: an error, no result. */
  lemma ConfigUnexpectedError(now: nat)
    ensures var trace := Call(TestOptions, None, now, "loglevel", None,
                              Mock(Some(TokenGrant(now)), PlainRoute, Some(Response(500, TextBody("Internal Sever Error")))));
      && |trace.sent| == 2
      && trace.outcome == Failure(ConfigRejected(500, TextBody("Internal Sever Error")))
      && CallbackArgs(trace.outcome).0.Some? && CallbackArgs(trace.outcome).1.None?
  {
    GrantedToken(now);
    ExampleTargets();
  }

  /** A structured 404 from the token endpoint: an error, no result, and no
      configuration request at all (none is mocked). */
  lemma TokenNotFound(now: nat)
    ensures var trace := Call(TestOptions, None, now, "loglevel", None,
                              Mock(Some(Response(404, JsonBody(NotFoundError))), PlainRoute, None));
      && trace.sent == [TokenCall(TestOptions)]
      && trace.outcome == Failure(AuthRejected(404, JsonBody(NotFoundError)))
      && CallbackArgs(trace.outcome).0.Some? && CallbackArgs(trace.outcome).1.None?
  {
  }

  /** A 404 with a text body from the token endpoint: the same error path. */
  lemma TokenUnexpectedError(now: nat)
    ensures var trace := Call(TestOptions, None, now, "loglevel", None,
                              Mock(Some(Response(404, TextBody("Internal Server Error"))), PlainRoute, None));
      && trace.sent == [TokenCall(TestOptions)]
      && trace.outcome == Failure(AuthRejected(404, TextBody("Internal Server Error")))
      && CallbackArgs(trace.outcome).0.Some? && CallbackArgs(trace.outcome).1.None?
  {
  }

  /** The two calls of the cached-token test, as traces: the second call,
      200 milliseconds later with only the configuration route mocked, sends
      just the configuration request with the token the first call cached. */
  lemma CachedTokenTraces(now: nat, entry: Json)
    ensures var first := Call(TestOptions, None, now, "loglevel", None,
                              Mock(Some(TokenGrant(now)), PlainRoute, Some(Entries([entry]))));
      var second := Call(TestOptions, first.cached, now + 200, "loglevel", None,
                         Mock(None, PlainRoute, Some(Entries([entry]))));
      && first.sent == [TokenCall(TestOptions), ConfigRequest(TestOptions.host, PlainRoute, MockToken(now))]
      && second.sent == [ConfigRequest(TestOptions.host, PlainRoute, MockToken(now))]
      && first.outcome == Success([entry]) && second.outcome == Success([entry])
      && TokenRequests(first.sent + second.sent) == 1
  {
    GrantedToken(now);
    ExampleTargets();
    GetsConfigByName(now, entry);
    SecondCallReusesToken(TestOptions, now, now + 200,
                          "loglevel", None, Mock(Some(TokenGrant(now)), PlainRoute, Some(Entries([entry]))),
                          "loglevel", None, Mock(None, PlainRoute, Some(Entries([entry]))));
  }

  /** Two calls on one client object, the second 200 milliseconds later with
      only the configuration route mocked: both return the served array, and
      the client has sent exactly one token request. */
  method UsesCachedToken(now: nat, entry: Json) returns (first: Outcome, second: Outcome, sent: seq<Request>)
    ensures first == Success([entry]) && second == Success([entry])
    ensures sent == [TokenCall(TestOptions),
                     ConfigRequest(TestOptions.host, PlainRoute, MockToken(now)),
                     ConfigRequest(TestOptions.host, PlainRoute, MockToken(now))]
    ensures TokenRequests(sent) == 1
  {
    var withToken := Mock(Some(TokenGrant(now)), PlainRoute, Some(Entries([entry])));
    var configOnly := Mock(None, PlainRoute, Some(Entries([entry])));
    CachedTokenTraces(now, entry);
    var client := new Client(TestOptions);
    first := client.GetConfigByName("loglevel", None, now, withToken);
    second := client.GetConfigByName("loglevel", None, now + 200, configOnly);
    sent := client.sent;
  }
}
