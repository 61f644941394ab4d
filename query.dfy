/** The request target of a configuration lookup: the mandatory parameters,
    the association filters in their fixed order, and the escaping of `|`.
    A decoder, which reads `%7C` back as `|` and splits on `&`, `=` and `|`,
    is given beside the encoder so that the encoding can be shown to be
    invertible on plain input. */
module Query {
  import opened Wrappers
  import opened Text

  /** An application filter: a name and a version. */
  datatype Application = Application(name: string, version: string)

  /** The `associations` option of one lookup; either list may be empty. */
  datatype Associations = Associations(applications: seq<Application>, environments: seq<string>)

  /** One association filter as it travels on the wire. */
  datatype Association = ForApplication(app: Application) | ForEnvironment(env: string)

  /** One `key=value` query parameter, before escaping. */
  datatype Param = Param(key: string, value: string)

  const ConfigPath: string := "/config?"

  /** The filters in wire order: every application in its given order,
      then every environment in its given order. */
  function ItemsOf(a: Option<Associations>): (xs: seq<Association>)
    ensures a.None? ==> xs == []
    ensures a.Some? ==> |xs| == |a.value.applications| + |a.value.environments|
    ensures a.Some? ==> forall i :: 0 <= i < |a.value.applications| ==>
              xs[i] == ForApplication(a.value.applications[i])
    ensures a.Some? ==> forall j :: 0 <= j < |a.value.environments| ==>
              xs[|a.value.applications| + j] == ForEnvironment(a.value.environments[j])
  {
    match a
    case None => []
    case Some(Associations(apps, envs)) =>
      seq(|apps|, i requires 0 <= i < |apps| => ForApplication(apps[i]))
      + seq(|envs|, j requires 0 <= j < |envs| => ForEnvironment(envs[j]))
  }

  /** The composite value of one filter, with `|` between its parts. */
  function AssociationValue(x: Association): string
  {
    match x
    case ForApplication(app) => "application" + "|" + app.name + "|" + app.version
    case ForEnvironment(env) => "environment" + "|" + env
  }

  /** One `associations` parameter per filter, in the order given. */
  function EncodeItems(xs: seq<Association>): seq<Param>
  {
    if xs == [] then []
    else [Param("associations", AssociationValue(xs[0]))] + EncodeItems(xs[1..])
  }

  function EncodeAssociations(a: Option<Associations>): seq<Param>
  {
    EncodeItems(ItemsOf(a))
  }

  /** The parameters of a lookup: `isActive=true`, `names=<name>`, then the filters. */
  function QueryParams(name: string, a: Option<Associations>): seq<Param>
  {
    [Param("isActive", "true"), Param("names", name)] + EncodeAssociations(a)
  }

  /** `|` written as `%7C`; every other character unchanged. (Text without
      `|` is returned at once; EscapeCons gives the character-wise reading.) */
  function Escape(s: string): (r: string)
    ensures '|' !in r
  {
    if '|' !in s then s
    else (if s[0] == '|' then "%7C" else [s[0]]) + Escape(s[1..])
  }

  lemma EscapeCons(s: string)
    requires s != []
    ensures Escape(s) == (if s[0] == '|' then "%7C" else [s[0]]) + Escape(s[1..])
  {
    if '|' !in s {
      assert '|' !in s[1..];
      assert [s[0]] + s[1..] == s;
    }
  }

  function RenderParam(p: Param): string
  {
    p.key + "=" + Escape(p.value)
  }

  function RenderAll(ps: seq<Param>): seq<string>
  {
    if ps == [] then [] else [RenderParam(ps[0])] + RenderAll(ps[1..])
  }

  /** The query string, parameters separated by `&`. */
  function RenderQuery(ps: seq<Param>): string
  {
    Join(RenderAll(ps), '&')
  }

  /** The path and query of the configuration lookup; no raw `|` is left in it. */
  function ConfigTarget(name: string, a: Option<Associations>): (t: string)
    ensures '|' !in t
  {
    assert '|' !in ConfigPath;
    NoPipeQuery(name, a);
    ConfigPath + RenderQuery(QueryParams(name, a))
  }

  /** Keys without `|` render, with escaped values, to parts without `|`. */
  lemma {:induction false} RenderAllNoPipe(ps: seq<Param>)
    requires forall i :: 0 <= i < |ps| ==> '|' !in ps[i].key
    ensures |RenderAll(ps)| == |ps|
    ensures forall i :: 0 <= i < |ps| ==> '|' !in RenderAll(ps)[i]
    decreases |ps|
  {
    if ps != [] {
      RenderAllNoPipe(ps[1..]);
      assert RenderAll(ps) == [RenderParam(ps[0])] + RenderAll(ps[1..]);
    }
  }

  /** The query of a lookup holds no raw `|`. */
  lemma NoPipeQuery(name: string, a: Option<Associations>)
    ensures '|' !in RenderQuery(QueryParams(name, a))
  {
    var ps := QueryParams(name, a);
    EncodeItemsAt(ItemsOf(a));
    assert '|' !in "isActive" && '|' !in "names" && '|' !in "associations";
    assert forall i :: 0 <= i < |ps| ==> '|' !in ps[i].key;
    RenderAllNoPipe(ps);
    JoinFree(RenderAll(ps), '&', '|');
  }

  // ---------------------------------------------------------------------
  // The reading side: a decoder that inverts the encoding.

  /** `%7C` read back as `|`. */
  function Unescape(s: string): string
    decreases |s|
  {
    if |s| >= 3 && s[..3] == "%7C" then "|" + Unescape(s[3..])
    else if s == [] then []
    else [s[0]] + Unescape(s[1..])
  }

  function ParseParam(s: string): Option<Param>
  {
    var f := Split(s, '=');
    if |f| == 2 then Some(Param(f[0], Unescape(f[1]))) else None
  }

  function ParseAll(parts: seq<string>): Option<seq<Param>>
  {
    if parts == [] then Some([])
    else match (ParseParam(parts[0]), ParseAll(parts[1..]))
      case (Some(p), Some(ps)) => Some([p] + ps)
      case _ => None
  }

  function ParseQuery(q: string): Option<seq<Param>>
  {
    ParseAll(Split(q, '&'))
  }

  function ParseTarget(t: string): Option<seq<Param>>
  {
    if |t| >= |ConfigPath| && t[..|ConfigPath|] == ConfigPath
    then ParseQuery(t[|ConfigPath|..]) else None
  }

  /** A filter read back from its composite value. */
  function ParseAssociation(v: string): Option<Association>
  {
    var f := Split(v, '|');
    if |f| == 3 && f[0] == "application" then Some(ForApplication(Application(f[1], f[2])))
    else if |f| == 2 && f[0] == "environment" then Some(ForEnvironment(f[1]))
    else None
  }

  /** The filters carried by a run of `associations` parameters. */
  function DecodeItems(ps: seq<Param>): Option<seq<Association>>
  {
    if ps == [] then Some([])
    else if ps[0].key != "associations" then None
    else match (ParseAssociation(ps[0].value), DecodeItems(ps[1..]))
      case (Some(x), Some(xs)) => Some([x] + xs)
      case _ => None
  }

  // ---------------------------------------------------------------------
  // Properties.

  /** Text that survives the query syntax unchanged: no `&`, `=` or `%`. */
  predicate Plain(s: string)
  {
    '&' !in s && '=' !in s && '%' !in s
  }

  /** Filters whose names, versions and environments are plain and hold no `|`. */
  predicate PlainFilters(a: Option<Associations>)
  {
    a.Some? ==>
      (forall i :: 0 <= i < |a.value.applications| ==>
         Plain(a.value.applications[i].name) && '|' !in a.value.applications[i].name &&
         Plain(a.value.applications[i].version) && '|' !in a.value.applications[i].version) &&
      (forall j :: 0 <= j < |a.value.environments| ==>
         Plain(a.value.environments[j]) && '|' !in a.value.environments[j])
  }

  /** The filters become `associations` parameters one for one, in order. */
  lemma {:induction false} EncodeItemsAt(xs: seq<Association>)
    ensures |EncodeItems(xs)| == |xs|
    ensures forall i :: 0 <= i < |xs| ==>
              EncodeItems(xs)[i] == Param("associations", AssociationValue(xs[i]))
    decreases |xs|
  {
    if xs != [] {
      EncodeItemsAt(xs[1..]);
    }
  }

  /** The parameter order of a lookup: `isActive=true`, `names=<name>`, then
      `associations=application|<name>|<version>` for each application in
      order, then `associations=environment|<env>` for each environment in order. */
  lemma QueryParamsOrder(name: string, a: Associations)
    ensures var ps := QueryParams(name, Some(a));
      && |ps| == 2 + |a.applications| + |a.environments|
      && ps[0] == Param("isActive", "true")
      && ps[1] == Param("names", name)
      && (forall i :: 0 <= i < |a.applications| ==>
            ps[2 + i] == Param("associations",
              "application" + "|" + a.applications[i].name + "|" + a.applications[i].version))
      && (forall j :: 0 <= j < |a.environments| ==>
            ps[2 + |a.applications| + j] == Param("associations", "environment" + "|" + a.environments[j]))
  {
    EncodeItemsAt(ItemsOf(Some(a)));
  }

  /** The tail of a target after `names`: `&associations=<escaped value>`
      for each filter, in order. */
  function AssociationsSuffix(xs: seq<Association>): string
  {
    if xs == [] then ""
    else "&associations=" + Escape(AssociationValue(xs[0])) + AssociationsSuffix(xs[1..])
  }

  /** The shape of every target: the path, `isActive=true`, `names=<name>`
      and then one escaped `associations` parameter per filter in wire order. */
  lemma TargetShape(name: string, a: Option<Associations>)
    ensures ConfigTarget(name, a)
      == "/config?isActive=true&names=" + Escape(name) + AssociationsSuffix(ItemsOf(a))
  {
    var xs := ItemsOf(a);
    var p1, p2 := Param("isActive", "true"), Param("names", name);
    assert QueryParams(name, a) == [p1] + ([p2] + EncodeItems(xs));
    RenderQueryCons(p1, [p2] + EncodeItems(xs));
    RenderQueryTail(p2, xs);
    UnescapedTrue();
    MandatoryPrefix(Escape(name), AssociationsSuffix(xs));
  }

  lemma MandatoryPrefix(e: string, tail: string)
    ensures "/config?" + ("isActive" + "=" + "true" + "&" + ("names" + "=" + e + tail))
        == "/config?isActive=true&names=" + e + tail
  {
  }

  /** A query is its first parameter, then `&` and the rest. */
  lemma RenderQueryCons(p: Param, ps: seq<Param>)
    ensures RenderQuery([p] + ps) ==
      if ps == [] then RenderParam(p) else RenderParam(p) + "&" + RenderQuery(ps)
  {
    assert ([p] + ps)[1..] == ps;
    assert RenderAll([p] + ps) == [RenderParam(p)] + RenderAll(ps);
    assert ps != [] ==> RenderAll(ps) != [];
    assert ([RenderParam(p)] + RenderAll(ps))[1..] == RenderAll(ps);
  }

  lemma {:induction false} RenderQueryTail(p: Param, xs: seq<Association>)
    ensures RenderQuery([p] + EncodeItems(xs)) == RenderParam(p) + AssociationsSuffix(xs)
    decreases |xs|
  {
    RenderQueryCons(p, EncodeItems(xs));
    if xs == [] {
      assert RenderParam(p) + "" == RenderParam(p);
    } else {
      var q := Param("associations", AssociationValue(xs[0]));
      assert EncodeItems(xs) == [q] + EncodeItems(xs[1..]);
      RenderQueryTail(q, xs[1..]);
      AssociativeParts(RenderParam(p), Escape(AssociationValue(xs[0])), AssociationsSuffix(xs[1..]));
    }
  }

  lemma AssociativeParts(r: string, v: string, rest: string)
    ensures r + "&" + ("associations" + "=" + v + rest) == r + ("&associations=" + v + rest)
  {
  }

  /** Without filters, or with two empty lists, the target carries only the
      mandatory parameters. */
  lemma NoFilterTarget(name: string)
    ensures ConfigTarget(name, None) == "/config?isActive=true&names=" + Escape(name)
    ensures ConfigTarget(name, Some(Associations([], []))) == ConfigTarget(name, None)
  {
    TargetShape(name, None);
    TargetShape(name, Some(Associations([], [])));
    assert ItemsOf(Some(Associations([], []))) == [];
    assert "/config?isActive=true&names=" + Escape(name) + "" == "/config?isActive=true&names=" + Escape(name);
  }

  lemma {:induction false} EscapeAppend(s: string, t: string)
    ensures Escape(s + t) == Escape(s) + Escape(t)
    decreases |s|
  {
    if s == [] {
      assert s + t == t;
    } else {
      var head := if s[0] == '|' then "%7C" else [s[0]];
      assert (s + t)[0] == s[0];
      assert (s + t)[1..] == s[1..] + t;
      EscapeCons(s);
      EscapeCons(s + t);
      EscapeAppend(s[1..], t);
      assert Escape(s + t) == head + (Escape(s[1..]) + Escape(t));
      assert head + (Escape(s[1..]) + Escape(t)) == (head + Escape(s[1..])) + Escape(t);
    }
  }

  lemma PipeEscape()
    ensures Escape("|") == "%7C"
  {
    assert "|"[1..] == [];
  }

  // Literals without `|` escape to themselves (one per lemma keeps each proof small).
  lemma UnescapedApplication() ensures Escape("application") == "application" { assert '|' !in "application"; }
  lemma UnescapedEnvironment() ensures Escape("environment") == "environment" { assert '|' !in "environment"; }
  lemma UnescapedTrue() ensures Escape("true") == "true" { assert '|' !in "true"; }

  /** The escaped composite value of an application filter. */
  lemma EscapedApplication(app: Application)
    ensures Escape(AssociationValue(ForApplication(app)))
      == "application%7C" + Escape(app.name) + "%7C" + Escape(app.version)
  {
    EscapeAppend("application" + "|" + app.name + "|", app.version);
    EscapeAppend("application" + "|" + app.name, "|");
    EscapeAppend("application" + "|", app.name);
    EscapeAppend("application", "|");
    UnescapedApplication();
    PipeEscape();
    TagLiteral("application", "application%7C", Escape(app.name) + "%7C" + Escape(app.version));
  }

  /** The escaped composite value of an environment filter. */
  lemma EscapedEnvironment(env: string)
    ensures Escape(AssociationValue(ForEnvironment(env))) == "environment%7C" + Escape(env)
  {
    EscapeAppend("environment" + "|", env);
    EscapeAppend("environment", "|");
    UnescapedEnvironment();
    PipeEscape();
    TagLiteral("environment", "environment%7C", Escape(env));
  }

  lemma TagLiteral(tag: string, escaped: string, rest: string)
    requires escaped == tag + "%7C"
    ensures tag + "%7C" + rest == escaped + rest
  {
  }

  /** With one application and one environment, all free of `|`, the target
      in full. */
  lemma OneOfEachTarget(name: string, app: Application, env: string)
    requires '|' !in name && '|' !in app.name && '|' !in app.version && '|' !in env
    ensures ConfigTarget(name, None) == "/config?isActive=true&names=" + name
    ensures ConfigTarget(name, Some(Associations([app], [env])))
      == "/config?isActive=true&names=" + name
       + "&associations=" + ("application%7C" + app.name + "%7C" + app.version)
       + "&associations=" + ("environment%7C" + env)
  {
    NoFilterTarget(name);
    var a := Some(Associations([app], [env]));
    TargetShape(name, a);
    assert ItemsOf(a) == [ForApplication(app), ForEnvironment(env)];
    OneOfEachSuffix(app, env);
    SuffixLiterals(name, "application%7C" + app.name + "%7C" + app.version, "environment%7C" + env);
  }

  lemma OneOfEachSuffix(app: Application, env: string)
    requires '|' !in app.name && '|' !in app.version && '|' !in env
    ensures AssociationsSuffix([ForApplication(app), ForEnvironment(env)])
      == "&associations=" + ("application%7C" + app.name + "%7C" + app.version)
       + ("&associations=" + ("environment%7C" + env) + "")
  {
    var xs := [ForApplication(app), ForEnvironment(env)];
    assert xs[1..] == [ForEnvironment(env)] && xs[1..][1..] == [];
    assert Escape(app.name) == app.name && Escape(app.version) == app.version && Escape(env) == env;
    EscapedApplication(app);
    EscapedEnvironment(env);
    assert AssociationsSuffix(xs[1..]) == "&associations=" + ("environment%7C" + env) + AssociationsSuffix([]);
  }

  lemma SuffixLiterals(name: string, ea: string, ee: string)
    ensures "/config?isActive=true&names=" + name + ("&associations=" + ea + ("&associations=" + ee + ""))
      == "/config?isActive=true&names=" + name + "&associations=" + ea + "&associations=" + ee
  {
  }

  /** The two targets the service is mocked with, exactly (each string is
      broken only where the mocked text has a filter value). */
  lemma ExampleTargets()
    ensures ConfigTarget("loglevel", None) == "/config?isActive=true&names=" + "loglevel"
    ensures ConfigTarget("loglevel",
              Some(Associations([Application("myapp", "1.0.0")], ["production"])))
      == "/config?isActive=true&names=" + "loglevel"
       + "&associations=" + ("application%7C" + "myapp" + "%7C" + "1.0.0")
       + "&associations=" + ("environment%7C" + "production")
  {
    assert '|' !in "loglevel" && '|' !in "myapp" && '|' !in "1.0.0" && '|' !in "production";
    OneOfEachTarget("loglevel", Application("myapp", "1.0.0"), "production");
  }

  /** Escaping introduces only `%`, `7` and `C`. */
  lemma {:induction false} EscapeFree(s: string, c: char)
    requires c !in s && c != '%' && c != '7' && c != 'C'
    ensures c !in Escape(s)
    decreases |s|
  {
    if s != [] {
      EscapeCons(s);
      EscapeFree(s[1..], c);
    }
  }

  /** Unescaping undoes escaping for text without `%`. */
  lemma {:induction false} UnescapeEscape(s: string)
    requires '%' !in s
    ensures Unescape(Escape(s)) == s
    decreases |s|
  {
    if s != [] {
      EscapeCons(s);
      var rest := Escape(s[1..]);
      UnescapeEscape(s[1..]);
      if s[0] == '|' {
        var e := "%7C" + rest;
        assert e[..3] == "%7C" && e[3..] == rest;
      } else {
        var e := [s[0]] + rest;
        assert e[0] == s[0] && e[1..] == rest;
      }
      assert [s[0]] + s[1..] == s;
    }
  }

  lemma ParamRoundTrip(p: Param)
    requires Plain(p.key) && Plain(p.value)
    ensures ParseParam(RenderParam(p)) == Some(p)
    ensures '&' !in RenderParam(p)
  {
    EscapeFree(p.value, '=');
    EscapeFree(p.value, '&');
    assert RenderParam(p) == Join([p.key, Escape(p.value)], '=');
    SplitJoin([p.key, Escape(p.value)], '=');
    UnescapeEscape(p.value);
  }

  lemma {:induction false} ParseAllRenderAll(ps: seq<Param>)
    requires forall i :: 0 <= i < |ps| ==> Plain(ps[i].key) && Plain(ps[i].value)
    ensures |RenderAll(ps)| == |ps|
    ensures forall i :: 0 <= i < |ps| ==> '&' !in RenderAll(ps)[i]
    ensures ParseAll(RenderAll(ps)) == Some(ps)
    decreases |ps|
  {
    if ps != [] {
      ParamRoundTrip(ps[0]);
      ParseAllRenderAll(ps[1..]);
      var r := RenderAll(ps);
      assert r[1..] == RenderAll(ps[1..]);
      assert [ps[0]] + ps[1..] == ps;
    }
  }

  /** Reading a rendered query gives back its parameters, in order. */
  lemma QueryRoundTrip(ps: seq<Param>)
    requires |ps| >= 1
    requires forall i :: 0 <= i < |ps| ==> Plain(ps[i].key) && Plain(ps[i].value)
    ensures ParseQuery(RenderQuery(ps)) == Some(ps)
  {
    ParseAllRenderAll(ps);
    SplitJoin(RenderAll(ps), '&');
  }

  /** A filter is read back from its composite value. */
  lemma AssociationRoundTrip(x: Association)
    requires x.ForApplication? ==> '|' !in x.app.name && '|' !in x.app.version
    requires x.ForEnvironment? ==> '|' !in x.env
    ensures ParseAssociation(AssociationValue(x)) == Some(x)
  {
    match x
    case ForApplication(app) =>
      JoinThree("application", app.name, app.version, '|');
      SplitJoin(["application", app.name, app.version], '|');
    case ForEnvironment(env) =>
      JoinTwo("environment", env, '|');
      SplitJoin(["environment", env], '|');
  }

  lemma {:induction false} DecodeEncodeItems(xs: seq<Association>)
    requires forall i :: 0 <= i < |xs| ==>
      (xs[i].ForApplication? ==> '|' !in xs[i].app.name && '|' !in xs[i].app.version) &&
      (xs[i].ForEnvironment? ==> '|' !in xs[i].env)
    ensures DecodeItems(EncodeItems(xs)) == Some(xs)
    decreases |xs|
  {
    if xs != [] {
      AssociationRoundTrip(xs[0]);
      DecodeEncodeItems(xs[1..]);
      assert EncodeItems(xs)[1..] == EncodeItems(xs[1..]);
      assert [xs[0]] + xs[1..] == xs;
    }
  }

  /** The composite value of a plain filter is plain. */
  lemma PlainAssociationValue(x: Association)
    requires x.ForApplication? ==> Plain(x.app.name) && Plain(x.app.version)
    requires x.ForEnvironment? ==> Plain(x.env)
    ensures Plain(AssociationValue(x))
  {
    match x
    case ForApplication(app) =>
      JoinThree("application", app.name, app.version, '|');
      JoinFree(["application", app.name, app.version], '|', '&');
      JoinFree(["application", app.name, app.version], '|', '=');
      JoinFree(["application", app.name, app.version], '|', '%');
    case ForEnvironment(env) =>
      JoinTwo("environment", env, '|');
      JoinFree(["environment", env], '|', '&');
      JoinFree(["environment", env], '|', '=');
      JoinFree(["environment", env], '|', '%');
  }

  lemma PlainKeys()
    ensures Plain("isActive") && Plain("true") && Plain("names") && Plain("associations")
  {
  }

  /** Every parameter of a lookup with plain name and filters is plain. */
  lemma PlainQueryParams(name: string, a: Option<Associations>)
    requires Plain(name) && PlainFilters(a)
    ensures forall i :: 0 <= i < |QueryParams(name, a)| ==>
      Plain(QueryParams(name, a)[i].key) && Plain(QueryParams(name, a)[i].value)
  {
    var xs := ItemsOf(a);
    var ps := QueryParams(name, a);
    var es := EncodeItems(xs);
    assert ps == [Param("isActive", "true"), Param("names", name)] + es;
    EncodeItemsAt(xs);
    PlainKeys();
    forall i | 0 <= i < |ps|
      ensures Plain(ps[i].key) && Plain(ps[i].value)
    {
      if i >= 2 {
        assert ps[i] == es[i - 2];
        PlainAssociationValue(xs[i - 2]);
      }
    }
  }

  /** The target of a lookup is decoded back into the name and every filter,
      applications before environments, each list in its given order. */
  lemma TargetRoundTrip(name: string, a: Option<Associations>)
    requires Plain(name) && PlainFilters(a)
    ensures var ps := ParseTarget(ConfigTarget(name, a));
      && ps.Some? && |ps.value| >= 2
      && ps.value[0] == Param("isActive", "true")
      && ps.value[1] == Param("names", name)
      && DecodeItems(ps.value[2..]) == Some(ItemsOf(a))
  {
    var xs := ItemsOf(a);
    var ps := QueryParams(name, a);
    PlainQueryParams(name, a);
    QueryRoundTrip(ps);
    var t := ConfigTarget(name, a);
    assert t[..|ConfigPath|] == ConfigPath && t[|ConfigPath|..] == RenderQuery(ps);
    assert ps[2..] == EncodeItems(xs);
    DecodeEncodeItems(xs);
  }
}
