/** The route lists generated for a VirtualService, the meaning Istio gives them, and the proof
    that a generated list refines a declarative routing decision. */
module Routing {
  import opened Common
  import opened Names

  datatype Subpath = Subpath(path: string, serviceName: string, servicePort: int)

  datatype RouteConfig = RouteConfig(baseFlag: string, timeout: int)

  datatype StringMatch = Prefix(prefix: string) | Exact(exact: string)

  datatype HttpMatch = HttpMatch(uri: Option<StringMatch>, headers: map<string, StringMatch>,
                                 queryParams: map<string, StringMatch>, sourceLabels: StringMap)

  datatype Destination = Destination(host: string, subset: string)

  /** `other` stands for the fields of a route that only a hand edit fills in. */
  datatype HttpRoute = HttpRoute(destinations: seq<Destination>, matches: seq<HttpMatch>,
                                 setHeaders: StringMap, timeout: int, other: string)

  datatype Request = Request(path: string, headers: StringMap, query: StringMap, sourceLabels: StringMap)

  // ----- Istio's meaning of a route list -----

  predicate StringMatches(m: StringMatch, s: string) {
    match m
    case Prefix(p) => p <= s
    case Exact(e) => e == s
  }

  predicate AllMatch(ms: map<string, StringMatch>, values: StringMap) {
    forall k | k in ms :: k in values && StringMatches(ms[k], values[k])
  }

  /** The conditions inside one match block are AND'ed. */
  predicate BlockMatches(b: HttpMatch, req: Request) {
    && (b.uri.Some? ==> StringMatches(b.uri.value, req.path))
    && AllMatch(b.headers, req.headers)
    && AllMatch(b.queryParams, req.query)
    && forall k | k in b.sourceLabels :: HasLabel(req.sourceLabels, k, b.sourceLabels[k])
  }

  /** The match blocks of one route are OR'ed; a route without blocks matches everything. */
  predicate RouteMatches(r: HttpRoute, req: Request) {
    r.matches == [] || exists b | b in r.matches :: BlockMatches(b, req)
  }

  function FirstMatch(rules: seq<HttpRoute>, req: Request): Option<HttpRoute> {
    if rules == [] then None
    else if RouteMatches(rules[0], req) then Some(rules[0])
    else FirstMatch(rules[1..], req)
  }

  /** The route a request takes: the first of the list that matches it. */
  ghost predicate Takes(rules: seq<HttpRoute>, req: Request, r: HttpRoute) {
    exists i | 0 <= i < |rules| ::
      rules[i] == r && RouteMatches(r, req) && forall j | 0 <= j < i :: !RouteMatches(rules[j], req)
  }

  lemma {:induction false} FirstMatchIs(rules: seq<HttpRoute>, req: Request)
    ensures var r := FirstMatch(rules, req);
            if r.Some? then Takes(rules, req, r.value) else forall i | 0 <= i < |rules| :: !RouteMatches(rules[i], req)
  {
    if rules != [] {
      FirstMatchIs(rules[1..], req);
      assert forall i | 1 <= i < |rules| :: rules[1..][i - 1] == rules[i];
    }
  }

  lemma {:induction false} FirstMatchConcat(a: seq<HttpRoute>, b: seq<HttpRoute>, req: Request)
    ensures FirstMatch(a + b, req) == if FirstMatch(a, req).Some? then FirstMatch(a, req) else FirstMatch(b, req)
  {
    if a == [] {
      assert a + b == b;
    } else {
      assert (a + b)[1..] == a[1..] + b;
      FirstMatchConcat(a[1..], b, req);
    }
  }

  // ----- the generators -----

  function PathMatch(path: string): Option<StringMatch> {
    if path != "/" then Some(Prefix(path)) else None
  }

  function PlaneHttpRoute(host: string, plane: string, path: string, cfg: RouteConfig): HttpRoute {
    var exact := map[X_ENV_FLAG := Exact(plane)];
    HttpRoute(
      [Destination(host, SubsetName(host, plane))],
      [HttpMatch(PathMatch(path), exact, map[], map[]),
       HttpMatch(PathMatch(path), map[], exact, map[]),
       HttpMatch(PathMatch(path), map[], map[], map[PLANE_KEY := plane])],
      map[X_ENV_FLAG := plane], cfg.timeout, "")
  }

  function BaseHttpRoute(host: string, path: string, cfg: RouteConfig): HttpRoute {
    HttpRoute(
      [Destination(host, SubsetName(host, cfg.baseFlag))],
      if path != "/" then [HttpMatch(PathMatch(path), map[], map[], map[])] else [],
      map[], cfg.timeout, "")
  }

  /** The routes of one feature plane: one per subpath, then the application itself. */
  function PlaneRules(app: string, subpaths: seq<Subpath>, plane: string, cfg: RouteConfig): seq<HttpRoute> {
    if subpaths == [] then [PlaneHttpRoute(app, plane, "/", cfg)]
    else [PlaneHttpRoute(subpaths[0].serviceName, plane, subpaths[0].path, cfg)]
         + PlaneRules(app, subpaths[1..], plane, cfg)
  }

  /** The routes of the feature planes, in the order in which the plane map was ranged over. */
  function FeatureRules(app: string, subpaths: seq<Subpath>, order: seq<string>, cfg: RouteConfig): seq<HttpRoute> {
    if order == [] then []
    else PlaneRules(app, subpaths, order[0], cfg) + FeatureRules(app, subpaths, order[1..], cfg)
  }

  lemma {:induction false} FeatureRulesConcat(app: string, subpaths: seq<Subpath>, a: seq<string>, b: seq<string>,
                                             cfg: RouteConfig)
    ensures FeatureRules(app, subpaths, a + b, cfg)
         == FeatureRules(app, subpaths, a, cfg) + FeatureRules(app, subpaths, b, cfg)
  {
    if a == [] {
      assert a + b == b;
    } else {
      assert (a + b)[1..] == a[1..] + b;
      FeatureRulesConcat(app, subpaths, a[1..], b, cfg);
    }
  }

  /** The routes of the base plane, ending in the default route of the application. */
  function BaseRules(subpaths: seq<Subpath>, default: HttpRoute, cfg: RouteConfig): seq<HttpRoute> {
    if subpaths == [] then [default]
    else [BaseHttpRoute(subpaths[0].serviceName, subpaths[0].path, cfg)] + BaseRules(subpaths[1..], default, cfg)
  }

  /** A whole list: the feature planes first and, when the application has a base plane, base last. */
  function HttpRules(app: string, subpaths: seq<Subpath>, order: seq<string>, default: Option<HttpRoute>,
                     cfg: RouteConfig): seq<HttpRoute> {
    FeatureRules(app, subpaths, order, cfg)
    + if default.Some? then BaseRules(subpaths, default.value, cfg) else []
  }

  // ----- the declarative routing decision -----

  /** The header, the query parameter or the label of the calling pod names the plane. */
  predicate Signals(req: Request, plane: string) {
    || HasLabel(req.headers, X_ENV_FLAG, plane)
    || HasLabel(req.query, X_ENV_FLAG, plane)
    || HasLabel(req.sourceLabels, PLANE_KEY, plane)
  }

  /** The first subpath, in list order, whose path is a prefix of the request's. */
  function FirstSubpath(subpaths: seq<Subpath>, path: string): (r: Option<Subpath>)
    ensures r.None? ==> forall i | 0 <= i < |subpaths| :: !(subpaths[i].path <= path)
    ensures r.Some? ==> exists i | 0 <= i < |subpaths| ::
              && r.value == subpaths[i] && subpaths[i].path <= path
              && forall j | 0 <= j < i :: !(subpaths[j].path <= path)
  {
    if subpaths == [] then None
    else if subpaths[0].path <= path then Some(subpaths[0])
    else
      var r := FirstSubpath(subpaths[1..], path);
      assert forall i | 1 <= i < |subpaths| :: subpaths[1..][i - 1] == subpaths[i];
      r
  }

  function Target(app: string, subpaths: seq<Subpath>, path: string): Subpath {
    var s := FirstSubpath(subpaths, path);
    if s.Some? then s.value else Subpath("/", app, 0)
  }

  lemma PlaneRouteMatches(host: string, plane: string, path: string, cfg: RouteConfig, req: Request)
    requires "/" <= req.path
    ensures RouteMatches(PlaneHttpRoute(host, plane, path, cfg), req) <==> path <= req.path && Signals(req, plane)
  {
    var r := PlaneHttpRoute(host, plane, path, cfg);
    assert r.matches[0].headers == r.matches[1].queryParams == map[X_ENV_FLAG := Exact(plane)];
    assert X_ENV_FLAG in r.matches[0].headers;
    assert BlockMatches(r.matches[0], req) <==> path <= req.path && HasLabel(req.headers, X_ENV_FLAG, plane);
    assert BlockMatches(r.matches[1], req) <==> path <= req.path && HasLabel(req.query, X_ENV_FLAG, plane);
    assert r.matches[2].sourceLabels == map[PLANE_KEY := plane] && PLANE_KEY in r.matches[2].sourceLabels;
    assert BlockMatches(r.matches[2], req) <==> path <= req.path && HasLabel(req.sourceLabels, PLANE_KEY, plane);
  }

  lemma BaseRouteMatches(host: string, path: string, cfg: RouteConfig, req: Request)
    requires "/" <= req.path
    ensures RouteMatches(BaseHttpRoute(host, path, cfg), req) <==> path <= req.path
  {
    var r := BaseHttpRoute(host, path, cfg);
    if path != "/" {
      assert BlockMatches(r.matches[0], req) <==> path <= req.path;
    }
  }

  lemma {:induction false} PlaneRulesDecide(app: string, subpaths: seq<Subpath>, plane: string, cfg: RouteConfig,
                                           req: Request)
    requires "/" <= req.path
    ensures var t := Target(app, subpaths, req.path);
            FirstMatch(PlaneRules(app, subpaths, plane, cfg), req)
            == if Signals(req, plane) then Some(PlaneHttpRoute(t.serviceName, plane, t.path, cfg)) else None
  {
    if subpaths == [] {
      PlaneRouteMatches(app, plane, "/", cfg, req);
    } else {
      PlaneRouteMatches(subpaths[0].serviceName, plane, subpaths[0].path, cfg, req);
      PlaneRulesDecide(app, subpaths[1..], plane, cfg, req);
      assert PlaneRules(app, subpaths, plane, cfg)[1..] == PlaneRules(app, subpaths[1..], plane, cfg);
    }
  }

  /** The first plane of the list that the request signals. */
  function FirstSignalled(order: seq<string>, req: Request): Option<string> {
    if order == [] then None else if Signals(req, order[0]) then Some(order[0]) else FirstSignalled(order[1..], req)
  }

  lemma {:induction false} FirstSignalledAt(order: seq<string>, req: Request)
    ensures if exists i | 0 <= i < |order| :: Signals(req, order[i]) then
              exists i | 0 <= i < |order| && Signals(req, order[i]) ::
                (forall j | 0 <= j < i :: !Signals(req, order[j])) && FirstSignalled(order, req) == Some(order[i])
            else FirstSignalled(order, req) == None
  {
    if order != [] && !Signals(req, order[0]) {
      var rest := order[1..];
      FirstSignalledAt(rest, req);
      assert forall k | 0 <= k < |rest| :: rest[k] == order[k + 1];
      if i :| 0 <= i < |order| && Signals(req, order[i]) {
        assert Signals(req, rest[i - 1]);
        var k :| 0 <= k < |rest| && Signals(req, rest[k]) && (forall j | 0 <= j < k :: !Signals(req, rest[j]))
              && FirstSignalled(rest, req) == Some(rest[k]);
        assert Signals(req, order[k + 1]);
        assert forall j | 1 <= j < k + 1 :: order[j] == rest[j - 1];
      }
    }
  }

  lemma {:induction false} FirstSignalledDecides(app: string, subpaths: seq<Subpath>, order: seq<string>, cfg: RouteConfig,
                                                req: Request)
    requires "/" <= req.path
    ensures var t, first := Target(app, subpaths, req.path), FirstSignalled(order, req);
            FirstMatch(FeatureRules(app, subpaths, order, cfg), req)
            == if first.Some? then Some(PlaneHttpRoute(t.serviceName, first.value, t.path, cfg)) else None
  {
    if order != [] {
      PlaneRulesDecide(app, subpaths, order[0], cfg, req);
      FirstMatchConcat(PlaneRules(app, subpaths, order[0], cfg), FeatureRules(app, subpaths, order[1..], cfg), req);
      FirstSignalledDecides(app, subpaths, order[1..], cfg, req);
    }
  }

  /** Among the feature planes, the first signalled one of the list decides. */
  lemma FeatureRulesDecide(app: string, subpaths: seq<Subpath>, order: seq<string>, cfg: RouteConfig, req: Request)
    requires "/" <= req.path
    ensures var t := Target(app, subpaths, req.path);
            var r := FirstMatch(FeatureRules(app, subpaths, order, cfg), req);
            if exists i | 0 <= i < |order| :: Signals(req, order[i]) then
              exists i | 0 <= i < |order| && Signals(req, order[i]) ::
                && (forall j | 0 <= j < i :: !Signals(req, order[j]))
                && r == Some(PlaneHttpRoute(t.serviceName, order[i], t.path, cfg))
            else r == None
  {
    FirstSignalledDecides(app, subpaths, order, cfg, req);
    FirstSignalledAt(order, req);
    if i :| 0 <= i < |order| && Signals(req, order[i]) {
      var k :| 0 <= k < |order| && Signals(req, order[k]) && (forall j | 0 <= j < k :: !Signals(req, order[j]))
            && FirstSignalled(order, req) == Some(order[k]);
    }
  }

  lemma {:induction false} BaseRulesDecide(subpaths: seq<Subpath>, default: HttpRoute, cfg: RouteConfig, req: Request)
    requires "/" <= req.path
    ensures var s := FirstSubpath(subpaths, req.path);
            FirstMatch(BaseRules(subpaths, default, cfg), req)
            == if s.Some? then Some(BaseHttpRoute(s.value.serviceName, s.value.path, cfg))
               else if RouteMatches(default, req) then Some(default) else None
  {
    if subpaths != [] {
      BaseRouteMatches(subpaths[0].serviceName, subpaths[0].path, cfg, req);
      BaseRulesDecide(subpaths[1..], default, cfg, req);
      assert BaseRules(subpaths, default, cfg)[1..] == BaseRules(subpaths[1..], default, cfg);
    } else {
      assert FirstMatch([default][1..], req) == None;
    }
  }

  function FeaturePlanes(planes: set<string>, cfg: RouteConfig): set<string> {
    planes - {cfg.baseFlag}
  }

  /** The feature planes of the application that some signal of the request names. */
  function Named(planes: set<string>, cfg: RouteConfig, req: Request): set<string> {
    set p | p in FeaturePlanes(planes, cfg) && Signals(req, p)
  }

  /** Routing refinement, for every plane set, every iteration order, every subpath list and every
      default route: a named feature plane wins and sends the request to the first matching
      subpath, else to the application; without one the base routes decide the same way, the
      default route last; without a base plane nothing matches. */
  lemma RoutingRefinement(app: string, subpaths: seq<Subpath>, planes: set<string>, order: seq<string>,
                          default: HttpRoute, cfg: RouteConfig, req: Request)
    requires Enumerates(order, FeaturePlanes(planes, cfg))
    requires "/" <= req.path
    ensures var base := cfg.baseFlag in planes;
            var t := Target(app, subpaths, req.path);
            var r := FirstMatch(HttpRules(app, subpaths, order, if base then Some(default) else None, cfg), req);
            if Named(planes, cfg, req) != {} then
              exists p | p in Named(planes, cfg, req) :: r == Some(PlaneHttpRoute(t.serviceName, p, t.path, cfg))
            else if !base then r == None
            else if FirstSubpath(subpaths, req.path).Some? then r == Some(BaseHttpRoute(t.serviceName, t.path, cfg))
            else r == if RouteMatches(default, req) then Some(default) else None
  {
    var base := cfg.baseFlag in planes;
    var feature := FeatureRules(app, subpaths, order, cfg);
    FeatureRulesDecide(app, subpaths, order, cfg, req);
    FirstMatchConcat(feature, if base then BaseRules(subpaths, default, cfg) else [], req);
    if Named(planes, cfg, req) != {} {
      var p :| p in Named(planes, cfg, req);
      assert p in order;
      var i :| 0 <= i < |order| && order[i] == p;
      assert Signals(req, order[i]);
      var t := Target(app, subpaths, req.path);
      var k :| 0 <= k < |order| && Signals(req, order[k])
            && FirstMatch(feature, req) == Some(PlaneHttpRoute(t.serviceName, order[k], t.path, cfg));
      assert order[k] in order;
      assert order[k] in Named(planes, cfg, req);
    } else {
      forall i | 0 <= i < |order| ensures !Signals(req, order[i]) {
        assert order[i] in order;
        assert order[i] !in Named(planes, cfg, req);
      }
      if base {
        BaseRulesDecide(subpaths, default, cfg, req);
      }
    }
  }

  lemma NamedFirstWins(app: string, subpaths: seq<Subpath>, planes: set<string>, rest: seq<string>, p: string,
                       default: Option<HttpRoute>, cfg: RouteConfig, req: Request)
    requires "/" <= req.path && Signals(req, p)
    ensures FirstMatch(HttpRules(app, subpaths, [p] + rest, default, cfg), req).Some?
    ensures FirstMatch(HttpRules(app, subpaths, [p] + rest, default, cfg), req).value.setHeaders == map[X_ENV_FLAG := p]
  {
    var order := [p] + rest;
    assert order[0] == p && Signals(req, order[0]);
    FeatureRulesDecide(app, subpaths, order, cfg, req);
    FirstMatchConcat(FeatureRules(app, subpaths, order, cfg),
                     if default.Some? then BaseRules(subpaths, default.value, cfg) else [], req);
  }

  /** Every iteration order of the plane map routes the request to the same route. */
  ghost predicate OrderIndependent(app: string, subpaths: seq<Subpath>, planes: set<string>,
                                   default: Option<HttpRoute>, cfg: RouteConfig, req: Request) {
    forall o1, o2 | Enumerates(o1, FeaturePlanes(planes, cfg)) && Enumerates(o2, FeaturePlanes(planes, cfg)) ::
      FirstMatch(HttpRules(app, subpaths, o1, default, cfg), req)
      == FirstMatch(HttpRules(app, subpaths, o2, default, cfg), req)
  }

  lemma OneNamedPlaneDecides(app: string, subpaths: seq<Subpath>, planes: set<string>, o1: seq<string>, o2: seq<string>,
                             default: HttpRoute, cfg: RouteConfig, req: Request)
    requires "/" <= req.path
    requires Enumerates(o1, FeaturePlanes(planes, cfg)) && Enumerates(o2, FeaturePlanes(planes, cfg))
    requires forall p, q | p in Named(planes, cfg, req) && q in Named(planes, cfg, req) :: p == q
    ensures var d := if cfg.baseFlag in planes then Some(default) else None;
            FirstMatch(HttpRules(app, subpaths, o1, d, cfg), req)
            == FirstMatch(HttpRules(app, subpaths, o2, d, cfg), req)
  {
    RoutingRefinement(app, subpaths, planes, o1, default, cfg, req);
    RoutingRefinement(app, subpaths, planes, o2, default, cfg, req);
  }

  lemma TwoNamedPlanesDisagree(app: string, subpaths: seq<Subpath>, planes: set<string>, default: Option<HttpRoute>,
                               cfg: RouteConfig, req: Request, p: string, q: string)
    requires "/" <= req.path
    requires p in Named(planes, cfg, req) && q in Named(planes, cfg, req) && p != q
    ensures !OrderIndependent(app, subpaths, planes, default, cfg, req)
  {
    var r1 := EnumerationStartingAt(FeaturePlanes(planes, cfg), p);
    var r2 := EnumerationStartingAt(FeaturePlanes(planes, cfg), q);
    NamedFirstWins(app, subpaths, planes, r1, p, default, cfg, req);
    NamedFirstWins(app, subpaths, planes, r2, q, default, cfg, req);
    assert map[X_ENV_FLAG := p][X_ENV_FLAG] != map[X_ENV_FLAG := q][X_ENV_FLAG];
  }

  /** The result does not depend on map iteration order exactly when the signals of the request
      name at most one feature plane of the application. */
  lemma OrderIndependenceIff(app: string, subpaths: seq<Subpath>, planes: set<string>, default: HttpRoute,
                             cfg: RouteConfig, req: Request)
    requires "/" <= req.path
    ensures OrderIndependent(app, subpaths, planes, if cfg.baseFlag in planes then Some(default) else None, cfg, req)
            <==> forall p, q | p in Named(planes, cfg, req) && q in Named(planes, cfg, req) :: p == q
  {
    if p, q :| p in Named(planes, cfg, req) && q in Named(planes, cfg, req) && p != q {
      TwoNamedPlanesDisagree(app, subpaths, planes, if cfg.baseFlag in planes then Some(default) else None, cfg, req, p, q);
    } else {
      forall o1, o2 | Enumerates(o1, FeaturePlanes(planes, cfg)) && Enumerates(o2, FeaturePlanes(planes, cfg)) {
        OneNamedPlaneDecides(app, subpaths, planes, o1, o2, default, cfg, req);
      }
    }
  }
}
