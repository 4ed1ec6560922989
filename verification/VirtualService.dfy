/** The VirtualService and DestinationRule handlers: the loops that build the route lists and the
    subsets, what a second generation keeps, and the agreement between the two generators. */
module VirtualService {
  import opened Common
  import opened Names
  import opened Routing

  // ----- finding a route by the first destination -----

  function HostAndSubset(destinations: seq<Destination>): Destination {
    if destinations != [] then destinations[0] else Destination("", "")
  }

  function PlaneDestination(host: string, plane: string): Destination {
    Destination(host, SubsetName(host, plane))
  }

  function FindHttp(routes: seq<HttpRoute>, host: string, plane: string): Option<HttpRoute> {
    if routes == [] then None
    else if HostAndSubset(routes[0].destinations) == PlaneDestination(host, plane) then Some(routes[0])
    else FindHttp(routes[1..], host, plane)
  }

  method FindHttpRoute(routes: seq<HttpRoute>, host: string, plane: string) returns (found: bool, route: Option<HttpRoute>)
    ensures route == FindHttp(routes, host, plane) && found == route.Some?
  {
    for i := 0 to |routes|
      invariant FindHttp(routes, host, plane) == FindHttp(routes[i..], host, plane)
    {
      if HostAndSubset(routes[i].destinations) == PlaneDestination(host, plane) {
        return true, Some(routes[i]);
      }
    }
    return false, None;
  }

  /** The default route of the base plane: the stored one when found, else a generated catch-all. */
  function DefaultHttpRoute(app: string, stored: seq<HttpRoute>, cfg: RouteConfig): (r: HttpRoute)
    ensures HostAndSubset(r.destinations) == PlaneDestination(app, cfg.baseFlag)
  {
    var found := FindHttp(stored, app, cfg.baseFlag);
    FindHttpDestination(stored, app, cfg.baseFlag);
    if found.Some? then found.value else BaseHttpRoute(app, "/", cfg)
  }

  lemma {:induction false} FindHttpDestination(routes: seq<HttpRoute>, host: string, plane: string)
    ensures var r := FindHttp(routes, host, plane);
            r.Some? ==> r.value in routes && HostAndSubset(r.value.destinations) == PlaneDestination(host, plane)
  {
    if routes != [] {
      FindHttpDestination(routes[1..], host, plane);
    }
  }

  /** The route is the first one whose first destination is `d`. */
  ghost predicate IsFirstHttpTo(routes: seq<HttpRoute>, d: Destination, r: HttpRoute) {
    exists i | 0 <= i < |routes| ::
      && r == routes[i] && HostAndSubset(routes[i].destinations) == d
      && forall j | 0 <= j < i :: HostAndSubset(routes[j].destinations) != d
  }

  /** What is found is the first route whose first destination is the host in the plane's subset. */
  lemma {:induction false} FindHttpFirst(routes: seq<HttpRoute>, host: string, plane: string)
    ensures var r := FindHttp(routes, host, plane);
            if r.Some? then IsFirstHttpTo(routes, PlaneDestination(host, plane), r.value)
            else forall i | 0 <= i < |routes| :: HostAndSubset(routes[i].destinations) != PlaneDestination(host, plane)
  {
    if routes != [] {
      FindHttpFirst(routes[1..], host, plane);
      assert forall i | 1 <= i < |routes| :: routes[1..][i - 1] == routes[i];
    }
  }

  lemma {:induction false} FindHttpConcat(a: seq<HttpRoute>, b: seq<HttpRoute>, host: string, plane: string)
    ensures FindHttp(a + b, host, plane)
         == if FindHttp(a, host, plane).Some? then FindHttp(a, host, plane) else FindHttp(b, host, plane)
  {
    if a == [] {
      assert a + b == b;
    } else {
      assert (a + b)[1..] == a[1..] + b;
      FindHttpConcat(a[1..], b, host, plane);
    }
  }

  // ----- TCP routes -----

  datatype TcpRoute = TcpRoute(destinations: seq<Destination>, sourceLabelMatches: seq<StringMap>, other: string)

  predicate TcpBlockMatches(b: StringMap, sourceLabels: StringMap) {
    forall k | k in b :: HasLabel(sourceLabels, k, b[k])
  }

  predicate TcpMatches(r: TcpRoute, sourceLabels: StringMap) {
    r.sourceLabelMatches == [] || exists b | b in r.sourceLabelMatches :: TcpBlockMatches(b, sourceLabels)
  }

  function FirstTcpMatch(rules: seq<TcpRoute>, sourceLabels: StringMap): Option<TcpRoute> {
    if rules == [] then None
    else if TcpMatches(rules[0], sourceLabels) then Some(rules[0])
    else FirstTcpMatch(rules[1..], sourceLabels)
  }

  function PlaneTcpRoute(app: string, plane: string): TcpRoute {
    TcpRoute([PlaneDestination(app, plane)], [map[PLANE_KEY := plane]], "")
  }

  function FindTcp(routes: seq<TcpRoute>, host: string, plane: string): Option<TcpRoute> {
    if routes == [] then None
    else if HostAndSubset(routes[0].destinations) == PlaneDestination(host, plane) then Some(routes[0])
    else FindTcp(routes[1..], host, plane)
  }

  lemma {:induction false} FindTcpFirst(routes: seq<TcpRoute>, host: string, plane: string)
    ensures var r := FindTcp(routes, host, plane);
            if r.Some? then IsFirstTo(routes, PlaneDestination(host, plane), r.value)
            else forall i | 0 <= i < |routes| :: HostAndSubset(routes[i].destinations) != PlaneDestination(host, plane)
  {
    if routes != [] {
      FindTcpFirst(routes[1..], host, plane);
      assert forall i | 1 <= i < |routes| :: routes[1..][i - 1] == routes[i];
    }
  }

  ghost predicate IsFirstTo(routes: seq<TcpRoute>, d: Destination, r: TcpRoute) {
    exists i | 0 <= i < |routes| ::
      && r == routes[i] && HostAndSubset(routes[i].destinations) == d
      && forall j | 0 <= j < i :: HostAndSubset(routes[j].destinations) != d
  }

  method FindTcpRoute(routes: seq<TcpRoute>, host: string, plane: string) returns (found: bool, route: Option<TcpRoute>)
    ensures route == FindTcp(routes, host, plane) && found == route.Some?
  {
    for i := 0 to |routes|
      invariant FindTcp(routes, host, plane) == FindTcp(routes[i..], host, plane)
    {
      if HostAndSubset(routes[i].destinations) == PlaneDestination(host, plane) {
        return true, Some(routes[i]);
      }
    }
    return false, None;
  }

  function DefaultTcpRoute(app: string, stored: seq<TcpRoute>, cfg: RouteConfig): TcpRoute {
    var found := FindTcp(stored, app, cfg.baseFlag);
    if found.Some? then found.value else TcpRoute([PlaneDestination(app, cfg.baseFlag)], [], "")
  }

  function TcpRules(app: string, order: seq<string>, default: Option<TcpRoute>): seq<TcpRoute> {
    if order == [] then if default.Some? then [default.value] else []
    else [PlaneTcpRoute(app, order[0])] + TcpRules(app, order[1..], default)
  }

  /** Where a route list sends a connection from a pod with these labels: the first route that matches it. */
  ghost predicate Accepts(rules: seq<TcpRoute>, labels: StringMap, r: TcpRoute) {
    exists i | 0 <= i < |rules| ::
      rules[i] == r && TcpMatches(r, labels) && forall j | 0 <= j < i :: !TcpMatches(rules[j], labels)
  }

  lemma {:induction false} FirstTcpMatchIs(rules: seq<TcpRoute>, labels: StringMap)
    ensures var r := FirstTcpMatch(rules, labels);
            if r.Some? then Accepts(rules, labels, r.value)
            else forall i | 0 <= i < |rules| :: !TcpMatches(rules[i], labels)
  {
    if rules != [] {
      FirstTcpMatchIs(rules[1..], labels);
      assert forall i | 1 <= i < |rules| :: rules[1..][i - 1] == rules[i];
    }
  }

  /** Where a connection from a pod with these labels goes, for an application deployed in `planes`: from a
      feature plane the application is deployed in, to the application in that plane; from anywhere else, to
      base, if there is one, by the route that was found for it or else unconditionally. */
  ghost predicate TcpDecided(rules: seq<TcpRoute>, app: string, planes: set<string>, stored: seq<TcpRoute>,
                             cfg: RouteConfig, labels: StringMap) {
    var base := PlaneDestination(app, cfg.baseFlag);
    if PLANE_KEY in labels && labels[PLANE_KEY] in planes && labels[PLANE_KEY] != cfg.baseFlag then
      exists r :: Accepts(rules, labels, r) && r.destinations == [PlaneDestination(app, labels[PLANE_KEY])]
    else if cfg.baseFlag !in planes then forall i | 0 <= i < |rules| :: !TcpMatches(rules[i], labels)
    else if exists i | 0 <= i < |stored| :: HostAndSubset(stored[i].destinations) == base then
      exists r :: IsFirstTo(stored, base, r)
        && if TcpMatches(r, labels) then Accepts(rules, labels, r)
           else forall i | 0 <= i < |rules| :: !TcpMatches(rules[i], labels)
    else exists r :: Accepts(rules, labels, r) && r.destinations == [base]
  }

  lemma TcpDecides(app: string, planes: set<string>, order: seq<string>, stored: seq<TcpRoute>, cfg: RouteConfig,
                   labels: StringMap)
    requires Enumerates(order, FeaturePlanes(planes, cfg))
    ensures TcpDecided(TcpRules(app, order,
                                if cfg.baseFlag in planes then Some(DefaultTcpRoute(app, stored, cfg)) else None),
                       app, planes, stored, cfg, labels)
  {
    var default := if cfg.baseFlag in planes then Some(DefaultTcpRoute(app, stored, cfg)) else None;
    var rules := TcpRules(app, order, default);
    TcpRefinement(app, order, default, labels);
    FirstTcpMatchIs(rules, labels);
    FindTcpFirst(stored, app, cfg.baseFlag);
    if PLANE_KEY in labels && labels[PLANE_KEY] in planes && labels[PLANE_KEY] != cfg.baseFlag {
      assert labels[PLANE_KEY] in order;
      assert Accepts(rules, labels, PlaneTcpRoute(app, labels[PLANE_KEY]));
    }
  }

  // ----- the port loop -----

  /** `strings.ToLower(strings.Split(name, "-")[0])` on ASCII names. */
  function Protocol(portName: string): string {
    if portName == "" || portName[0] == '-' then ""
    else [if 'A' <= portName[0] <= 'Z' then (portName[0] as int + 32) as char else portName[0]] + Protocol(portName[1..])
  }

  predicate StreamPort(portName: string) {
    Protocol(portName) in ["tcp", "mongo", "mysql", "redis"]
  }

  /** The same text but for the case of letters. */
  predicate SameIgnoringCase(s: string, lower: string) {
    && |s| == |lower|
    && forall i | 0 <= i < |s| ::
         s[i] == lower[i] || ('a' <= lower[i] <= 'z' && s[i] as int + 32 == lower[i] as int)
  }

  /** The part of a port name before its first dash. */
  predicate IsProtocolPart(portName: string, part: string) {
    && part <= portName && '-' !in part
    && (part == portName || portName[|part|] == '-')
  }

  lemma {:induction false} ProtocolIs(portName: string, part: string)
    requires IsProtocolPart(portName, part)
    ensures |Protocol(portName)| == |part|
    ensures forall i | 0 <= i < |part| ::
              Protocol(portName)[i] == if 'A' <= part[i] <= 'Z' then (part[i] as int + 32) as char else part[i]
    decreases |part|
  {
    if part != "" {
      assert portName[1..][..|part| - 1] == part[1..];
      ProtocolIs(portName[1..], part[1..]);
    }
  }

  /** A port is a stream port exactly when its name, up to the first dash and whatever the case of its
      letters, is one of the four protocols. */
  lemma StreamPortIff(portName: string, part: string)
    requires IsProtocolPart(portName, part)
    ensures StreamPort(portName) <==> exists p | p in ["tcp", "mongo", "mysql", "redis"] :: SameIgnoringCase(part, p)
  {
    ProtocolIs(portName, part);
    forall p | p in ["tcp", "mongo", "mysql", "redis"]
      ensures Protocol(portName) == p <==> SameIgnoringCase(part, p)
    {
      assert forall i | 0 <= i < |p| :: 'a' <= p[i] <= 'z';
    }
  }

  // ----- the application object and its handlers -----

  datatype Subset = Subset(name: string, labels: StringMap)

  function SubsetOf(app: string, plane: string): Subset {
    Subset(SubsetName(app, plane), map[PLANE_KEY := plane])
  }

  function SubsetsOf(app: string, order: seq<string>): seq<Subset> {
    seq(|order|, i requires 0 <= i < |order| => SubsetOf(app, order[i]))
  }

  /** The plane map as the two generators leave it: the base entry is taken out and put back. */
  function BaseReset(planes: map<string, int>, cfg: RouteConfig): map<string, int> {
    if cfg.baseFlag in planes then planes[cfg.baseFlag := 1] else planes
  }

  /** Taking the base entry out and putting it back leaves the map as it was exactly when the entry,
      if any, had the value 1. */
  lemma BaseResetUnchangedIff(planes: map<string, int>, cfg: RouteConfig)
    ensures BaseReset(planes, cfg) == planes <==> (cfg.baseFlag in planes ==> planes[cfg.baseFlag] == 1)
    ensures BaseReset(planes, cfg).Keys == planes.Keys
    ensures forall p | p in planes :: BaseReset(planes, cfg)[p] == if p == cfg.baseFlag then 1 else planes[p]
  {
  }

  class SqbApplication {
    const name: string
    var subpaths: seq<Subpath>
    var portNames: seq<string>
    var planes: map<string, int>

    constructor (name: string, subpaths: seq<Subpath>, portNames: seq<string>, planes: map<string, int>)
      ensures this.name == name && this.subpaths == subpaths && this.portNames == portNames && this.planes == planes
    {
      this.name, this.subpaths, this.portNames, this.planes := name, subpaths, portNames, planes;
    }

    /** Builds the HTTP routes. `order` is the order in which the plane map was ranged over. */
    method GetOrGenerateHttpRoutes(stored: seq<HttpRoute>, cfg: RouteConfig)
      returns (result: seq<HttpRoute>, ghost order: seq<string>)
      modifies this`planes
      ensures Enumerates(order, FeaturePlanes(old(planes).Keys, cfg))
      ensures result == HttpRules(name, subpaths, order,
                                  if cfg.baseFlag in old(planes)
                                      then Some(DefaultHttpRoute(name, stored, cfg)) else None, cfg)
      ensures forall req: Request | "/" <= req.path ::
                HttpDecided(result, name, subpaths, old(planes).Keys, stored, cfg, req)
      ensures planes == BaseReset(old(planes), cfg)
    {
      result, order := BuildHttpRoutes(stored, cfg);
      forall req: Request | "/" <= req.path
        ensures HttpDecided(result, name, subpaths, old(planes).Keys, stored, cfg, req)
      {
        HttpDecides(name, subpaths, old(planes).Keys, order, stored, cfg, req);
      }
    }

    method BuildHttpRoutes(stored: seq<HttpRoute>, cfg: RouteConfig)
      returns (result: seq<HttpRoute>, ghost order: seq<string>)
      modifies this`planes
      ensures Enumerates(order, FeaturePlanes(old(planes).Keys, cfg))
      ensures result == HttpRules(name, subpaths, order,
                                  if cfg.baseFlag in old(planes)
                                      then Some(DefaultHttpRoute(name, stored, cfg)) else None, cfg)
      ensures planes == BaseReset(old(planes), cfg)
    {
      result, order := [], [];
      var ok := cfg.baseFlag in planes;
      if ok {
        planes := planes - {cfg.baseFlag};
      }
      ghost var features := planes.Keys;
      assert features == FeaturePlanes(old(planes).Keys, cfg);
      var rest := planes.Keys;
      while rest != {}
        invariant rest <= features && planes.Keys == features
        invariant Enumerates(order, features - rest)
        invariant result == FeatureRules(name, subpaths, order, cfg)
        invariant unchanged(this`subpaths)
        invariant planes == old(planes) - {cfg.baseFlag}
      {
        var plane :| plane in rest;
        var planeRules := GeneratePlaneRoutes(plane, cfg);
        FeatureRulesConcat(name, subpaths, order, [plane], cfg);
        assert FeatureRules(name, subpaths, [plane], cfg) == PlaneRules(name, subpaths, plane, cfg);
        result := result + planeRules;
        order := order + [plane];
        rest := rest - {plane};
      }
      assert features - rest == features;
      if ok {
        planes := planes[cfg.baseFlag := 1];
        assert planes == old(planes)[cfg.baseFlag := 1];
        var _, route := FindHttpRoute(stored, name, cfg.baseFlag);
        var baseRoutes := GenerateBaseRoutes(
          if route.Some? then route.value else BaseHttpRoute(name, "/", cfg), cfg);
        result := result + baseRoutes;
      } else {
        assert planes == old(planes);
      }
    }

    method GeneratePlaneRoutes(plane: string, cfg: RouteConfig) returns (result: seq<HttpRoute>)
      ensures result == PlaneRules(name, subpaths, plane, cfg)
    {
      result := [];
      for i := 0 to |subpaths|
        invariant result + PlaneRules(name, subpaths[i..], plane, cfg) == PlaneRules(name, subpaths, plane, cfg)
      {
        assert subpaths[i..][1..] == subpaths[i + 1..];
        result := result + [PlaneHttpRoute(subpaths[i].serviceName, plane, subpaths[i].path, cfg)];
      }
      result := result + [PlaneHttpRoute(name, plane, "/", cfg)];
    }

    method GenerateBaseRoutes(default: HttpRoute, cfg: RouteConfig) returns (result: seq<HttpRoute>)
      ensures result == BaseRules(subpaths, default, cfg)
    {
      result := [];
      for i := 0 to |subpaths|
        invariant result + BaseRules(subpaths[i..], default, cfg) == BaseRules(subpaths, default, cfg)
      {
        assert subpaths[i..][1..] == subpaths[i + 1..];
        result := result + [BaseHttpRoute(subpaths[i].serviceName, subpaths[i].path, cfg)];
      }
      result := result + [default];
    }

    method GetOrGenerateTcpRoutes(stored: seq<TcpRoute>, cfg: RouteConfig)
      returns (result: seq<TcpRoute>, ghost order: seq<string>)
      modifies this`planes
      ensures Enumerates(order, FeaturePlanes(old(planes).Keys, cfg))
      ensures result == TcpRules(name, order,
                                 if cfg.baseFlag in old(planes) then Some(DefaultTcpRoute(name, stored, cfg)) else None)
      ensures forall labels :: TcpDecided(result, name, old(planes).Keys, stored, cfg, labels)
      ensures planes == BaseReset(old(planes), cfg)
    {
      result, order := BuildTcpRoutes(stored, cfg);
      forall labels ensures TcpDecided(result, name, old(planes).Keys, stored, cfg, labels) {
        TcpDecides(name, old(planes).Keys, order, stored, cfg, labels);
      }
    }

    method BuildTcpRoutes(stored: seq<TcpRoute>, cfg: RouteConfig)
      returns (result: seq<TcpRoute>, ghost order: seq<string>)
      modifies this`planes
      ensures Enumerates(order, FeaturePlanes(old(planes).Keys, cfg))
      ensures result == TcpRules(name, order,
                                 if cfg.baseFlag in old(planes) then Some(DefaultTcpRoute(name, stored, cfg)) else None)
      ensures planes == BaseReset(old(planes), cfg)
    {
      result, order := [], [];
      var ok := cfg.baseFlag in planes;
      if ok {
        planes := planes - {cfg.baseFlag};
      }
      ghost var features := planes.Keys;
      assert features == FeaturePlanes(old(planes).Keys, cfg);
      var rest := planes.Keys;
      while rest != {}
        invariant rest <= features && planes.Keys == features
        invariant Enumerates(order, features - rest)
        invariant result == TcpRules(name, order, None)
        invariant planes == old(planes) - {cfg.baseFlag}
      {
        var plane :| plane in rest;
        TcpRulesAppend(name, order, plane);
        result := result + [PlaneTcpRoute(name, plane)];
        order := order + [plane];
        rest := rest - {plane};
      }
      assert features - rest == features;
      if ok {
        planes := planes[cfg.baseFlag := 1];
        assert planes == old(planes)[cfg.baseFlag := 1];
        var _, route := FindTcpRoute(stored, name, cfg.baseFlag);
        TcpRulesDefault(name, order, DefaultTcpRoute(name, stored, cfg));
        result := result + [if route.Some? then route.value else TcpRoute([PlaneDestination(name, cfg.baseFlag)], [], "")];
      } else {
        assert planes == old(planes);
      }
    }

    /** The loop over the ports of the application that decides about TCP routes. */
    method TcpRoutesForPorts(stored: seq<TcpRoute>, cfg: RouteConfig)
      returns (tcp: seq<TcpRoute>, ghost order: seq<string>)
      modifies this`planes
      ensures portNames == [] ==> tcp == stored
      ensures portNames != [] && (forall i | 0 <= i < |portNames| :: !StreamPort(portNames[i])) ==> tcp == []
      ensures (exists i | 0 <= i < |portNames| :: StreamPort(portNames[i])) ==>
                && Enumerates(order, FeaturePlanes(old(planes).Keys, cfg))
                && var kept := if StreamPort(portNames[0]) then stored else [];
                   && tcp == TcpRules(name, order,
                                      if cfg.baseFlag in old(planes) then Some(DefaultTcpRoute(name, kept, cfg)) else None)
                   && forall labels :: TcpDecided(tcp, name, old(planes).Keys, kept, cfg, labels)
      ensures planes == old(planes) || planes == BaseReset(old(planes), cfg)
    {
      tcp, order := stored, [];
      for i := 0 to |portNames|
        invariant planes == old(planes)
        invariant tcp == if i == 0 then stored else []
        invariant forall j | 0 <= j < i :: !StreamPort(portNames[j])
      {
        var stream := ContainString(["tcp", "mongo", "mysql", "redis"], Protocol(portNames[i]));
        if stream {
          tcp, order := GetOrGenerateTcpRoutes(tcp, cfg);
          return;
        } else {
          tcp := [];
        }
      }
    }

    /** The subsets of the DestinationRule: one for every plane of the status. */
    method GenerateSubsets() returns (subsets: seq<Subset>, ghost order: seq<string>)
      ensures Enumerates(order, planes.Keys)
      ensures subsets == SubsetsOf(name, order)
    {
      subsets, order := [], [];
      var rest := planes.Keys;
      while rest != {}
        invariant rest <= planes.Keys
        invariant Enumerates(order, planes.Keys - rest)
        invariant subsets == SubsetsOf(name, order)
      {
        var plane :| plane in rest;
        subsets := subsets + [SubsetOf(name, plane)];
        order := order + [plane];
        rest := rest - {plane};
      }
      assert planes.Keys - rest == planes.Keys;
    }
  }

  lemma {:induction false} TcpRulesAppend(app: string, order: seq<string>, plane: string)
    ensures TcpRules(app, order + [plane], None) == TcpRules(app, order, None) + [PlaneTcpRoute(app, plane)]
  {
    if order != [] {
      assert (order + [plane])[1..] == order[1..] + [plane];
      TcpRulesAppend(app, order[1..], plane);
    } else {
      assert TcpRules(app, [plane][1..], None) == [];
    }
  }

  lemma {:induction false} TcpRulesDefault(app: string, order: seq<string>, default: TcpRoute)
    ensures TcpRules(app, order, Some(default)) == TcpRules(app, order, None) + [default]
  {
    if order != [] {
      TcpRulesDefault(app, order[1..], default);
    }
  }

  /** A connection from a pod of a deployed feature plane stays in that plane; any other goes to
      the base default, whatever the iteration order was. */
  lemma {:induction false} TcpRefinement(app: string, order: seq<string>, default: Option<TcpRoute>, labels: StringMap)
    ensures FirstTcpMatch(TcpRules(app, order, default), labels)
         == if PLANE_KEY in labels && labels[PLANE_KEY] in order then Some(PlaneTcpRoute(app, labels[PLANE_KEY]))
            else if default.Some? && TcpMatches(default.value, labels) then default else None
  {
    if order != [] {
      var r := PlaneTcpRoute(app, order[0]);
      var block := map[PLANE_KEY := order[0]];
      assert r.sourceLabelMatches == [block] && PLANE_KEY in block;
      assert TcpBlockMatches(block, labels) <==> HasLabel(labels, PLANE_KEY, order[0]);
      assert TcpRules(app, order, default)[1..] == TcpRules(app, order[1..], default);
      TcpRefinement(app, order[1..], default, labels);
    } else if default.Some? {
      assert FirstTcpMatch([default.value][1..], labels) == None;
    }
  }

  // ----- where a request goes -----

  /** The service behind a path: that of the first subpath whose path is a prefix of it, or the application. */
  ghost predicate ServedBy(app: string, subpaths: seq<Subpath>, path: string, host: string) {
    || (host == app && forall i | 0 <= i < |subpaths| :: !(subpaths[i].path <= path))
    || exists i | 0 <= i < |subpaths| ::
         && host == subpaths[i].serviceName && subpaths[i].path <= path
         && forall j | 0 <= j < i :: !(subpaths[j].path <= path)
  }

  lemma TargetServes(app: string, subpaths: seq<Subpath>, path: string)
    ensures ServedBy(app, subpaths, path, Target(app, subpaths, path).serviceName)
  {
  }

  /** A route to the plane of one service, with what it does to the request: a feature plane sets the flag. */
  predicate LeadsTo(r: HttpRoute, host: string, plane: string, headers: StringMap, cfg: RouteConfig) {
    r.destinations == [PlaneDestination(host, plane)] && r.setHeaders == headers && r.timeout == cfg.timeout
  }

  /** Where a request goes, for an application deployed in `planes`. If it names a feature plane of the
      application, to the service behind its path in that plane, with the flag set; otherwise to base, if there
      is one, or nowhere. */
  ghost predicate HttpDecided(rules: seq<HttpRoute>, app: string, subpaths: seq<Subpath>, planes: set<string>,
                              stored: seq<HttpRoute>, cfg: RouteConfig, req: Request) {
    if exists p | p in planes && p != cfg.baseFlag :: Signals(req, p) then
      exists p, host, r | p in planes && p != cfg.baseFlag && Signals(req, p) && ServedBy(app, subpaths, req.path, host) ::
        Takes(rules, req, r) && LeadsTo(r, host, p, map[X_ENV_FLAG := p], cfg)
    else if cfg.baseFlag !in planes then forall i | 0 <= i < |rules| :: !RouteMatches(rules[i], req)
    else BaseDecided(rules, app, subpaths, stored, cfg, req)
  }

  /** In base, a subpath leads to its service; any other path to the route found for the application's base,
      as far as that matches or, if none was found, to the application. */
  ghost predicate BaseDecided(rules: seq<HttpRoute>, app: string, subpaths: seq<Subpath>, stored: seq<HttpRoute>,
                              cfg: RouteConfig, req: Request) {
    var base := PlaneDestination(app, cfg.baseFlag);
    if (exists i | 0 <= i < |subpaths| :: subpaths[i].path <= req.path)
       || (forall i | 0 <= i < |stored| :: HostAndSubset(stored[i].destinations) != base) then
      exists host, r | ServedBy(app, subpaths, req.path, host) ::
        Takes(rules, req, r) && LeadsTo(r, host, cfg.baseFlag, map[], cfg)
    else
      exists r | IsFirstHttpTo(stored, base, r) ::
        if RouteMatches(r, req) then Takes(rules, req, r)
        else forall i | 0 <= i < |rules| :: !RouteMatches(rules[i], req)
  }

  /** So it is for the generated list, for every request whose path starts with a slash. */
  lemma HttpDecides(app: string, subpaths: seq<Subpath>, planes: set<string>, order: seq<string>, stored: seq<HttpRoute>,
                    cfg: RouteConfig, req: Request)
    requires Enumerates(order, FeaturePlanes(planes, cfg)) && "/" <= req.path
    ensures HttpDecided(HttpRules(app, subpaths, order,
                                  if cfg.baseFlag in planes then Some(DefaultHttpRoute(app, stored, cfg)) else None, cfg),
                        app, subpaths, planes, stored, cfg, req)
  {
    var default := DefaultHttpRoute(app, stored, cfg);
    var rules := HttpRules(app, subpaths, order, if cfg.baseFlag in planes then Some(default) else None, cfg);
    var host := Target(app, subpaths, req.path).serviceName;
    RoutingRefinement(app, subpaths, planes, order, default, cfg, req);
    FirstMatchIs(rules, req);
    TargetServes(app, subpaths, req.path);
    if p :| p in planes && p != cfg.baseFlag && Signals(req, p) {
      assert p in Named(planes, cfg, req);
      var q :| q in Named(planes, cfg, req)
               && FirstMatch(rules, req) == Some(PlaneHttpRoute(host, q, Target(app, subpaths, req.path).path, cfg));
      assert LeadsTo(FirstMatch(rules, req).value, host, q, map[X_ENV_FLAG := q], cfg);
    } else {
      assert Named(planes, cfg, req) == {};
      if cfg.baseFlag in planes {
        BaseDecides(rules, app, subpaths, stored, cfg, req);
      }
    }
  }

  /** Once it is known what the base routes make of a request, so it is said. */
  lemma BaseDecides(rules: seq<HttpRoute>, app: string, subpaths: seq<Subpath>, stored: seq<HttpRoute>, cfg: RouteConfig,
                    req: Request)
    requires "/" <= req.path
    requires var s, default := FirstSubpath(subpaths, req.path), DefaultHttpRoute(app, stored, cfg);
             var r := FirstMatch(rules, req);
             if s.Some? then r == Some(BaseHttpRoute(s.value.serviceName, s.value.path, cfg))
             else r == if RouteMatches(default, req) then Some(default) else None
    ensures BaseDecided(rules, app, subpaths, stored, cfg, req)
  {
    FirstMatchIs(rules, req);
    TargetServes(app, subpaths, req.path);
    DefaultDecides(app, stored, cfg, req);
    var s := FirstSubpath(subpaths, req.path);
    if s.Some? {
      assert LeadsTo(FirstMatch(rules, req).value, s.value.serviceName, cfg.baseFlag, map[], cfg);
    }
  }

  /** The default route is the one found for base or, if there is none, takes every request to base. */
  lemma DefaultDecides(app: string, stored: seq<HttpRoute>, cfg: RouteConfig, req: Request)
    requires "/" <= req.path
    ensures var r, base := DefaultHttpRoute(app, stored, cfg), PlaneDestination(app, cfg.baseFlag);
            if forall i | 0 <= i < |stored| :: HostAndSubset(stored[i].destinations) != base
            then RouteMatches(r, req) && LeadsTo(r, app, cfg.baseFlag, map[], cfg)
            else IsFirstHttpTo(stored, base, r)
  {
    FindHttpFirst(stored, app, cfg.baseFlag);
    BaseRouteMatches(app, "/", cfg, req);
  }

  // ----- regeneration -----

  /** The first subpath served by the application itself. */
  function SelfSubpath(app: string, subpaths: seq<Subpath>): Option<Subpath> {
    if subpaths == [] then None
    else if subpaths[0].serviceName == app then Some(subpaths[0])
    else SelfSubpath(app, subpaths[1..])
  }

  lemma {:induction false} NoBaseInPlaneRules(app: string, subpaths: seq<Subpath>, plane: string, cfg: RouteConfig)
    requires plane != cfg.baseFlag
    ensures FindHttp(PlaneRules(app, subpaths, plane, cfg), app, cfg.baseFlag) == None
  {
    SubsetNameInjective(app, plane, cfg.baseFlag);
    if subpaths != [] {
      NoBaseInPlaneRules(app, subpaths[1..], plane, cfg);
      assert PlaneRules(app, subpaths, plane, cfg)[1..] == PlaneRules(app, subpaths[1..], plane, cfg);
    }
  }

  lemma {:induction false} NoBaseInFeatureRules(app: string, subpaths: seq<Subpath>, order: seq<string>, cfg: RouteConfig)
    requires cfg.baseFlag !in order
    ensures FindHttp(FeatureRules(app, subpaths, order, cfg), app, cfg.baseFlag) == None
  {
    if order != [] {
      NoBaseInPlaneRules(app, subpaths, order[0], cfg);
      NoBaseInFeatureRules(app, subpaths, order[1..], cfg);
      FindHttpConcat(PlaneRules(app, subpaths, order[0], cfg), FeatureRules(app, subpaths, order[1..], cfg),
                     app, cfg.baseFlag);
    }
  }

  lemma {:induction false} FindInBaseRules(app: string, subpaths: seq<Subpath>, default: HttpRoute, cfg: RouteConfig)
    requires HostAndSubset(default.destinations) == PlaneDestination(app, cfg.baseFlag)
    ensures var s := SelfSubpath(app, subpaths);
            FindHttp(BaseRules(subpaths, default, cfg), app, cfg.baseFlag)
            == Some(if s.Some? then BaseHttpRoute(app, s.value.path, cfg) else default)
  {
    if subpaths != [] {
      FindInBaseRules(app, subpaths[1..], default, cfg);
      assert BaseRules(subpaths, default, cfg)[1..] == BaseRules(subpaths[1..], default, cfg);
    }
  }

  /** Regenerating from a generated list whose default route was edited by hand (first destination
      untouched) keeps the edit exactly when no subpath is served by the application itself, or the
      first such subpath's base route happens to equal the edited default. */
  lemma RegenerationKeepsDefaultIff(app: string, subpaths: seq<Subpath>, order: seq<string>, edited: HttpRoute,
                                    cfg: RouteConfig)
    requires cfg.baseFlag !in order
    requires HostAndSubset(edited.destinations) == PlaneDestination(app, cfg.baseFlag)
    ensures var s := SelfSubpath(app, subpaths);
            DefaultHttpRoute(app, HttpRules(app, subpaths, order, Some(edited), cfg), cfg) == edited
            <==> s.None? || BaseHttpRoute(app, s.value.path, cfg) == edited
  {
    NoBaseInFeatureRules(app, subpaths, order, cfg);
    FindInBaseRules(app, subpaths, edited, cfg);
    FindHttpConcat(FeatureRules(app, subpaths, order, cfg), BaseRules(subpaths, edited, cfg), app, cfg.baseFlag);
  }

  /** The counterexample: a subpath served by the application itself is found in place of the
      catch-all, which the second generation therefore loses: "/" no longer matches. */
  lemma RegenerationLosesCatchAll(cfg: RouteConfig)
    ensures var subpaths := [Subpath("/v2", "shop", 80)];
            var first := HttpRules("shop", subpaths, [], Some(DefaultHttpRoute("shop", [], cfg)), cfg);
            var second := HttpRules("shop", subpaths, [], Some(DefaultHttpRoute("shop", first, cfg)), cfg);
            var req := Request("/", map[], map[], map[]);
            FirstMatch(first, req).Some? && FirstMatch(second, req) == None
  {
    var subpaths := [Subpath("/v2", "shop", 80)];
    var d1 := DefaultHttpRoute("shop", [], cfg);
    var first := HttpRules("shop", subpaths, [], Some(d1), cfg);
    var d2 := DefaultHttpRoute("shop", first, cfg);
    var req := Request("/", map[], map[], map[]);
    FindInBaseRules("shop", subpaths, d1, cfg);
    assert SelfSubpath("shop", subpaths) == Some(subpaths[0]);
    assert d2 == BaseHttpRoute("shop", "/v2", cfg);
    BaseRouteMatches("shop", "/v2", cfg, req);
    BaseRulesDecide(subpaths, d1, cfg, req);
    BaseRulesDecide(subpaths, d2, cfg, req);
    assert FirstSubpath(subpaths, "/") == None by { assert |"/v2"| > |"/"|; }
    assert first == BaseRules(subpaths, d1, cfg);
    assert HttpRules("shop", subpaths, [], Some(d2), cfg) == BaseRules(subpaths, d2, cfg);
  }

  lemma FeatureRulesMoveFront(app: string, subpaths: seq<Subpath>, front: seq<string>, p: string, back: seq<string>,
                              cfg: RouteConfig)
    ensures multiset(FeatureRules(app, subpaths, front + ([p] + back), cfg))
         == multiset(PlaneRules(app, subpaths, p, cfg)) + multiset(FeatureRules(app, subpaths, front + back, cfg))
  {
    FeatureRulesConcat(app, subpaths, front, back, cfg);
    FeatureRulesConcat(app, subpaths, front, [p] + back, cfg);
    assert ([p] + back)[1..] == back;
  }

  lemma {:induction false} FeatureRulesPermute(app: string, subpaths: seq<Subpath>, o1: seq<string>, o2: seq<string>,
                                              planes: set<string>, cfg: RouteConfig)
    requires Enumerates(o1, planes) && Enumerates(o2, planes)
    ensures multiset(FeatureRules(app, subpaths, o1, cfg)) == multiset(FeatureRules(app, subpaths, o2, cfg))
    decreases planes
  {
    if planes == {} {
      EnumerationLength(o1, planes);
      EnumerationLength(o2, planes);
    } else {
      var p :| p in planes;
      var f1, b1 := EnumerationSplit(o1, planes, p);
      var f2, b2 := EnumerationSplit(o2, planes, p);
      FeatureRulesPermute(app, subpaths, f1 + b1, f2 + b2, planes - {p}, cfg);
      FeatureRulesMoveFront(app, subpaths, f1, p, b1, cfg);
      FeatureRulesMoveFront(app, subpaths, f2, p, b2, cfg);
    }
  }

  /** Without a subpath served by the application itself, a second generation gives the same routes,
      whatever the stored list and the two iteration orders were: only the order of planes differs. */
  lemma RegenerationIdempotent(app: string, subpaths: seq<Subpath>, planes: set<string>, stored: seq<HttpRoute>,
                               o1: seq<string>, o2: seq<string>, cfg: RouteConfig)
    requires Enumerates(o1, FeaturePlanes(planes, cfg)) && Enumerates(o2, FeaturePlanes(planes, cfg))
    requires SelfSubpath(app, subpaths) == None
    ensures var first := HttpRules(app, subpaths, o1, Some(DefaultHttpRoute(app, stored, cfg)), cfg);
            var second := HttpRules(app, subpaths, o2, Some(DefaultHttpRoute(app, first, cfg)), cfg);
            multiset(first) == multiset(second) && (o1 == o2 ==> first == second)
  {
    assert cfg.baseFlag !in o1;
    RegenerationKeepsDefaultIff(app, subpaths, o1, DefaultHttpRoute(app, stored, cfg), cfg);
    FeatureRulesPermute(app, subpaths, o1, o2, FeaturePlanes(planes, cfg), cfg);
  }

  // ----- agreement of routes and subsets -----

  predicate DeclaredIn(d: Destination, subsets: seq<Subset>) {
    exists i | 0 <= i < |subsets| :: subsets[i].name == d.subset
  }

  lemma SubsetNamesDistinct(app: string, order: seq<string>, planes: set<string>)
    requires Enumerates(order, planes)
    ensures forall i, j | 0 <= i < j < |order| :: SubsetsOf(app, order)[i].name != SubsetsOf(app, order)[j].name
    ensures forall p :: DeclaredIn(PlaneDestination(app, p), SubsetsOf(app, order)) <==> p in planes
  {
    var subsets := SubsetsOf(app, order);
    forall i, j | 0 <= i < j < |order| ensures subsets[i].name != subsets[j].name {
      SubsetNameInjective(app, order[i], order[j]);
    }
    forall p ensures DeclaredIn(PlaneDestination(app, p), subsets) <==> p in planes {
      if DeclaredIn(PlaneDestination(app, p), subsets) {
        var i :| 0 <= i < |subsets| && subsets[i].name == SubsetName(app, p);
        SubsetNameInjective(app, order[i], p);
        assert order[i] in order;
      }
      if p in planes {
        assert p in order;
        var i :| 0 <= i < |order| && order[i] == p;
        assert subsets[i].name == SubsetName(app, p);
      }
    }
  }

  /** A subset of the DestinationRule selects the pods whose version label is its plane, and no others. */
  lemma SubsetSelects(app: string, order: seq<string>, i: nat, labels: StringMap)
    requires i < |order|
    ensures var subset := SubsetsOf(app, order)[i];
            && subset.name == SubsetName(app, order[i])
            && ((forall k | k in subset.labels :: HasLabel(labels, k, subset.labels[k]))
                <==> HasLabel(labels, PLANE_KEY, order[i]))
  {
    assert PLANE_KEY in SubsetsOf(app, order)[i].labels;
  }

  lemma {:induction false} PlaneRulesDestinations(app: string, subpaths: seq<Subpath>, plane: string, cfg: RouteConfig)
    ensures PlaneHttpRoute(app, plane, "/", cfg) in PlaneRules(app, subpaths, plane, cfg)
    ensures forall r | r in PlaneRules(app, subpaths, plane, cfg) ::
              exists host :: HostAndSubset(r.destinations) == PlaneDestination(host, plane)
  {
    if subpaths == [] {
      assert HostAndSubset(PlaneHttpRoute(app, plane, "/", cfg).destinations) == PlaneDestination(app, plane);
    } else {
      var r := PlaneHttpRoute(subpaths[0].serviceName, plane, subpaths[0].path, cfg);
      assert HostAndSubset(r.destinations) == PlaneDestination(subpaths[0].serviceName, plane);
      PlaneRulesDestinations(app, subpaths[1..], plane, cfg);
    }
  }

  lemma {:induction false} FeatureRulesDestinations(app: string, subpaths: seq<Subpath>,
      order: seq<string>, cfg: RouteConfig)
    ensures forall p | p in order :: PlaneHttpRoute(app, p, "/", cfg) in FeatureRules(app, subpaths, order, cfg)
    ensures forall r | r in FeatureRules(app, subpaths, order, cfg) ::
              exists host, p | p in order :: HostAndSubset(r.destinations) == PlaneDestination(host, p)
  {
    if order != [] {
      PlaneRulesDestinations(app, subpaths, order[0], cfg);
      FeatureRulesDestinations(app, subpaths, order[1..], cfg);
      forall r | r in FeatureRules(app, subpaths, order, cfg)
        ensures exists host, p | p in order :: HostAndSubset(r.destinations) == PlaneDestination(host, p)
      {
        if r in PlaneRules(app, subpaths, order[0], cfg) {
          var host :| HostAndSubset(r.destinations) == PlaneDestination(host, order[0]);
          assert order[0] in order;
        } else {
          var host, p :| p in order[1..] && HostAndSubset(r.destinations) == PlaneDestination(host, p);
          assert p in order;
        }
      }
    }
  }

  lemma {:induction false} BaseRulesDestinations(subpaths: seq<Subpath>, default: HttpRoute, cfg: RouteConfig)
    ensures default in BaseRules(subpaths, default, cfg)
    ensures forall r | r in BaseRules(subpaths, default, cfg) ::
              r == default || exists host :: HostAndSubset(r.destinations) == PlaneDestination(host, cfg.baseFlag)
  {
    if subpaths != [] {
      var r := BaseHttpRoute(subpaths[0].serviceName, subpaths[0].path, cfg);
      assert HostAndSubset(r.destinations) == PlaneDestination(subpaths[0].serviceName, cfg.baseFlag);
      BaseRulesDestinations(subpaths[1..], default, cfg);
    }
  }

  /** Every subset is used by some route. */
  predicate AllUsed(app: string, subsets: seq<Subset>, rules: seq<HttpRoute>) {
    forall s | s in subsets :: exists r | r in rules :: HostAndSubset(r.destinations) == Destination(app, s.name)
  }

  /** Every route to the application uses a declared subset. */
  predicate AllDeclared(app: string, subsets: seq<Subset>, rules: seq<HttpRoute>) {
    forall r | r in rules && HostAndSubset(r.destinations).host == app :: DeclaredIn(HostAndSubset(r.destinations), subsets)
  }

  lemma HttpRoutesDeclared(app: string, subpaths: seq<Subpath>, planes: set<string>, order: seq<string>,
                           subsetOrder: seq<string>, default: HttpRoute, cfg: RouteConfig)
    requires Enumerates(order, FeaturePlanes(planes, cfg)) && Enumerates(subsetOrder, planes)
    requires HostAndSubset(default.destinations) == PlaneDestination(app, cfg.baseFlag)
    ensures AllDeclared(app, SubsetsOf(app, subsetOrder),
                        HttpRules(app, subpaths, order, if cfg.baseFlag in planes then Some(default) else None, cfg))
  {
    var rules := HttpRules(app, subpaths, order, if cfg.baseFlag in planes then Some(default) else None, cfg);
    var subsets := SubsetsOf(app, subsetOrder);
    SubsetNamesDistinct(app, subsetOrder, planes);
    FeatureRulesDestinations(app, subpaths, order, cfg);
    BaseRulesDestinations(subpaths, default, cfg);
    forall r | r in rules && HostAndSubset(r.destinations).host == app
      ensures DeclaredIn(HostAndSubset(r.destinations), subsets)
    {
      if r in FeatureRules(app, subpaths, order, cfg) {
        var host, p :| p in order && HostAndSubset(r.destinations) == PlaneDestination(host, p);
        assert DeclaredIn(PlaneDestination(app, p), subsets);
      } else {
        assert DeclaredIn(PlaneDestination(app, cfg.baseFlag), subsets);
      }
    }
  }

  lemma HttpSubsetsUsed(app: string, subpaths: seq<Subpath>, planes: set<string>, order: seq<string>,
                        subsetOrder: seq<string>, default: HttpRoute, cfg: RouteConfig)
    requires Enumerates(order, FeaturePlanes(planes, cfg)) && Enumerates(subsetOrder, planes)
    requires HostAndSubset(default.destinations) == PlaneDestination(app, cfg.baseFlag)
    ensures AllUsed(app, SubsetsOf(app, subsetOrder),
                    HttpRules(app, subpaths, order, if cfg.baseFlag in planes then Some(default) else None, cfg))
  {
    var rules := HttpRules(app, subpaths, order, if cfg.baseFlag in planes then Some(default) else None, cfg);
    var subsets := SubsetsOf(app, subsetOrder);
    FeatureRulesDestinations(app, subpaths, order, cfg);
    BaseRulesDestinations(subpaths, default, cfg);
    forall s | s in subsets
      ensures exists r | r in rules :: HostAndSubset(r.destinations) == Destination(app, s.name)
    {
      var i :| 0 <= i < |subsets| && subsets[i] == s;
      var p := subsetOrder[i];
      assert p in subsetOrder;
      var r := if p == cfg.baseFlag then default else PlaneHttpRoute(app, p, "/", cfg);
      assert p != cfg.baseFlag ==> p in order;
      assert r in rules && HostAndSubset(r.destinations) == Destination(app, s.name);
    }
  }

  /** The HTTP routes and the DestinationRule agree: every route whose first destination is the
      application uses a declared subset, and every declared subset is used by such a route. */
  lemma HttpSubsetClosure(app: string, subpaths: seq<Subpath>, planes: set<string>, order: seq<string>,
                          subsetOrder: seq<string>, stored: seq<HttpRoute>, cfg: RouteConfig)
    requires Enumerates(order, FeaturePlanes(planes, cfg)) && Enumerates(subsetOrder, planes)
    ensures var rules := HttpRules(app, subpaths, order,
                                   if cfg.baseFlag in planes then Some(DefaultHttpRoute(app, stored, cfg)) else None, cfg);
            AllDeclared(app, SubsetsOf(app, subsetOrder), rules) && AllUsed(app, SubsetsOf(app, subsetOrder), rules)
  {
    HttpRoutesDeclared(app, subpaths, planes, order, subsetOrder, DefaultHttpRoute(app, stored, cfg), cfg);
    HttpSubsetsUsed(app, subpaths, planes, order, subsetOrder, DefaultHttpRoute(app, stored, cfg), cfg);
  }

  lemma {:induction false} FindTcpDestination(routes: seq<TcpRoute>, host: string, plane: string)
    ensures var r := FindTcp(routes, host, plane);
            r.Some? ==> HostAndSubset(r.value.destinations) == PlaneDestination(host, plane)
  {
    if routes != [] {
      FindTcpDestination(routes[1..], host, plane);
    }
  }

  lemma {:induction false} TcpRulesDestinations(app: string, order: seq<string>, default: Option<TcpRoute>)
    ensures forall p | p in order :: PlaneTcpRoute(app, p) in TcpRules(app, order, default)
    ensures default.Some? ==> default.value in TcpRules(app, order, default)
    ensures forall r | r in TcpRules(app, order, default) ::
              Some(r) == default || exists p | p in order :: r == PlaneTcpRoute(app, p)
  {
    if order != [] {
      TcpRulesDestinations(app, order[1..], default);
      assert order[0] in order;
    }
  }

  lemma TcpSubsetClosure(app: string, planes: set<string>, order: seq<string>, subsetOrder: seq<string>,
                         stored: seq<TcpRoute>, cfg: RouteConfig)
    requires Enumerates(order, FeaturePlanes(planes, cfg)) && Enumerates(subsetOrder, planes)
    ensures var rules := TcpRules(app, order,
                                  if cfg.baseFlag in planes then Some(DefaultTcpRoute(app, stored, cfg)) else None);
            var subsets := SubsetsOf(app, subsetOrder);
            && (forall r | r in rules :: HostAndSubset(r.destinations).host == app
                                         && DeclaredIn(HostAndSubset(r.destinations), subsets))
            && (forall s | s in subsets :: exists r | r in rules ::
                HostAndSubset(r.destinations) == Destination(app, s.name))
  {
    var d := DefaultTcpRoute(app, stored, cfg);
    FindTcpDestination(stored, app, cfg.baseFlag);
    var default := if cfg.baseFlag in planes then Some(d) else None;
    var rules := TcpRules(app, order, default);
    var subsets := SubsetsOf(app, subsetOrder);
    SubsetNamesDistinct(app, subsetOrder, planes);
    TcpRulesDestinations(app, order, default);
    assert HostAndSubset(d.destinations) == PlaneDestination(app, cfg.baseFlag);
    forall r | r in rules
      ensures HostAndSubset(r.destinations).host == app && DeclaredIn(HostAndSubset(r.destinations), subsets)
    {
      if Some(r) != default {
        var p :| p in order && r == PlaneTcpRoute(app, p);
        assert p in planes;
        assert DeclaredIn(PlaneDestination(app, p), subsets);
      } else {
        assert DeclaredIn(PlaneDestination(app, cfg.baseFlag), subsets);
      }
    }
    forall s | s in subsets
      ensures exists r | r in rules :: HostAndSubset(r.destinations) == Destination(app, s.name)
    {
      var i :| 0 <= i < |subsets| && subsets[i] == s;
      var p := subsetOrder[i];
      assert p in subsetOrder;
      var r := if p == cfg.baseFlag then d else PlaneTcpRoute(app, p);
      if p != cfg.baseFlag {
        assert p in order;
      }
      assert r in rules;
      assert HostAndSubset(r.destinations) == Destination(app, s.name);
    }
  }
}
