/** Plane colouring over call chains: what happens to a request that carries the environment flag
    when every service it visits forwards the flag to the services it calls. */
module Colouring {
  import opened Common
  import opened Names
  import opened Routing
  import opened VirtualService

  /** One application of the mesh: its routing inputs, the iteration orders its two generated
      objects happen to have, and the default route of its base plane. */
  datatype Service = Service(subpaths: seq<Subpath>, planes: set<string>, routeOrder: seq<string>,
                             subsetOrder: seq<string>, default: HttpRoute)

  type Mesh = map<string, Service>

  /** The default routes are catch-alls that leave the flag alone, as the generated one does. */
  ghost predicate ValidService(app: string, s: Service, cfg: RouteConfig) {
    && cfg.baseFlag in s.planes
    && Enumerates(s.routeOrder, FeaturePlanes(s.planes, cfg))
    && Enumerates(s.subsetOrder, s.planes)
    && HostAndSubset(s.default.destinations) == PlaneDestination(app, cfg.baseFlag)
    && s.default.matches == []
    && X_ENV_FLAG !in s.default.setHeaders
  }

  ghost predicate ValidMesh(mesh: Mesh, cfg: RouteConfig) {
    forall app | app in mesh :: ValidService(app, mesh[app], cfg)
  }

  /** A pod that a request has reached; `plane` is the pod's plane label and `flag` the value of
      the environment header it received. The first caller may have neither. */
  datatype Visit = Visit(host: string, plane: Option<string>, flag: Option<string>)

  /** A call made by a visited pod. The pod forwards the flag it received. */
  datatype Call = Call(host: string, path: string, headers: StringMap, query: StringMap)

  function RequestOf(from: Visit, call: Call): Request {
    Request(call.path,
            if from.flag.Some? then call.headers[X_ENV_FLAG := from.flag.value] else call.headers,
            call.query,
            if from.plane.Some? then map[PLANE_KEY := from.plane.value] else map[])
  }

  function SubsetLabels(subsets: seq<Subset>, name: string): Option<StringMap> {
    if subsets == [] then None
    else if subsets[0].name == name then Some(subsets[0].labels)
    else SubsetLabels(subsets[1..], name)
  }

  function RouteOf(mesh: Mesh, cfg: RouteConfig, from: Visit, call: Call): Option<HttpRoute>
    requires call.host in mesh
  {
    var s := mesh[call.host];
    FirstMatch(HttpRules(call.host, s.subpaths, s.routeOrder, Some(s.default), cfg), RequestOf(from, call))
  }

  /** One hop: the callee's route list picks a destination, the DestinationRule of that destination
      picks the pods, and the route's header operation is applied to what they receive. */
  function Hop(mesh: Mesh, cfg: RouteConfig, from: Visit, call: Call): Option<Visit> {
    if call.host !in mesh then None
    else
      var req := RequestOf(from, call);
      var route := RouteOf(mesh, cfg, from, call);
      if route.None? then None
      else
        var d := HostAndSubset(route.value.destinations);
        if d.host !in mesh then None
        else
          var labels := SubsetLabels(SubsetsOf(d.host, mesh[d.host].subsetOrder), d.subset);
          if labels.None? then None
          else
            var received := req.headers + route.value.setHeaders;
            Some(Visit(d.host,
                       if PLANE_KEY in labels.value then Some(labels.value[PLANE_KEY]) else None,
                       if X_ENV_FLAG in received then Some(received[X_ENV_FLAG]) else None))
  }

  /** The visits of a call chain, up to the first hop that finds no pods. */
  function Chain(mesh: Mesh, cfg: RouteConfig, from: Visit, calls: seq<Call>): (visits: seq<Visit>)
    ensures |visits| <= |calls|
    decreases |calls|
  {
    if calls == [] then []
    else
      var next := Hop(mesh, cfg, from, calls[0]);
      if next.None? then [] else [next.value] + Chain(mesh, cfg, next.value, calls[1..])
  }

  lemma {:induction false} SubsetLabelsFound(app: string, order: seq<string>, plane: string)
    ensures SubsetLabels(SubsetsOf(app, order), SubsetName(app, plane))
         == if plane in order then Some(map[PLANE_KEY := plane]) else None
  {
    if order != [] {
      SubsetNameInjective(app, order[0], plane);
      SubsetLabelsFound(app, order[1..], plane);
      assert SubsetsOf(app, order)[1..] == SubsetsOf(app, order[1..]);
    }
  }

  /** A visit of colour `p`: the flag is `p`, and the pod belongs to `p`, to base, or has no plane. */
  predicate Coloured(v: Visit, p: string, cfg: RouteConfig) {
    && v.flag == Some(p)
    && (v.plane.Some? ==> v.plane.value in {p, cfg.baseFlag})
  }

  /** A call to an application of the mesh whose query, if it carries the flag at all, does not
      contradict the colour. */
  predicate ProperCall(mesh: Mesh, call: Call, p: string, cfg: RouteConfig) {
    && call.host in mesh
    && "/" <= call.path
    && (X_ENV_FLAG in call.query ==> call.query[X_ENV_FLAG] in {p, cfg.baseFlag})
  }

  function ChosenPlane(mesh: Mesh, app: string, p: string, cfg: RouteConfig): string
    requires app in mesh
  {
    if p in mesh[app].planes then p else cfg.baseFlag
  }

  lemma ColouredNames(mesh: Mesh, cfg: RouteConfig, from: Visit, call: Call, p: string)
    requires Coloured(from, p, cfg) && ProperCall(mesh, call, p, cfg) && p != cfg.baseFlag
    ensures Named(mesh[call.host].planes, cfg, RequestOf(from, call))
         == if p in mesh[call.host].planes then {p} else {}
  {
  }

  /** The route chosen for a coloured request: its destination, and that it leaves or sets the flag. */
  lemma ColouredRoute(mesh: Mesh, cfg: RouteConfig, from: Visit, call: Call, p: string)
    requires call.host in mesh && ValidService(call.host, mesh[call.host], cfg) && p != cfg.baseFlag
    requires Coloured(from, p, cfg) && ProperCall(mesh, call, p, cfg)
    ensures var t := Target(call.host, mesh[call.host].subpaths, call.path).serviceName;
            var route := RouteOf(mesh, cfg, from, call);
            && route.Some?
            && HostAndSubset(route.value.destinations) == PlaneDestination(t, ChosenPlane(mesh, call.host, p, cfg))
            && (X_ENV_FLAG in route.value.setHeaders ==> route.value.setHeaders[X_ENV_FLAG] == p)
  {
    var s := mesh[call.host];
    var req := RequestOf(from, call);
    ColouredNames(mesh, cfg, from, call, p);
    RoutingRefinement(call.host, s.subpaths, s.planes, s.routeOrder, s.default, cfg, req);
    if p in s.planes {
      assert p in Named(s.planes, cfg, req);
    }
  }

  /** One hop of a coloured request, exactly: it reaches the first matching subpath's service, else
      the called application, in plane `p` if the called application has `p` and in base otherwise,
      and it is lost only when that service lacks that plane. */
  lemma ColouredHop(mesh: Mesh, cfg: RouteConfig, from: Visit, call: Call, p: string)
    requires ValidMesh(mesh, cfg) && p != cfg.baseFlag
    requires Coloured(from, p, cfg) && ProperCall(mesh, call, p, cfg)
    ensures var t := Target(call.host, mesh[call.host].subpaths, call.path).serviceName;
            var q := ChosenPlane(mesh, call.host, p, cfg);
            Hop(mesh, cfg, from, call)
            == if t in mesh && q in mesh[t].planes then Some(Visit(t, Some(q), Some(p))) else None
  {
    assert ValidService(call.host, mesh[call.host], cfg);
    ColouredRoute(mesh, cfg, from, call, p);
    var t := Target(call.host, mesh[call.host].subpaths, call.path).serviceName;
    var q := ChosenPlane(mesh, call.host, p, cfg);
    assert (RequestOf(from, call).headers + RouteOf(mesh, cfg, from, call).value.setHeaders)[X_ENV_FLAG] == p;
    if t in mesh {
      assert ValidService(t, mesh[t], cfg);
      SubsetLabelsFound(t, mesh[t].subsetOrder, q);
    }
  }

  /** The visit a coloured call should lead to. */
  function ExpectedVisit(mesh: Mesh, call: Call, p: string, cfg: RouteConfig): Visit
    requires call.host in mesh
  {
    Visit(Target(call.host, mesh[call.host].subpaths, call.path).serviceName,
          Some(ChosenPlane(mesh, call.host, p, cfg)), Some(p))
  }

  /** The `i`-th visit of a chain of calls is the expected one. */
  ghost predicate VisitsExpected(mesh: Mesh, visits: seq<Visit>, calls: seq<Call>, p: string, cfg: RouteConfig) {
    && |visits| <= |calls|
    && forall i | 0 <= i < |visits| :: calls[i].host in mesh && visits[i] == ExpectedVisit(mesh, calls[i], p, cfg)
  }

  lemma ExpectedStep(mesh: Mesh, visit: Visit, rest: seq<Visit>, calls: seq<Call>, p: string, cfg: RouteConfig)
    requires calls != [] && calls[0].host in mesh && visit == ExpectedVisit(mesh, calls[0], p, cfg)
    requires VisitsExpected(mesh, rest, calls[1..], p, cfg)
    ensures VisitsExpected(mesh, [visit] + rest, calls, p, cfg)
  {
    var visits := [visit] + rest;
    forall i | 0 <= i < |visits| ensures calls[i].host in mesh && visits[i] == ExpectedVisit(mesh, calls[i], p, cfg) {
      if i > 0 {
        assert calls[i] == calls[1..][i - 1] && visits[i] == rest[i - 1];
      }
    }
  }

  /** Plane colouring: however long the chain, every visit of a request coloured `p` is in `p` when
      the called application has `p` and in base otherwise, and still carries the flag `p`. */
  lemma {:induction false} ColouringOfChains(mesh: Mesh, cfg: RouteConfig, from: Visit, calls: seq<Call>, p: string)
    requires ValidMesh(mesh, cfg) && p != cfg.baseFlag && Coloured(from, p, cfg)
    requires forall i | 0 <= i < |calls| :: ProperCall(mesh, calls[i], p, cfg)
    ensures VisitsExpected(mesh, Chain(mesh, cfg, from, calls), calls, p, cfg)
    decreases |calls|
  {
    if calls != [] {
      assert ProperCall(mesh, calls[0], p, cfg);
      ColouredHop(mesh, cfg, from, calls[0], p);
      var next := Hop(mesh, cfg, from, calls[0]);
      if next.Some? {
        ColouringOfChains(mesh, cfg, next.value, calls[1..], p);
        ExpectedStep(mesh, next.value, Chain(mesh, cfg, next.value, calls[1..]), calls, p, cfg);
      }
    }
  }

  /** Every subpath leads to a service that has all the planes of the application listing it. */
  predicate SubpathsDeployed(mesh: Mesh) {
    forall app, i | app in mesh && 0 <= i < |mesh[app].subpaths| ::
      && mesh[app].subpaths[i].serviceName in mesh
      && mesh[app].planes <= mesh[mesh[app].subpaths[i].serviceName].planes
  }

  /** When subpath services have the planes of the applications listing them, no hop is lost. */
  lemma {:induction false} ChainsComplete(mesh: Mesh, cfg: RouteConfig, from: Visit, calls: seq<Call>, p: string)
    requires ValidMesh(mesh, cfg) && p != cfg.baseFlag && Coloured(from, p, cfg)
    requires forall i | 0 <= i < |calls| :: ProperCall(mesh, calls[i], p, cfg)
    requires SubpathsDeployed(mesh)
    ensures |Chain(mesh, cfg, from, calls)| == |calls|
    decreases |calls|
  {
    if calls != [] {
      ColouredHop(mesh, cfg, from, calls[0], p);
      var s := mesh[calls[0].host];
      assert ValidService(calls[0].host, s, cfg);
      assert FirstSubpath(s.subpaths, calls[0].path).Some? ==>
          exists i | 0 <= i < |s.subpaths| :: FirstSubpath(s.subpaths, calls[0].path).value == s.subpaths[i];
      var rest := calls[1..];
      assert forall i | 0 <= i < |rest| :: rest[i] == calls[i + 1];
      ChainsComplete(mesh, cfg, Hop(mesh, cfg, from, calls[0]).value, rest, p);
    }
  }

  const FRONT_SUBPATH := Subpath("/v4", "sales", 80)

  /** Two applications: "front" is deployed in plane `p`, its subpath service "sales" is not. */
  function PartialMesh(cfg: RouteConfig, p: string): Mesh {
    map["front" := Service([FRONT_SUBPATH], {p, cfg.baseFlag}, [p], [p, cfg.baseFlag], BaseHttpRoute("front", "/", cfg)),
        "sales" := Service([], {cfg.baseFlag}, [], [cfg.baseFlag], BaseHttpRoute("sales", "/", cfg))]
  }

  lemma PartialMeshValid(cfg: RouteConfig, p: string)
    requires p != cfg.baseFlag
    ensures ValidMesh(PartialMesh(cfg, p), cfg)
  {
  }

  /** That hypothesis is needed: an application with plane `p` whose subpath service has only base
      sends a coloured request to a subset the service's DestinationRule does not declare. */
  lemma SubpathHopLost(cfg: RouteConfig, p: string)
    requires p != cfg.baseFlag
    ensures ValidMesh(PartialMesh(cfg, p), cfg)
    ensures Hop(PartialMesh(cfg, p), cfg, Visit("", None, Some(p)), Call("front", "/v4", map[], map[])) == None
  {
    var mesh := PartialMesh(cfg, p);
    PartialMeshValid(cfg, p);
    assert FirstSubpath(mesh["front"].subpaths, "/v4") == Some(FRONT_SUBPATH);
    assert p !in mesh["sales"].planes;
    ColouredHop(mesh, cfg, Visit("", None, Some(p)), Call("front", "/v4", map[], map[]), p);
  }
}
