/** Status aggregation by the Deployment controller, as a concurrent protocol. The controller works
    on one Deployment at a time in small steps (list, write the application, list, write the
    plane, drop the finalizer); between any two of them Deployments, applications and planes may be
    created, edited and deleted by others, and any step may fail and be retried. */
module Status {
  import opened Common
  import opened Objects

  // ----- the aggregated views -----

  datatype View = View(planes: map<string, int>, mirrors: map<string, int>)

  type DeploymentMap = map<string, Deployment>

  /** The non-deleting Deployments carrying the label. */
  function LiveWith(deps: DeploymentMap, key: string, value: string): set<string> {
    set d | d in deps && !deps[d].deleting && HasLabel(deps[d].labels, key, value)
  }

  function Ones(names: set<string>): map<string, int> {
    map n | n in names :: 1
  }

  /** The two aggregations: the label that is listed, and the phase of the worker after listing. */
  datatype Side = ApplicationSide | PlaneSide {
    function Key(): string {
      if ApplicationSide? then APP_KEY else PLANE_KEY
    }

    function Phase(): nat {
      if ApplicationSide? then 1 else 3
    }
  }

  function PlanesOf(deps: DeploymentMap, names: set<string>): set<string>
    requires names <= deps.Keys
  {
    set d | d in names && PLANE_KEY in deps[d].labels :: deps[d].labels[PLANE_KEY]
  }

  /** What the status of `name` should say. A plane's status has mirrors only. */
  function ViewOf(deps: DeploymentMap, side: Side, name: string): View {
    var live := LiveWith(deps, side.Key(), name);
    View(if side.ApplicationSide? then Ones(PlanesOf(deps, live)) else map[], Ones(live))
  }

  // ----- what the two maps mean -----

  /** The mirrors name the stored Deployments that carry the label and are not being deleted. */
  ghost predicate MirrorsExact(deps: DeploymentMap, key: string, value: string, mirrors: map<string, int>) {
    forall d ::
      && (d in mirrors <==> d in deps && !deps[d].deleting && HasLabel(deps[d].labels, key, value))
      && (d in mirrors ==> mirrors[d] == 1)
  }

  /** The planes are the values of the version label that those Deployments carry. */
  ghost predicate PlanesExact(deps: DeploymentMap, key: string, value: string, planes: map<string, int>) {
    forall p ::
      && (p in planes <==> exists d | d in deps ::
            !deps[d].deleting && HasLabel(deps[d].labels, key, value) && HasLabel(deps[d].labels, PLANE_KEY, p))
      && (p in planes ==> planes[p] == 1)
  }

  /** Two maps mean that exactly when they are the aggregated view. */
  lemma ExactIff(deps: DeploymentMap, side: Side, name: string, v: View)
    ensures v == ViewOf(deps, side, name)
            <==> && MirrorsExact(deps, side.Key(), name, v.mirrors)
                 && (if side.ApplicationSide? then PlanesExact(deps, side.Key(), name, v.planes) else v.planes == map[])
  {
    MirrorsIff(deps, side.Key(), name, v.mirrors);
    PlanesIff(deps, side.Key(), name, v.planes);
  }

  lemma MirrorsIff(deps: DeploymentMap, key: string, value: string, mirrors: map<string, int>)
    ensures mirrors == Ones(LiveWith(deps, key, value)) <==> MirrorsExact(deps, key, value, mirrors)
  {
    if MirrorsExact(deps, key, value, mirrors) {
      SameOnes(mirrors, LiveWith(deps, key, value));
    }
  }

  lemma SameOnes(m: map<string, int>, names: set<string>)
    requires forall n :: (n in m <==> n in names) && (n in m ==> m[n] == 1)
    ensures m == Ones(names)
  {
  }

  lemma PlanesIff(deps: DeploymentMap, key: string, value: string, planes: map<string, int>)
    ensures planes == Ones(PlanesOf(deps, LiveWith(deps, key, value))) <==> PlanesExact(deps, key, value, planes)
  {
    var all := PlanesOf(deps, LiveWith(deps, key, value));
    forall p ensures p in all <==> exists d | d in deps ::
        !deps[d].deleting && HasLabel(deps[d].labels, key, value) && HasLabel(deps[d].labels, PLANE_KEY, p)
    {
    }
    if PlanesExact(deps, key, value, planes) {
      SameOnes(planes, all);
    }
  }

  // ----- the world -----

  /** `Busy(name, seen, phase, listed)`: the worker read the Deployment as `seen`; phase 0 is before
      the first list, 1 and 3 are after a list, 2 and 4 are after the write that follows it. */
  datatype Worker = Idle | Busy(name: string, seen: Deployment, phase: nat, listed: View)

  datatype Cluster = Cluster(deps: DeploymentMap, apps: map<string, Application>, planes: map<string, Plane>)

  datatype World = World(c: Cluster, queue: set<string>, worker: Worker)

  /** The stored status of a live application or plane. */
  function StatusOf(c: Cluster, side: Side, name: string): Option<View> {
    if name == "" then None
    else if side.ApplicationSide? then
      if name in c.apps && !c.apps[name].deleting then Some(View(c.apps[name].planes, c.apps[name].mirrors)) else None
    else
      if name in c.planes && !c.planes[name].deleting then Some(View(map[], c.planes[name].mirrors)) else None
  }

  /** Writing a status; nothing is written to a missing or deleting object. */
  function WriteStatus(c: Cluster, side: Side, name: string, v: View): Cluster {
    if StatusOf(c, side, name).None? then c
    else if side.ApplicationSide? then c.(apps := c.apps[name := c.apps[name].(planes := v.planes, mirrors := v.mirrors)])
    else c.(planes := c.planes[name := c.planes[name].(mirrors := v.mirrors)])
  }

  function SideAt(phase: nat): Side {
    if phase <= 1 then ApplicationSide else PlaneSide
  }

  function NameFor(d: Deployment, side: Side): string {
    Lookup(d.labels, side.Key())
  }

  /** Dropping our finalizer from a deleting Deployment removes it from the store. */
  function DropFinalizer(c: Cluster, name: string): Cluster {
    c.(deps := c.deps - {name})
  }

  /** The next small step of the worker. */
  function Advance(c: Cluster, w: Worker): (Cluster, Worker)
    requires w.Busy?
  {
    var side := SideAt(w.phase);
    if w.phase == 0 || w.phase == 2 then
      (c, w.(phase := w.phase + 1, listed := ViewOf(c.deps, SideAt(w.phase + 1), NameFor(w.seen, SideAt(w.phase + 1)))))
    else if w.phase == 1 || w.phase == 3 then
      (WriteStatus(c, side, NameFor(w.seen, side), w.listed), w.(phase := w.phase + 1))
    else (if w.seen.deleting then DropFinalizer(c, w.name) else c, Idle)
  }

  /** `n` small steps, or fewer when the worker finishes. */
  function AdvanceMany(c: Cluster, w: Worker, n: nat): (Cluster, Worker)
    decreases n
  {
    if n == 0 || w.Idle? then (c, w)
    else var r := Advance(c, w); AdvanceMany(r.0, r.1, n - 1)
  }

  // ----- the handler -----

  class StatusStore {
    var deps: DeploymentMap
    var apps: map<string, Application>
    var planes: map<string, Plane>

    constructor (c: Cluster)
      ensures Value() == c
    {
      deps, apps, planes := c.deps, c.apps, c.planes;
    }

    function Value(): Cluster
      reads this
    {
      Cluster(deps, apps, planes)
    }

    /** Lists the Deployments with a label and fills the two maps from the live ones. */
    method Aggregate(key: string, value: string) returns (planeMap: map<string, int>, mirrors: map<string, int>)
      ensures MirrorsExact(deps, key, value, mirrors) && PlanesExact(deps, key, value, planeMap)
    {
      planeMap, mirrors := map[], map[];
      var items := set d | d in deps && HasLabel(deps[d].labels, key, value);
      ghost var done: set<string> := {};
      while items != {}
        invariant done <= deps.Keys && items <= deps.Keys
        invariant done + items == set d | d in deps && HasLabel(deps[d].labels, key, value)
        invariant mirrors == Ones(set d | d in done && !deps[d].deleting)
        invariant planeMap == Ones(PlanesOf(deps, set d | d in done && !deps[d].deleting))
      {
        var d :| d in items;
        if !deps[d].deleting {
          mirrors := mirrors[d := 1];
          if PLANE_KEY in deps[d].labels {
            planeMap := planeMap[deps[d].labels[PLANE_KEY] := 1];
          }
        }
        items, done := items - {d}, done + {d};
      }
      assert (set d | d in done && !deps[d].deleting) == LiveWith(deps, key, value);
      MirrorsIff(deps, key, value, mirrors);
      PlanesIff(deps, key, value, planeMap);
    }

    /** `Operate`: any request to the API server may fail; then the error is returned and what was
        written stays. Without an error all five small steps were taken. */
    method Operate(name: string) returns (error: bool)
      requires name in deps
      modifies this
      ensures !error ==> Value() == AdvanceMany(old(Value()), Busy(name, old(deps)[name], 0, View(map[], map[])), 5).0
      ensures !error ==> Aggregated(old(Value()), name, Value())
      ensures error ==> exists n | 0 <= n < 5 ::
                Value() == AdvanceMany(old(Value()), Busy(name, old(deps)[name], 0, View(map[], map[])), n).0
    {
      ghost var c0, w0 := Value(), Busy(name, deps[name], 0, View(map[], map[]));
      StepsAggregate(c0, name);
      var seen := deps[name];
      var fails: bool := *;
      AdvanceUnfold(c0, w0);
      error := UpdateSide(ApplicationSide, Lookup(seen.labels, APP_KEY));
      if error {
        assert Value() == AdvanceMany(c0, w0, 0).0;
        return;
      }
      ghost var c2 := Value();
      assert c2 == AdvanceMany(c0, w0, 2).0;
      error := UpdateSide(PlaneSide, Lookup(seen.labels, PLANE_KEY));
      if error {
        return;
      }
      assert Value() == AdvanceMany(c0, w0, 4).0;
      if seen.deleting {
        if fails {
          return true;
        }
        deps := deps - {name};
      }
    }

    /** Aggregates one label and writes the status of the object it names. */
    method UpdateSide(side: Side, name: string) returns (error: bool)
      modifies this`apps, this`planes
      ensures error ==> Value() == old(Value())
      ensures !error ==> Value() == WriteStatus(old(Value()), side, name, ViewOf(old(deps), side, name))
    {
      error := *;
      if error || name == "" {
        return error && name != "";
      }
      var planeMap, mirrors := Aggregate(side.Key(), name);
      ExactIff(deps, side, name, View(if side.ApplicationSide? then planeMap else map[], mirrors));
      if side.ApplicationSide? {
        if name in apps && !apps[name].deleting {
          apps := apps[name := apps[name].(planes := planeMap, mirrors := mirrors)];
        }
      } else {
        if name in planes && !planes[name].deleting {
          planes := planes[name := planes[name].(mirrors := mirrors)];
        }
      }
    }
  }

  /** What a reconcile of Deployment `name` makes of the store: the live application and plane that its
      labels name get the aggregated maps, a Deployment that is being deleted goes, and everything else
      stays. */
  ghost predicate Aggregated(c: Cluster, name: string, d: Cluster)
    requires name in c.deps
  {
    var seen := c.deps[name];
    && d.deps == (if seen.deleting then c.deps - {name} else c.deps)
    && d.apps.Keys == c.apps.Keys && d.planes.Keys == c.planes.Keys
    && (forall a | a in c.apps :: ApplicationAggregated(c.deps, seen, a, c.apps[a], d.apps[a]))
    && (forall p | p in c.planes :: PlaneAggregated(c.deps, seen, p, c.planes[p], d.planes[p]))
  }

  ghost predicate ApplicationAggregated(deps: DeploymentMap, seen: Deployment, a: string, app: Application,
                                        after: Application) {
    if a != "" && HasLabel(seen.labels, APP_KEY, a) && !app.deleting then
      && after == app.(planes := after.planes, mirrors := after.mirrors)
      && MirrorsExact(deps, APP_KEY, a, after.mirrors) && PlanesExact(deps, APP_KEY, a, after.planes)
    else after == app
  }

  ghost predicate PlaneAggregated(deps: DeploymentMap, seen: Deployment, p: string, plane: Plane, after: Plane) {
    if p != "" && HasLabel(seen.labels, PLANE_KEY, p) && !plane.deleting then
      after == plane.(mirrors := after.mirrors) && MirrorsExact(deps, PLANE_KEY, p, after.mirrors)
    else after == plane
  }

  /** The five small steps together have that effect. */
  lemma StepsAggregate(c: Cluster, name: string)
    requires name in c.deps
    ensures Aggregated(c, name, AdvanceMany(c, Busy(name, c.deps[name], 0, View(map[], map[])), 5).0)
  {
    var seen := c.deps[name];
    AdvanceUnfold(c, Busy(name, seen, 0, View(map[], map[])));
    ApplicationWritten(c, seen);
    var app := NameFor(seen, ApplicationSide);
    var c1 := WriteStatus(c, ApplicationSide, app, ViewOf(c.deps, ApplicationSide, app));
    PlaneWritten(c1, seen);
  }

  lemma ApplicationWritten(c: Cluster, seen: Deployment)
    ensures var app := NameFor(seen, ApplicationSide);
            var d := WriteStatus(c, ApplicationSide, app, ViewOf(c.deps, ApplicationSide, app));
            && d == c.(apps := d.apps) && d.apps.Keys == c.apps.Keys
            && forall a | a in c.apps :: ApplicationAggregated(c.deps, seen, a, c.apps[a], d.apps[a])
  {
    var app := NameFor(seen, ApplicationSide);
    ExactIff(c.deps, ApplicationSide, app, ViewOf(c.deps, ApplicationSide, app));
  }

  lemma PlaneWritten(c: Cluster, seen: Deployment)
    ensures var plane := NameFor(seen, PlaneSide);
            var d := WriteStatus(c, PlaneSide, plane, ViewOf(c.deps, PlaneSide, plane));
            && d == c.(planes := d.planes) && d.planes.Keys == c.planes.Keys
            && forall p | p in c.planes :: PlaneAggregated(c.deps, seen, p, c.planes[p], d.planes[p])
  {
    var plane := NameFor(seen, PlaneSide);
    ExactIff(c.deps, PlaneSide, plane, ViewOf(c.deps, PlaneSide, plane));
  }

  /** The five steps of an undisturbed reconcile. */
  lemma AdvanceUnfold(c: Cluster, w: Worker)
    requires w.Busy? && w.phase == 0
    ensures AdvanceMany(c, w, 0) == (c, w)
    ensures var app, plane := NameFor(w.seen, ApplicationSide), NameFor(w.seen, PlaneSide);
            var c1 := WriteStatus(c, ApplicationSide, app, ViewOf(c.deps, ApplicationSide, app));
            var c2 := WriteStatus(c1, PlaneSide, plane, ViewOf(c1.deps, PlaneSide, plane));
            && AdvanceMany(c, w, 2).0 == c1
            && AdvanceMany(c, w, 4).0 == c2
            && AdvanceMany(c, w, 5) == (if w.seen.deleting then DropFinalizer(c2, w.name) else c2, Idle)
  {
  }
}
