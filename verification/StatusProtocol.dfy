/** The aggregation protocol over whole runs. A status is accurate or an event is pending, until a
    dropped error, a late application or a Deployment that vanishes loses an update; what is lost is said
    exactly, and so is what brings it back. No status ever names a Deployment that has left the store,
    unless it vanished without the operator's finalizer. */
module StatusProtocol {
  import opened Common
  import opened Objects
  import opened Status

  datatype Step =
    | CreateDeployment(name: string, deployment: Deployment)
    | EditDeployment(name: string, deployment: Deployment)
    | RequestDelete(name: string)
    | Vanish(name: string)
    | Requeue(name: string)
    | CreateApplication(name: string, app: Application)
    | EditApplication(name: string, app: Application)
    | RemoveApplication(name: string)
    | CreatePlane(name: string, plane: Plane)
    | EditPlane(name: string, plane: Plane)
    | RemovePlane(name: string)
    | Start(name: string)
    | Work
    | Fail
    | Drop

  /** No live Deployment asks for the status of `name`. */
  predicate Unused(c: Cluster, side: Side, name: string) {
    LiveWith(c.deps, side.Key(), name) == {}
  }

  predicate SameLabels(a: Deployment, b: Deployment) {
    forall side: Side ::
      && NameFor(a, side) == NameFor(b, side)
      && (side.Key() in a.labels <==> side.Key() in b.labels)
  }

  /** Deployments keep their two labels, and so does one created again while the worker still holds the
      one that vanished. The deletion of a Deployment without the operator's finalizer is `Vanish`. */
  predicate Enabled(w: World, step: Step) {
    match step
    case CreateDeployment(d, obj) =>
      d !in w.c.deps && !obj.deleting && (w.worker.Busy? && w.worker.name == d ==> SameLabels(w.worker.seen, obj))
    case EditDeployment(d, obj) =>
      d in w.c.deps && SameLabels(w.c.deps[d], obj) && obj.deleting == w.c.deps[d].deleting
    case RequestDelete(d) => d in w.c.deps && w.c.deps[d].finalizer
    case Vanish(d) => d in w.c.deps && !w.c.deps[d].finalizer && !w.c.deps[d].deleting
    case Requeue(d) => d in w.c.deps
    case CreateApplication(a, app) => a !in w.c.apps && app.planes == map[] && app.mirrors == map[]
    case EditApplication(a, app) =>
      a in w.c.apps && app.planes == w.c.apps[a].planes && app.mirrors == w.c.apps[a].mirrors
      && (w.c.apps[a].deleting ==> app.deleting)
    case RemoveApplication(a) => true
    case CreatePlane(p, plane) => p !in w.c.planes && plane.mirrors == map[]
    case EditPlane(p, plane) =>
      p in w.c.planes && plane.mirrors == w.c.planes[p].mirrors && (w.c.planes[p].deleting ==> plane.deleting)
    case RemovePlane(p) => true
    case Start(d) => d in w.queue && w.worker.Idle?
    case Work => w.worker.Busy?
    case Fail => w.worker.Busy?
    case Drop => w.worker.Busy?
  }

  function WithDeps(w: World, deps: DeploymentMap, event: string): World {
    World(w.c.(deps := deps), w.queue + {event}, w.worker)
  }

  /** Creation and deletion requests of Deployments are events; the removal of a Deployment, other edits
      of Deployments and all edits of applications and planes are not. A failed reconcile is queued again, unless its error
      text says "invalid": then it is dropped. */
  function Next(w: World, step: Step): World
    requires Enabled(w, step)
  {
    match step
    case CreateDeployment(d, obj) => WithDeps(w, w.c.deps[d := obj], d)
    case EditDeployment(d, obj) => w.(c := w.c.(deps := w.c.deps[d := obj]))
    case RequestDelete(d) => WithDeps(w, w.c.deps[d := w.c.deps[d].(deleting := true)], d)
    case Vanish(d) => w.(c := w.c.(deps := w.c.deps - {d}))
    case Requeue(d) => w.(queue := w.queue + {d})
    case CreateApplication(a, app) => w.(c := w.c.(apps := w.c.apps[a := app]))
    case EditApplication(a, app) => w.(c := w.c.(apps := w.c.apps[a := app]))
    case RemoveApplication(a) => w.(c := w.c.(apps := w.c.apps - {a}))
    case CreatePlane(p, plane) => w.(c := w.c.(planes := w.c.planes[p := plane]))
    case EditPlane(p, plane) => w.(c := w.c.(planes := w.c.planes[p := plane]))
    case RemovePlane(p) => w.(c := w.c.(planes := w.c.planes - {p}))
    case Start(d) =>
      var queue := w.queue - {d};
      if d in w.c.deps then World(w.c, queue, Busy(d, w.c.deps[d], 0, View(map[], map[])))
      else w.(queue := queue)
    case Work => var r := Advance(w.c, w.worker); World(r.0, w.queue, r.1)
    case Fail => World(w.c, w.queue + {w.worker.name}, Idle)
    case Drop => w.(worker := Idle)
  }

  // ----- the invariant -----

  /** The worker has yet to list the Deployments for this side. */
  predicate Before(w: Worker, side: Side) {
    w.Busy? && w.phase < side.Phase()
  }

  /** The worker holds a list for this side that it has not written. */
  predicate Holding(w: Worker, side: Side, name: string) {
    w.Busy? && w.phase == side.Phase() && NameFor(w.seen, side) == name
  }

  /** The Deployment the worker is about to remove without listing for this side again. */
  predicate Leaving(w: Worker, side: Side, d: string) {
    w.Busy? && w.phase >= side.Phase() && w.seen.deleting && w.name == d
  }

  predicate PendingBy(w: World, side: Side, name: string, d: string) {
    || (d in w.queue && Present(w, side, name, d) && !Leaving(w.worker, side, d))
    || (Before(w.worker, side) && w.worker.name == d && NameFor(w.worker.seen, side) == name)
  }

  predicate Present(w: World, side: Side, name: string, d: string) {
    d in w.c.deps && HasLabel(w.c.deps[d].labels, side.Key(), name)
  }

  /** Some Deployment with this label has an event queued, or is being worked on before its list. */
  ghost predicate Pending(w: World, side: Side, name: string) {
    exists d :: PendingBy(w, side, name, d)
  }

  predicate WorkerOk(w: World) {
    w.worker.Busy? ==>
      && w.worker.phase <= 4
      && (w.worker.name in w.c.deps ==> SameLabels(w.worker.seen, w.c.deps[w.worker.name]))
      && (w.worker.seen.deleting ==> w.worker.name in w.c.deps && w.c.deps[w.worker.name].deleting)
      && (w.worker.phase == 3 ==> w.worker.listed.planes == map[])
  }

  /** The status of `name`, or the list about to be written to it, is accurate or will be redone. */
  ghost predicate Fresh(w: World, side: Side, name: string) {
    && (Holding(w.worker, side, name) ==>
          w.worker.listed == ViewOf(w.c.deps, side, name) || Pending(w, side, name))
    && (StatusOf(w.c, side, name).Some? ==>
          || StatusOf(w.c, side, name).value == ViewOf(w.c.deps, side, name)
          || Pending(w, side, name)
          || Holding(w.worker, side, name))
  }

  /** Every mirror in the status of `name`, or about to be written to it, is a stored Deployment or one
      of those `gone`. */
  ghost predicate Safe(w: World, side: Side, name: string, gone: set<string>) {
    && (Holding(w.worker, side, name) ==>
          forall d | d in w.worker.listed.mirrors ::
            d in gone || (Present(w, side, name, d) && !Leaving(w.worker, side, d)))
    && (StatusOf(w.c, side, name).Some? ==>
          forall d | d in StatusOf(w.c, side, name).value.mirrors ::
            d in gone || (Present(w, side, name, d) && (Holding(w.worker, side, name) || !Leaving(w.worker, side, d))))
  }

  /** What every step keeps. */
  ghost predicate SafeAt(w: World, side: Side, name: string, gone: set<string>) {
    WorkerOk(w) && name != "" && Safe(w, side, name, gone)
  }

  /** What every step keeps that loses no update. */
  ghost predicate InvAt(w: World, side: Side, name: string) {
    WorkerOk(w) && name != "" && Fresh(w, side, name)
  }

  predicate Initial(w: World) {
    w == World(Cluster(map[], map[], map[]), {}, Idle)
  }

  // ----- views -----

  /** An edit that keeps labels and deletion state changes no view. */
  lemma ViewUnchanged(a: DeploymentMap, b: DeploymentMap, side: Side, name: string)
    requires a.Keys == b.Keys
    requires forall d | d in a :: a[d].deleting == b[d].deleting && SameLabels(a[d], b[d])
    ensures ViewOf(a, side, name) == ViewOf(b, side, name)
  {
    forall d | d in a
      ensures HasLabel(a[d].labels, side.Key(), name) <==> HasLabel(b[d].labels, side.Key(), name)
      ensures PLANE_KEY in a[d].labels <==> PLANE_KEY in b[d].labels
      ensures PLANE_KEY in a[d].labels ==> a[d].labels[PLANE_KEY] == b[d].labels[PLANE_KEY]
    {
      assert SameLabels(a[d], b[d]);
      assert NameFor(a[d], PlaneSide) == NameFor(b[d], PlaneSide);
      assert PlaneSide.Key() in a[d].labels <==> PlaneSide.Key() in b[d].labels;
      assert NameFor(a[d], side) == NameFor(b[d], side);
    }
    assert LiveWith(a, side.Key(), name) == LiveWith(b, side.Key(), name);
    assert PlanesOf(a, LiveWith(a, side.Key(), name)) == PlanesOf(b, LiveWith(b, side.Key(), name));
  }

  /** A Deployment without the label, or deleting in both, changes no view either. */
  lemma ViewIgnores(a: DeploymentMap, b: DeploymentMap, d: string, side: Side, name: string)
    requires a - {d} == b - {d}
    requires d !in LiveWith(a, side.Key(), name) && d !in LiveWith(b, side.Key(), name)
    ensures ViewOf(a, side, name) == ViewOf(b, side, name)
  {
    forall e | e != d ensures e in a <==> e in b ensures e in a ==> a[e] == b[e] {
      assert e in a <==> e in a - {d};
      assert e in b <==> e in b - {d};
      if e in a {
        assert a[e] == (a - {d})[e] == (b - {d})[e] == b[e];
      }
    }
    assert LiveWith(a, side.Key(), name) == LiveWith(b, side.Key(), name);
    assert PlanesOf(a, LiveWith(a, side.Key(), name)) == PlanesOf(b, LiveWith(b, side.Key(), name));
  }

  /** A view is empty exactly when its list is. */
  lemma ViewEmptyIff(deps: DeploymentMap, side: Side, name: string)
    ensures ViewOf(deps, side, name) == View(map[], map[]) <==> LiveWith(deps, side.Key(), name) == {}
  {
    var live := LiveWith(deps, side.Key(), name);
    if Ones(live) == map[] {
      assert forall d :: d in live ==> d in Ones(live);
    }
    assert live == {} <==> Ones(live) == map[];
  }

  // ----- safety, kept by every step -----

  lemma WorkerOkKept(w: World, step: Step)
    requires WorkerOk(w) && Enabled(w, step)
    ensures WorkerOk(Next(w, step))
  {
  }

  lemma WriteStatusAt(c: Cluster, target: Side, n: string, v: View, side: Side, name: string)
    ensures WriteStatus(c, target, n, v).deps == c.deps
    ensures StatusOf(WriteStatus(c, target, n, v), side, name)
         == if side == target && name == n && StatusOf(c, side, name).Some?
            then Some(View(if side.ApplicationSide? then v.planes else map[], v.mirrors)) else StatusOf(c, side, name)
  {
  }

  lemma WorkKeepsSafe(w: World, side: Side, name: string, gone: set<string>)
    requires SafeAt(w, side, name, gone) && Enabled(w, Work)
    ensures Safe(Next(w, Work), side, name, gone)
  {
    var target := SideAt(w.worker.phase);
    WriteStatusAt(w.c, target, NameFor(w.worker.seen, target), w.worker.listed, side, name);
  }

  predicate OnTargets(step: Step) {
    || step.CreateApplication? || step.EditApplication? || step.RemoveApplication?
    || step.CreatePlane? || step.EditPlane? || step.RemovePlane?
  }

  lemma TargetsKeepMirrors(w: World, step: Step, side: Side, name: string)
    requires Enabled(w, step) && OnTargets(step)
    ensures StatusOf(Next(w, step).c, side, name) in {None, Some(View(map[], map[])), StatusOf(w.c, side, name)}
  {
  }

  lemma EditKeepsPresent(w: World, d: string, obj: Deployment, side: Side, name: string)
    requires Enabled(w, EditDeployment(d, obj))
    ensures forall e :: Present(w, side, name, e) <==> Present(Next(w, EditDeployment(d, obj)), side, name, e)
  {
    assert NameFor(w.c.deps[d], side) == NameFor(obj, side);
    assert side.Key() in w.c.deps[d].labels <==> side.Key() in obj.labels;
  }

  /** No Deployment with the label leaves but those gone, no list is written and no status gains a mirror. */
  lemma SafeWhenSame(w: World, v: World, side: Side, name: string, gone: set<string>, more: set<string>)
    requires Safe(w, side, name, gone)
    requires StatusOf(v.c, side, name) in {None, Some(View(map[], map[])), StatusOf(w.c, side, name)}
    requires forall d :: Present(w, side, name, d) ==> Present(v, side, name, d) || d in more
    requires v.worker == w.worker || v.worker.Idle? || (v.worker.Busy? && v.worker.phase == 0)
    ensures Safe(v, side, name, gone + more)
  {
  }

  function Vanishing(step: Step): set<string> {
    if step.Vanish? then {step.name} else {}
  }

  lemma StepKeepsSafe(w: World, step: Step, side: Side, name: string, gone: set<string>)
    requires SafeAt(w, side, name, gone) && Enabled(w, step)
    ensures SafeAt(Next(w, step), side, name, gone + Vanishing(step))
  {
    WorkerOkKept(w, step);
    if step.Work? {
      WorkKeepsSafe(w, side, name, gone);
      assert gone + {} == gone;
    } else {
      if step.EditDeployment? {
        EditKeepsPresent(w, step.name, step.deployment, side, name);
      } else if OnTargets(step) {
        TargetsKeepMirrors(w, step, side, name);
      }
      SafeWhenSame(w, Next(w, step), side, name, gone, Vanishing(step));
    }
  }

  /** A Deployment that vanishes dangles exactly when a status lists it, or is about to. */
  lemma VanishDanglesIff(w: World, d: string, side: Side, name: string)
    requires SafeAt(w, side, name, {}) && Enabled(w, Vanish(d))
    ensures Safe(Next(w, Vanish(d)), side, name, {}) <==>
              && (StatusOf(w.c, side, name).Some? ==> d !in StatusOf(w.c, side, name).value.mirrors)
              && (Holding(w.worker, side, name) ==> d !in w.worker.listed.mirrors)
  {
    var v := Next(w, Vanish(d));
    assert forall e :: Present(v, side, name, e) <==> Present(w, side, name, e) && e != d;
  }

  // ----- freshness, step by step -----

  /** Nothing changed for `name` on this side: same view, same worker role, no pending event lost. */
  lemma KeptWhenSame(w: World, v: World, side: Side, name: string)
    requires Fresh(w, side, name)
    requires ViewOf(w.c.deps, side, name) == ViewOf(v.c.deps, side, name)
    requires StatusOf(v.c, side, name) in {None, StatusOf(w.c, side, name)}
    requires w.worker == v.worker
    requires forall d :: PendingBy(w, side, name, d) ==> PendingBy(v, side, name, d)
    ensures Fresh(v, side, name)
  {
  }

  /** An event is pending for `name`. */
  lemma FreshWhenPending(w: World, side: Side, name: string, d: string)
    requires PendingBy(w, side, name, d)
    ensures Fresh(w, side, name)
  {
  }

  lemma CreateKeeps(w: World, d: string, obj: Deployment, side: Side, name: string)
    requires InvAt(w, side, name) && Enabled(w, CreateDeployment(d, obj))
    ensures Fresh(Next(w, CreateDeployment(d, obj)), side, name)
  {
    var v := Next(w, CreateDeployment(d, obj));
    if HasLabel(obj.labels, side.Key(), name) {
      FreshWhenPending(v, side, name, d);
    } else {
      ViewIgnores(w.c.deps, v.c.deps, d, side, name);
      KeptWhenSame(w, v, side, name);
    }
  }

  lemma EditKeeps(w: World, d: string, obj: Deployment, side: Side, name: string)
    requires InvAt(w, side, name) && Enabled(w, EditDeployment(d, obj))
    ensures Fresh(Next(w, EditDeployment(d, obj)), side, name)
  {
    var v := Next(w, EditDeployment(d, obj));
    assert w.c.deps.Keys == v.c.deps.Keys;
    ViewUnchanged(w.c.deps, v.c.deps, side, name);
    assert NameFor(w.c.deps[d], side) == NameFor(obj, side);
    KeptWhenSame(w, v, side, name);
  }

  lemma RequestDeleteKeeps(w: World, d: string, side: Side, name: string)
    requires InvAt(w, side, name) && Enabled(w, RequestDelete(d))
    ensures Fresh(Next(w, RequestDelete(d)), side, name)
  {
    var v := Next(w, RequestDelete(d));
    if !w.c.deps[d].deleting && HasLabel(w.c.deps[d].labels, side.Key(), name) {
      FreshWhenPending(v, side, name, d);
    } else {
      ViewIgnores(w.c.deps, v.c.deps, d, side, name);
      KeptWhenSame(w, v, side, name);
    }
  }

  lemma StartKeeps(w: World, d: string, side: Side, name: string)
    requires InvAt(w, side, name) && Enabled(w, Start(d))
    ensures Fresh(Next(w, Start(d)), side, name)
  {
    var v := Next(w, Start(d));
    if Pending(w, side, name) {
      var e :| PendingBy(w, side, name, e);
      assert PendingBy(v, side, name, e);
    }
  }

  lemma FailKeeps(w: World, side: Side, name: string)
    requires InvAt(w, side, name) && Enabled(w, Fail) && w.worker.name in w.c.deps
    ensures Fresh(Next(w, Fail), side, name)
  {
    var v := Next(w, Fail);
    var d := w.worker.name;
    assert NameFor(w.worker.seen, side) == NameFor(w.c.deps[d], side);
    if HasLabel(w.c.deps[d].labels, side.Key(), name) {
      assert PendingBy(v, side, name, d);
    } else if Pending(w, side, name) {
      var e :| PendingBy(w, side, name, e);
      assert PendingBy(v, side, name, e);
    }
  }

  lemma ListKeeps(w: World, side: Side, name: string)
    requires InvAt(w, side, name) && Enabled(w, Work) && w.worker.phase in {0, 2}
    ensures Fresh(Next(w, Work), side, name)
  {
    var v := Next(w, Work);
    if !Holding(v.worker, side, name) && Pending(w, side, name) {
      var e :| PendingBy(w, side, name, e);
      assert PendingBy(v, side, name, e);
    }
  }

  lemma WriteKeeps(w: World, side: Side, name: string)
    requires InvAt(w, side, name) && Enabled(w, Work) && w.worker.phase in {1, 3}
    ensures Fresh(Next(w, Work), side, name)
  {
    var v := Next(w, Work);
    var target := SideAt(w.worker.phase);
    WriteStatusAt(w.c, target, NameFor(w.worker.seen, target), w.worker.listed, side, name);
    assert forall e :: PendingBy(w, side, name, e) ==> PendingBy(v, side, name, e);
    if Pending(w, side, name) {
      var e :| PendingBy(w, side, name, e);
      assert PendingBy(v, side, name, e);
    }
  }

  lemma FinishKeeps(w: World, side: Side, name: string)
    requires InvAt(w, side, name) && Enabled(w, Work) && w.worker.phase == 4
    ensures Fresh(Next(w, Work), side, name)
  {
    var v := Next(w, Work);
    if w.worker.seen.deleting {
      ViewIgnores(w.c.deps, v.c.deps, w.worker.name, side, name);
    }
    if Pending(w, side, name) {
      var e :| PendingBy(w, side, name, e);
      assert PendingBy(v, side, name, e);
    }
  }

  lemma TargetStepKeeps(w: World, step: Step, side: Side, name: string)
    requires InvAt(w, side, name) && Enabled(w, step) && OnTargets(step) && !Creates(step, side, name)
    ensures Fresh(Next(w, step), side, name)
  {
    var v := Next(w, step);
    assert forall d :: PendingBy(w, side, name, d) ==> PendingBy(v, side, name, d);
    KeptWhenSame(w, v, side, name);
  }

  // ----- the steps that lose an update -----

  /** A live application or plane of this name comes into being. */
  predicate Creates(step: Step, side: Side, name: string) {
    || (step.CreateApplication? && side.ApplicationSide? && step.name == name && !step.app.deleting)
    || (step.CreatePlane? && side.PlaneSide? && step.name == name && !step.plane.deleting)
  }

  /** A Deployment with the label has an event in the queue. */
  predicate Queued(w: World, side: Side, name: string) {
    exists d | d in w.queue :: Present(w, side, name, d)
  }

  /** The reconcile ends without a retry: its error is dropped, or its Deployment is not there any more
      when it is tried again. */
  predicate Ends(w: World, step: Step) {
    w.worker.Busy? && (step.Drop? || (step.Fail? && w.worker.name !in w.c.deps))
  }

  /** Without Deployment `d`, some event is still pending for `name`. */
  predicate PendingWithout(w: World, d: string, side: Side, name: string) {
    || (Before(w.worker, side) && NameFor(w.worker.seen, side) == name)
    || exists e | e in w.queue && e != d :: Present(w, side, name, e) && !Leaving(w.worker, side, e)
  }

  /** The step loses an update of `name`. A reconcile of `name` that ends before it has written does, when
      the status is not what it would have written and no other event is there to make up for it; so
      does the creation of `name` after its Deployments, when none of them has an event; and so does a
      Deployment that vanishes, when what is stored or about to be written is not right without it and
      no other event is pending. */
  ghost predicate Loses(w: World, step: Step, side: Side, name: string) {
    || (Ends(w, step)
        && NameFor(w.worker.seen, side) == name && w.worker.phase <= side.Phase()
        && StatusOf(w.c, side, name) !in {None, Some(ViewOf(w.c.deps, side, name))}
        && !Queued(w, side, name))
    || (Creates(step, side, name)
        && !Unused(w.c, side, name) && !Pending(w, side, name) && !Holding(w.worker, side, name))
    || (step.Vanish? && Present(w, side, name, step.name) && !PendingWithout(w, step.name, side, name)
        && var view := ViewOf(w.c.deps - {step.name}, side, name);
           if Holding(w.worker, side, name) then w.worker.listed != view
           else StatusOf(w.c, side, name) !in {None, Some(view)})
  }

  lemma EndIff(w: World, step: Step, side: Side, name: string)
    requires InvAt(w, side, name) && Enabled(w, step) && Ends(w, step)
    ensures Fresh(Next(w, step), side, name) <==> !Loses(w, step, side, name)
  {
    var v := Next(w, step);
    assert forall d :: PendingBy(v, side, name, d) <==> d in w.queue && Present(w, side, name, d);
    assert Pending(v, side, name) <==> Queued(w, side, name);
    if Pending(w, side, name) && !Queued(w, side, name) {
      var d :| PendingBy(w, side, name, d);
      assert d == w.worker.name;
    }
  }

  lemma VanishIff(w: World, d: string, side: Side, name: string)
    requires InvAt(w, side, name) && Enabled(w, Vanish(d))
    ensures Fresh(Next(w, Vanish(d)), side, name) <==> !Loses(w, Vanish(d), side, name)
  {
    var v := Next(w, Vanish(d));
    if Present(w, side, name, d) {
      assert forall e :: Present(v, side, name, e) <==> Present(w, side, name, e) && e != d;
      PendingWithoutIff(w, d, side, name);
    } else {
      ViewIgnores(w.c.deps, v.c.deps, d, side, name);
      assert forall e :: PendingBy(w, side, name, e) ==> PendingBy(v, side, name, e);
      KeptWhenSame(w, v, side, name);
    }
  }

  lemma PendingWithoutIff(w: World, d: string, side: Side, name: string)
    requires Enabled(w, Vanish(d))
    ensures Pending(Next(w, Vanish(d)), side, name) <==> PendingWithout(w, d, side, name)
  {
    var v := Next(w, Vanish(d));
    assert forall e :: Present(v, side, name, e) <==> Present(w, side, name, e) && e != d;
    if Before(w.worker, side) && NameFor(w.worker.seen, side) == name {
      assert PendingBy(v, side, name, w.worker.name);
    } else if e :| e in w.queue && e != d && Present(w, side, name, e) && !Leaving(w.worker, side, e) {
      assert PendingBy(v, side, name, e);
    }
  }

  /** A late application or plane starts out with an empty status. */
  lemma LateCreationIff(w: World, step: Step, side: Side, name: string)
    requires InvAt(w, side, name) && Enabled(w, step) && Creates(step, side, name)
    ensures Fresh(Next(w, step), side, name) <==> !Loses(w, step, side, name)
  {
    var v := Next(w, step);
    assert forall d :: PendingBy(w, side, name, d) <==> PendingBy(v, side, name, d);
    ViewEmptyIff(w.c.deps, side, name);
  }

  lemma WorkKeeps(w: World, side: Side, name: string)
    requires InvAt(w, side, name) && Enabled(w, Work)
    ensures Fresh(Next(w, Work), side, name)
  {
    if w.worker.phase in {0, 2} {
      ListKeeps(w, side, name);
    } else if w.worker.phase in {1, 3} {
      WriteKeeps(w, side, name);
    } else {
      FinishKeeps(w, side, name);
    }
  }

  lemma ControllerStepIff(w: World, step: Step, side: Side, name: string)
    requires InvAt(w, side, name) && Enabled(w, step) && (step.Start? || step.Work? || step.Fail? || step.Drop?)
    ensures Fresh(Next(w, step), side, name) <==> !Loses(w, step, side, name)
  {
    if Ends(w, step) {
      EndIff(w, step, side, name);
    } else if step.Start? {
      StartKeeps(w, step.name, side, name);
    } else if step.Work? {
      WorkKeeps(w, side, name);
    } else {
      FailKeeps(w, side, name);
    }
  }

  lemma DeploymentStepIff(w: World, step: Step, side: Side, name: string)
    requires InvAt(w, side, name) && Enabled(w, step)
    requires step.CreateDeployment? || step.EditDeployment? || step.RequestDelete? || step.Requeue? || step.Vanish?
    ensures Fresh(Next(w, step), side, name) <==> !Loses(w, step, side, name)
  {
    match step
    case CreateDeployment(d, obj) => CreateKeeps(w, d, obj, side, name);
    case EditDeployment(d, obj) => EditKeeps(w, d, obj, side, name);
    case RequestDelete(d) => RequestDeleteKeeps(w, d, side, name);
    case Requeue(d) => KeptWhenSame(w, Next(w, step), side, name);
    case Vanish(d) => VanishIff(w, d, side, name);
  }

  /** Every step keeps the invariant exactly when it does not lose an update. */
  lemma StepKeepsInvIff(w: World, step: Step, side: Side, name: string)
    requires InvAt(w, side, name) && Enabled(w, step)
    ensures InvAt(Next(w, step), side, name) <==> !Loses(w, step, side, name)
  {
    WorkerOkKept(w, step);
    if step.Start? || step.Work? || step.Fail? || step.Drop? {
      ControllerStepIff(w, step, side, name);
    } else if !OnTargets(step) {
      DeploymentStepIff(w, step, side, name);
    } else if Creates(step, side, name) {
      LateCreationIff(w, step, side, name);
    } else {
      TargetStepKeeps(w, step, side, name);
    }
  }

  /** The step is an event of a Deployment with the label: its creation, its deletion, a resync, or a
      failed reconcile that is retried. */
  predicate Reports(w: World, step: Step, side: Side, name: string) {
    match step
    case CreateDeployment(_, obj) => HasLabel(obj.labels, side.Key(), name)
    case RequestDelete(d) => Present(w, side, name, d) && !w.c.deps[d].deleting
    case Requeue(d) => Present(w, side, name, d) && !w.c.deps[d].deleting
    case Fail => w.worker.Busy? && Present(w, side, name, w.worker.name)
    case _ => false
  }

  /** Such an event makes up for everything lost before. */
  lemma ReportRestores(w: World, step: Step, side: Side, name: string)
    requires WorkerOk(w) && name != "" && Enabled(w, step) && Reports(w, step, side, name)
    ensures InvAt(Next(w, step), side, name)
  {
    WorkerOkKept(w, step);
    FreshWhenPending(Next(w, step), side, name, if step.Fail? then w.worker.name else step.name);
  }

  // ----- whole runs -----

  /** The steps can be taken one after the other from `w`, and lead to `v`. */
  predicate Executes(w: World, steps: seq<Step>, v: World)
    decreases |steps|
  {
    if steps == [] then v == w
    else Enabled(w, steps[0]) && Executes(Next(w, steps[0]), steps[1..], v)
  }

  /** Some step of the run lost an update of `name` (or one was `lost` before), and no event of a
      Deployment with that label came after it. */
  ghost predicate LossStands(w: World, steps: seq<Step>, lost: bool, side: Side, name: string)
    decreases |steps|
  {
    if steps == [] then lost
    else
      && Enabled(w, steps[0])
      && LossStands(Next(w, steps[0]), steps[1..],
                    Loses(w, steps[0], side, name) || (lost && !Reports(w, steps[0], side, name)), side, name)
  }

  lemma {:induction false} RunKeepsInv(w: World, steps: seq<Step>, v: World, lost: bool, side: Side, name: string)
    requires WorkerOk(w) && name != "" && Executes(w, steps, v) && (Fresh(w, side, name) || lost)
    ensures WorkerOk(v)
    ensures Fresh(v, side, name) || LossStands(w, steps, lost, side, name)
    decreases |steps|
  {
    if steps != [] {
      var step := steps[0];
      WorkerOkKept(w, step);
      if Fresh(w, side, name) {
        StepKeepsInvIff(w, step, side, name);
      } else if Reports(w, step, side, name) {
        ReportRestores(w, step, side, name);
      }
      RunKeepsInv(Next(w, step), steps[1..], v, Loses(w, step, side, name) || (lost && !Reports(w, step, side, name)),
                  side, name);
    }
  }

  function VanishedIn(steps: seq<Step>): set<string> {
    set i | 0 <= i < |steps| && steps[i].Vanish? :: steps[i].name
  }

  lemma {:induction false} RunKeepsSafe(w: World, steps: seq<Step>, v: World, side: Side, name: string, gone: set<string>)
    requires SafeAt(w, side, name, gone) && Executes(w, steps, v)
    ensures SafeAt(v, side, name, gone + VanishedIn(steps))
    decreases |steps|
  {
    if steps == [] {
      assert gone + VanishedIn(steps) == gone;
    } else {
      StepKeepsSafe(w, steps[0], side, name, gone);
      RunKeepsSafe(Next(w, steps[0]), steps[1..], v, side, name, gone + Vanishing(steps[0]));
      VanishedStep(steps);
      assert gone + Vanishing(steps[0]) + VanishedIn(steps[1..]) == gone + VanishedIn(steps);
    }
  }

  lemma VanishedStep(steps: seq<Step>)
    requires steps != []
    ensures VanishedIn(steps) == Vanishing(steps[0]) + VanishedIn(steps[1..])
  {
    forall d | d in VanishedIn(steps) ensures d in Vanishing(steps[0]) + VanishedIn(steps[1..]) {
      var i :| 0 <= i < |steps| && steps[i].Vanish? && steps[i].name == d;
      assert i > 0 ==> steps[1..][i - 1] == steps[i];
    }
    forall d | d in VanishedIn(steps[1..]) ensures d in VanishedIn(steps) {
      var i :| 0 <= i < |steps[1..]| && steps[1..][i].Vanish? && steps[1..][i].name == d;
      assert steps[i + 1] == steps[1..][i];
    }
  }

  lemma InitialInv(w: World, side: Side, name: string)
    requires Initial(w) && name != ""
    ensures InvAt(w, side, name) && SafeAt(w, side, name, {})
  {
  }

  /** No error is dropped, no Deployment vanishes, and `name` is created before the Deployments labelled
      with it. */
  predicate Orderly(w: World, steps: seq<Step>, side: Side, name: string)
    decreases |steps|
  {
    steps != [] && Enabled(w, steps[0]) ==>
      && !Ends(w, steps[0]) && !steps[0].Vanish?
      && (Creates(steps[0], side, name) ==> Unused(w.c, side, name))
      && Orderly(Next(w, steps[0]), steps[1..], side, name)
  }

  lemma {:induction false} OrderlyLosesNothing(w: World, steps: seq<Step>, side: Side, name: string)
    requires Orderly(w, steps, side, name)
    ensures !LossStands(w, steps, false, side, name)
    decreases |steps|
  {
    if steps != [] && Enabled(w, steps[0]) {
      OrderlyLosesNothing(Next(w, steps[0]), steps[1..], side, name);
    }
  }

  /** The status lists the stored Deployments that carry the label and are not being deleted and, for an
      application, the planes in their version labels. */
  ghost predicate Accurate(w: World, side: Side, name: string) {
    var status := StatusOf(w.c, side, name);
    && status.Some? && MirrorsExact(w.c.deps, side.Key(), name, status.value.mirrors)
    && (side.ApplicationSide? ==> PlanesExact(w.c.deps, side.Key(), name, status.value.planes))
  }

  lemma AccurateIff(w: World, side: Side, name: string)
    ensures Accurate(w, side, name) <==> StatusOf(w.c, side, name) == Some(ViewOf(w.c.deps, side, name))
  {
    if StatusOf(w.c, side, name).Some? {
      ExactIff(w.c.deps, side, name, StatusOf(w.c, side, name).value);
    }
  }

  /** In every reachable state, the status of every live application and plane is what the live
      Deployments say, or a Deployment with that label has a pending event, or the worker is about
      to write it; unless an update was lost that no later event of such a Deployment made up for.
      In an orderly run none is lost. */
  lemma StatusAccurateOrPending(start: World, steps: seq<Step>, w: World, side: Side, name: string)
    requires Initial(start) && Executes(start, steps, w) && name != ""
    ensures || LossStands(start, steps, false, side, name)
            || (StatusOf(w.c, side, name).Some? ==>
                  Accurate(w, side, name) || Pending(w, side, name) || Holding(w.worker, side, name))
    ensures Orderly(start, steps, side, name) ==> !LossStands(start, steps, false, side, name)
  {
    AccurateIff(w, side, name);
    InitialInv(start, side, name);
    RunKeepsInv(start, steps, w, false, side, name);
    if Orderly(start, steps, side, name) {
      OrderlyLosesNothing(start, steps, side, name);
    }
  }

  /** Finalizer safety: in every reachable state, whatever updates were lost, every mirror of a live
      application or plane is a Deployment still in the store and carrying that label, unless it vanished
      without the operator's finalizer. */
  lemma FinalizerSafety(start: World, steps: seq<Step>, w: World, side: Side, name: string)
    requires Initial(start) && Executes(start, steps, w) && name != ""
    ensures StatusOf(w.c, side, name).Some? ==>
              forall d | d in StatusOf(w.c, side, name).value.mirrors ::
                || (d in w.c.deps && HasLabel(w.c.deps[d].labels, side.Key(), name))
                || exists i | 0 <= i < |steps| :: steps[i] == Vanish(d)
  {
    InitialInv(start, side, name);
    RunKeepsSafe(start, steps, w, side, name, {});
    if StatusOf(w.c, side, name).Some? {
      forall d | d in StatusOf(w.c, side, name).value.mirrors && !Present(w, side, name, d)
        ensures exists i | 0 <= i < |steps| :: steps[i] == Vanish(d)
      {
        assert d in VanishedIn(steps);
        var i :| 0 <= i < |steps| && steps[i].Vanish? && steps[i].name == d;
        assert steps[i] == Vanish(d);
      }
    }
  }

  // ----- what the controller reaches on its own -----

  predicate Quiescent(w: World) {
    w.queue == {} && w.worker.Idle?
  }

  /** Steps of the controller whose requests succeed. */
  predicate ByController(steps: seq<Step>) {
    forall i | 0 <= i < |steps| :: steps[i].Start? || steps[i].Work?
  }

  lemma StartStaysLost(w: World, d: string, side: Side, name: string)
    requires WorkerOk(w) && name != "" && Enabled(w, Start(d))
    requires StatusOf(w.c, side, name).Some? && !Fresh(w, side, name)
    ensures !Fresh(Next(w, Start(d)), side, name)
  {
    var v := Next(w, Start(d));
    assert Present(w, side, name, d) ==> PendingBy(w, side, name, d);
    forall e ensures PendingBy(v, side, name, e) ==> PendingBy(w, side, name, e) {
    }
  }

  /** Work neither makes an event pending nor changes a view. */
  lemma WorkAddsNone(w: World, side: Side, name: string)
    requires WorkerOk(w) && name != "" && Enabled(w, Work)
    ensures var v := Next(w, Work);
            && (forall e :: PendingBy(v, side, name, e) ==> PendingBy(w, side, name, e))
            && ViewOf(v.c.deps, side, name) == ViewOf(w.c.deps, side, name)
  {
    var v := Next(w, Work);
    if w.worker.phase == 4 && w.worker.seen.deleting {
      ViewIgnores(w.c.deps, v.c.deps, w.worker.name, side, name);
    }
  }

  lemma WorkStaysLost(w: World, side: Side, name: string)
    requires WorkerOk(w) && name != "" && Enabled(w, Work)
    requires StatusOf(w.c, side, name).Some? && !Fresh(w, side, name)
    ensures !Fresh(Next(w, Work), side, name)
  {
    var d := w.worker.name;
    WorkAddsNone(w, side, name);
    if Holding(w.worker, side, name) {
      HeldIsWritten(w, side, name);
    } else {
      assert Before(w.worker, side) && NameFor(w.worker.seen, side) == name ==> PendingBy(w, side, name, d);
      NotHeldNotWritten(w, side, name);
    }
  }

  lemma HeldIsWritten(w: World, side: Side, name: string)
    requires WorkerOk(w) && Enabled(w, Work) && Holding(w.worker, side, name) && StatusOf(w.c, side, name).Some?
    ensures StatusOf(Next(w, Work).c, side, name) == Some(w.worker.listed) && !Holding(Next(w, Work).worker, side, name)
  {
    WriteStatusAt(w.c, side, name, w.worker.listed, side, name);
  }

  lemma NotHeldNotWritten(w: World, side: Side, name: string)
    requires Enabled(w, Work) && !Holding(w.worker, side, name)
    requires !(Before(w.worker, side) && NameFor(w.worker.seen, side) == name)
    ensures StatusOf(Next(w, Work).c, side, name) == StatusOf(w.c, side, name)
    ensures !Holding(Next(w, Work).worker, side, name)
  {
    var target := SideAt(w.worker.phase);
    WriteStatusAt(w.c, target, NameFor(w.worker.seen, target), w.worker.listed, side, name);
  }

  lemma ControllerKeepsTargets(w: World, step: Step, side: Side, name: string)
    requires Enabled(w, step) && (step.Start? || step.Work?)
    ensures StatusOf(Next(w, step).c, side, name).Some? <==> StatusOf(w.c, side, name).Some?
  {
    if step.Work? {
      var target := SideAt(w.worker.phase);
      WriteStatusAt(w.c, target, NameFor(w.worker.seen, target), w.worker.listed, side, name);
    }
  }

  /** A lost update stays lost while only the controller acts, so freshness is exactly what the
      controller needs: wherever its own steps lead once nothing is pending, the status is accurate if
      and only if it was fresh at the start. */
  lemma {:induction false} OutcomeIff(w: World, steps: seq<Step>, v: World, side: Side, name: string)
    requires WorkerOk(w) && name != "" && StatusOf(w.c, side, name).Some?
    requires Executes(w, steps, v) && ByController(steps) && Quiescent(v)
    ensures Accurate(v, side, name) <==> Fresh(w, side, name)
    decreases |steps|
  {
    AccurateIff(v, side, name);
    if steps != [] {
      var step := steps[0];
      assert step.Start? || step.Work?;
      assert ByController(steps[1..]) by {
        forall i | 0 <= i < |steps[1..]| ensures steps[1..][i].Start? || steps[1..][i].Work? {
          assert steps[1..][i] == steps[i + 1];
        }
      }
      WorkerOkKept(w, step);
      ControllerKeepsTargets(w, step, side, name);
      if Fresh(w, side, name) {
        StepKeepsInvIff(w, step, side, name);
      } else {
        if step.Work? {
          WorkStaysLost(w, side, name);
        } else {
          StartStaysLost(w, step.name, side, name);
        }
      }
      OutcomeIff(Next(w, step), steps[1..], v, side, name);
    }
  }

  /** An undisturbed worker finishes without touching the queue. */
  lemma {:induction false} FinishWork(w: World) returns (steps: seq<Step>, v: World)
    requires WorkerOk(w)
    ensures Executes(w, steps, v) && WorkerOk(v) && v.worker.Idle? && v.queue == w.queue && ByController(steps)
    decreases if w.worker.Busy? then 5 - w.worker.phase else 0
  {
    if w.worker.Idle? {
      steps, v := [], w;
    } else {
      WorkerOkKept(w, Work);
      var rest;
      rest, v := FinishWork(Next(w, Work));
      steps := [Work] + rest;
    }
  }

  lemma {:induction false} ExecutesConcat(w: World, a: seq<Step>, u: World, b: seq<Step>, v: World)
    requires Executes(w, a, u) && Executes(u, b, v)
    ensures Executes(w, a + b, v)
    decreases |a|
  {
    if a == [] {
      assert a + b == b;
    } else {
      assert (a + b)[1..] == a[1..] + b;
      ExecutesConcat(Next(w, a[0]), a[1..], u, b, v);
    }
  }

  /** The controller alone, taking up the queued events, reaches a state with nothing pending. */
  lemma {:induction false} Settles(w: World) returns (steps: seq<Step>, v: World)
    requires WorkerOk(w)
    ensures Executes(w, steps, v) && Quiescent(v) && ByController(steps)
    decreases |w.queue|
  {
    var u;
    steps, u := FinishWork(w);
    v := u;
    if u.queue != {} {
      var d :| d in u.queue;
      WorkerOkKept(u, Start(d));
      var rest;
      rest, v := Settles(Next(u, Start(d)));
      assert Executes(u, [Start(d)] + rest, v) by {
        assert ([Start(d)] + rest)[1..] == rest;
      }
      ExecutesConcat(w, steps, u, [Start(d)] + rest, v);
      steps := steps + ([Start(d)] + rest);
    }
  }

  /** Convergence: from every reachable state the controller alone reaches one with nothing pending,
      and there exactly the statuses that were fresh are accurate. */
  lemma Converges(start: World, before: seq<Step>, w: World) returns (steps: seq<Step>, v: World)
    requires Initial(start) && Executes(start, before, w)
    ensures Executes(w, steps, v) && Quiescent(v) && ByController(steps)
    ensures forall side, name | name != "" && StatusOf(w.c, side, name).Some? ::
              Accurate(v, side, name) <==> Fresh(w, side, name)
  {
    InitialInv(start, ApplicationSide, "x");
    RunKeepsInv(start, before, w, false, ApplicationSide, "x");
    steps, v := Settles(w);
    forall side, name | name != "" && StatusOf(w.c, side, name).Some?
      ensures Accurate(v, side, name) <==> Fresh(w, side, name)
    {
      InitialInv(start, side, name);
      RunKeepsInv(start, before, w, false, side, name);
      OutcomeIff(w, steps, v, side, name);
    }
  }

  // ----- where the guarantee ends -----

  /** One dropped error after the creation of a Deployment leaves the status wrong, with nothing pending. */
  lemma InvalidErrorLosesUpdate(app: Application, obj: Deployment)
    requires app.planes == map[] && app.mirrors == map[] && !app.deleting
    requires !obj.deleting && HasLabel(obj.labels, APP_KEY, "shop")
    ensures var start := World(Cluster(map[], map[], map[]), {}, Idle);
            exists w :: Executes(start, [CreateApplication("shop", app), CreateDeployment("shop-base", obj),
                                         Start("shop-base"), Drop], w)
                        && Quiescent(w) && StatusOf(w.c, ApplicationSide, "shop").Some?
                        && !Accurate(w, ApplicationSide, "shop")
  {
    var start := World(Cluster(map[], map[], map[]), {}, Idle);
    var s1, s2, s3 := CreateApplication("shop", app), CreateDeployment("shop-base", obj), Start("shop-base");
    var w1 := Next(start, s1);
    var w2 := Next(w1, s2);
    var w3 := Next(w2, s3);
    var w4 := Next(w3, Drop);
    assert [s1, s2, s3, Drop][1..] == [s2, s3, Drop] && [s2, s3, Drop][1..] == [s3, Drop];
    assert [s3, Drop][1..] == [Drop] && [Drop][1..] == [];
    assert Executes(w3, [Drop], w4);
    assert Executes(w2, [s3, Drop], w4);
    assert Executes(w1, [s2, s3, Drop], w4);
    assert Executes(start, [s1, s2, s3, Drop], w4);
    assert "shop-base" in LiveWith(w4.c.deps, APP_KEY, "shop");
    AccurateIff(w4, ApplicationSide, "shop");
    assert "shop-base" in ViewOf(w4.c.deps, ApplicationSide, "shop").mirrors;
  }
}
