/** Delete provenance: over whole runs of users and controllers, with requests failing anywhere,
    whatever the operator explicitly deletes traces back to a right checksum that a user put on it
    or, for an SQBDeployment and its Deployment, on its application or plane. */
module Provenance {
  import opened Common
  import opened Objects
  import opened Workload
  import opened Istio
  import opened Deletion

  datatype Ref = ApplicationRef(name: string) | PlaneRef(name: string) | SqbRef(name: string)

  datatype Event =
    | PutApplication(name: string, app: Application)
    | RemoveApplication(name: string)
    | PutPlane(name: string, plane: Plane)
    | RemovePlane(name: string)
    | PutSqb(name: string, sd: SqbDeployment)
    | RemoveSqb(name: string)
    | PutDeployment(name: string, deployment: Deployment)
    | RemoveDeployment(name: string)
    | Reconcile(key: Key)

  /** The user puts the right checksum on the object. */
  predicate Confirms(e: Event, ref: Ref, cfg: Config) {
    match e
    case PutApplication(a, app) => ref == ApplicationRef(a) && RightChecksum(a, app.annotations, cfg)
    case PutPlane(p, plane) => ref == PlaneRef(p) && RightChecksum(p, plane.annotations, cfg)
    case PutSqb(s, sd) => ref == SqbRef(s) && RightChecksum(s, sd.annotations, cfg)
    case _ => false
  }

  predicate SameOwners(a: SqbDeployment, b: SqbDeployment) {
    && (APP_KEY in a.labels <==> APP_KEY in b.labels) && Lookup(a.labels, APP_KEY) == Lookup(b.labels, APP_KEY)
    && (PLANE_KEY in a.labels <==> PLANE_KEY in b.labels) && Lookup(a.labels, PLANE_KEY) == Lookup(b.labels, PLANE_KEY)
  }

  /** One event. Users may create, edit and remove anything, but the app and plane labels of an
      existing SQBDeployment are fixed. A put that keeps an operator's mark is not a confirmation. */
  ghost predicate Transition(c: Cluster, e: Event, d: Cluster, cfg: Config) {
    match e
    case PutApplication(a, app) => d == c.(apps := c.apps[a := app])
    case RemoveApplication(a) => d == c.(apps := c.apps - {a})
    case PutPlane(p, plane) => d == c.(planes := c.planes[p := plane])
    case RemovePlane(p) => d == c.(planes := c.planes - {p})
    case PutSqb(s, sd) => d == c.(sds := c.sds[s := sd]) && (s in c.sds ==> SameOwners(sd, c.sds[s]))
    case RemoveSqb(s) => d == c.(sds := c.sds - {s})
    case PutDeployment(n, dep) => d == c.(deps := c.deps[n := dep])
    case RemoveDeployment(n) => d == c.(deps := c.deps - {n})
    case Reconcile(key) => Reconciled(c, key, cfg, d) || PartlyReconciled(c, key, cfg, d)
  }

  /** The object was absent or did not carry the right checksum, and the put makes it carry it. */
  predicate NewlyConfirms(c: Cluster, e: Event, ref: Ref, cfg: Config) {
    && Confirms(e, ref, cfg)
    && match ref
       case ApplicationRef(a) => a in c.apps ==> !RightChecksum(a, c.apps[a].annotations, cfg)
       case PlaneRef(p) => p in c.planes ==> !RightChecksum(p, c.planes[p].annotations, cfg)
       case SqbRef(s) => s in c.sds ==> !RightChecksum(s, c.sds[s].annotations, cfg)
  }

  ghost predicate IsRun(states: seq<Cluster>, events: seq<Event>, cfg: Config) {
    && |states| == |events| + 1
    && states[0] == Cluster(map[], map[], map[], map[], {}, map[], {})
    && forall i | 0 <= i < |events| :: Transition(states[i], events[i], states[i + 1], cfg)
  }

  /** A user newly confirmed the object before event `n`. */
  ghost predicate ConfirmedBefore(states: seq<Cluster>, events: seq<Event>, n: nat, ref: Ref, cfg: Config)
    requires n <= |events| < |states|
  {
    exists j | 0 <= j < n :: NewlyConfirms(states[j], events[j], ref, cfg)
  }

  /** The SQBDeployment, its application or its plane was confirmed before event `n`. */
  ghost predicate Traceable(states: seq<Cluster>, events: seq<Event>, n: nat, s: string, sd: SqbDeployment, cfg: Config)
    requires n <= |events| < |states|
  {
    || ConfirmedBefore(states, events, n, SqbRef(s), cfg)
    || (APP_KEY in sd.labels && ConfirmedBefore(states, events, n, ApplicationRef(sd.labels[APP_KEY]), cfg))
    || (PLANE_KEY in sd.labels && ConfirmedBefore(states, events, n, PlaneRef(sd.labels[PLANE_KEY]), cfg))
  }

  /** Every confirmed mark in the store has its origin. */
  ghost predicate MarksTraced(states: seq<Cluster>, events: seq<Event>, n: nat, cfg: Config)
    requires n <= |events| < |states|
  {
    var c := states[n];
    && (forall a | a in c.apps && RightChecksum(a, c.apps[a].annotations, cfg) ::
          ConfirmedBefore(states, events, n, ApplicationRef(a), cfg))
    && (forall p | p in c.planes && RightChecksum(p, c.planes[p].annotations, cfg) ::
          ConfirmedBefore(states, events, n, PlaneRef(p), cfg))
    && (forall s | s in c.sds && RightChecksum(s, c.sds[s].annotations, cfg) ::
          Traceable(states, events, n, s, c.sds[s], cfg))
  }

  lemma ConfirmedLater(states: seq<Cluster>, events: seq<Event>, n: nat, ref: Ref, cfg: Config)
    requires n < |events| < |states|
    requires ConfirmedBefore(states, events, n, ref, cfg) || NewlyConfirms(states[n], events[n], ref, cfg)
    ensures ConfirmedBefore(states, events, n + 1, ref, cfg)
  {
  }

  /** The Deployment was live and the reconcile requested its deletion. */
  predicate DeletionRequested(c: Cluster, d: Cluster, n: string) {
    n in c.deps && !c.deps[n].deleting && (n !in d.deps || d.deps[n].deleting)
  }

  /** The SQBDeployment became `sd`, with the same labels and mark, and is gone if that is confirmed. */
  predicate SqbFrom(c: Cluster, s: string, sd: SqbDeployment, cfg: Config, d: Cluster)
    requires s in c.sds
  {
    && sd.labels == c.sds[s].labels
    && MarkOf(s, sd.annotations, cfg) == MarkOf(s, c.sds[s].annotations, cfg)
    && (d.sds == c.sds[s := sd] || (MarkOf(s, sd.annotations, cfg) == Confirmed && d.sds == c.sds - {s}))
  }

  /** How the stored SQBDeployments look after a reconcile: some are gone, the others are marked,
      given a setting, initialised or untouched. */
  ghost predicate SqbsFrom(c: Cluster, key: Key, cfg: Config, d: Cluster) {
    match key
    case ApplicationKey(a) =>
      a in c.apps && if MarkOf(a, c.apps[a].annotations, cfg) == Confirmed
                     then exists marks | marks <= LabelledWith(c.sds, APP_KEY, a) :: d.sds == Marked(c.sds, marks, cfg)
                     else d.sds == c.sds || exists done, v :: d.sds == Propagated(c.sds, done, v)
    case PlaneKey(p) =>
      p in c.planes && if MarkOf(p, c.planes[p].annotations, cfg) == Confirmed
                       then exists marks | marks <= LabelledWith(c.sds, PLANE_KEY, p) :: d.sds == Marked(c.sds, marks, cfg)
                       else d.sds == c.sds
    case SqbKey(s) =>
      s in c.sds && exists sd :: SqbFrom(c, s, sd, cfg, d)
    case DeploymentKey(_) => d.sds == c.sds
  }

  /** Everything else the provenance argument needs of one reconcile. */
  ghost predicate OthersFrom(c: Cluster, key: Key, cfg: Config, d: Cluster) {
    match key
    case ApplicationKey(a) =>
      && a in c.apps && d.planes == c.planes && d.deps == c.deps && d.apps in {c.apps, c.apps - {a}}
      && d.services in {c.services, c.services + {a}, c.services - {a}}
      && (MarkOf(a, c.apps[a].annotations, cfg) != Confirmed ==> d.apps == c.apps && c.services <= d.services)
    case PlaneKey(p) =>
      && p in c.planes && d.apps == c.apps && d.deps == c.deps && d.services == c.services
      && d.planes in {c.planes, c.planes - {p}}
      && (MarkOf(p, c.planes[p].annotations, cfg) != Confirmed ==> d.planes == c.planes)
    case SqbKey(s) =>
      && s in c.sds && d.apps == c.apps && d.planes == c.planes && d.services == c.services
      && SameButAt(c.deps, d.deps, s)
      && (MarkOf(s, c.sds[s].annotations, cfg) != Confirmed ==> !DeletionRequested(c, d, s))
    case DeploymentKey(_) =>
      && d.apps == c.apps && d.planes == c.planes && d.services == c.services
      && forall n :: !DeletionRequested(c, d, n)
  }

  lemma ApplicationDone(c: Cluster, a: string, cfg: Config, d: Cluster)
    requires a in c.apps && Reconciled(c, ApplicationKey(a), cfg, d)
    ensures SqbsFrom(c, ApplicationKey(a), cfg, d) && OthersFrom(c, ApplicationKey(a), cfg, d)
  {
    var names := LabelledWith(c.sds, APP_KEY, a);
    if MarkOf(a, c.apps[a].annotations, cfg) == Confirmed && Bare(c.sds, names) == {} {
      assert d.sds == Marked(c.sds, names, cfg);
    }
  }

  lemma ApplicationPart(c: Cluster, a: string, cfg: Config, d: Cluster)
    requires a in c.apps && PartlyReconciled(c, ApplicationKey(a), cfg, d)
    ensures SqbsFrom(c, ApplicationKey(a), cfg, d) && OthersFrom(c, ApplicationKey(a), cfg, d)
  {
    if d.sds == c.sds {
      var none: set<string> := {};
      MarkedNone(c.sds, cfg);
      assert none <= LabelledWith(c.sds, APP_KEY, a) && d.sds == Marked(c.sds, none, cfg);
    }
  }

  lemma PlaneDone(c: Cluster, p: string, cfg: Config, d: Cluster)
    requires p in c.planes && Reconciled(c, PlaneKey(p), cfg, d)
    ensures SqbsFrom(c, PlaneKey(p), cfg, d) && OthersFrom(c, PlaneKey(p), cfg, d)
  {
    var names := LabelledWith(c.sds, PLANE_KEY, p);
    if MarkOf(p, c.planes[p].annotations, cfg) == Confirmed && Bare(c.sds, names) == {} {
      assert names <= names && d.sds == Marked(c.sds, names, cfg);
    }
  }

  lemma PlanePart(c: Cluster, p: string, cfg: Config, d: Cluster)
    requires p in c.planes && PartlyReconciled(c, PlaneKey(p), cfg, d)
    ensures SqbsFrom(c, PlaneKey(p), cfg, d) && OthersFrom(c, PlaneKey(p), cfg, d)
  {
  }

  ghost predicate SameButAt(a: map<string, Deployment>, b: map<string, Deployment>, s: string) {
    forall n | n != s :: (n in a <==> n in b) && (n in a ==> a[n] == b[n])
  }

  lemma SqbDeletedEffect(c: Cluster, s: string, cfg: Config)
    requires s in c.sds
    ensures var d := SqbDeleted(c, s, c.sds[s], cfg);
            && d.apps == c.apps && d.planes == c.planes && d.services == c.services
            && SameButAt(c.deps, d.deps, s) && d.sds == c.sds - {s}
  {
  }

  lemma SqbAppliedEffect(c: Cluster, s: string, cfg: Config)
    requires s in c.sds
    ensures var d := SqbApplied(c, s, c.sds[s], cfg);
            && d.apps == c.apps && d.planes == c.planes && d.services == c.services && d.sds == c.sds
            && SameButAt(c.deps, d.deps, s) && !DeletionRequested(c, d, s)
  {
  }

  lemma SqbOperatedEffect(c: Cluster, s: string, cfg: Config)
    requires s in c.sds
    ensures var d := SqbOperated(c, s, cfg);
            && d.apps == c.apps && d.planes == c.planes && d.services == c.services && SameButAt(c.deps, d.deps, s)
            && (MarkOf(s, c.sds[s].annotations, cfg) != Confirmed ==> !DeletionRequested(c, d, s) && d.sds == c.sds)
            && (MarkOf(s, c.sds[s].annotations, cfg) == Confirmed ==> d.sds == c.sds - {s})
  {
    if MarkOf(s, c.sds[s].annotations, cfg) == Confirmed {
      SqbDeletedEffect(c, s, cfg);
    } else if SqbOperated(c, s, cfg) != c {
      SqbAppliedEffect(c, s, cfg);
    }
  }

  /** The effect of `Operate` on an SQBDeployment that is as stored, or has just been initialised. */
  lemma OperatedSqbs(c: Cluster, s: string, sd: SqbDeployment, v: string, cfg: Config)
    requires s in c.sds && sd in {c.sds[s], WithInit(c.sds[s], v)}
    ensures SqbsFrom(c, SqbKey(s), cfg, SqbOperated(c.(sds := c.sds[s := sd]), s, cfg))
  {
    MarkedStays(s, c.sds[s], cfg);
    SqbOperatedEffect(c.(sds := c.sds[s := sd]), s, cfg);
    assert SqbFrom(c, s, sd, cfg, SqbOperated(c.(sds := c.sds[s := sd]), s, cfg));
  }

  lemma OperatedOthers(c: Cluster, s: string, sd: SqbDeployment, v: string, cfg: Config)
    requires s in c.sds && sd in {c.sds[s], WithInit(c.sds[s], v)}
    ensures OthersFrom(c, SqbKey(s), cfg, SqbOperated(c.(sds := c.sds[s := sd]), s, cfg))
  {
    MarkedStays(s, c.sds[s], cfg);
    SqbOperatedEffect(c.(sds := c.sds[s := sd]), s, cfg);
  }

  lemma SqbEffect(c: Cluster, s: string, cfg: Config, d: Cluster)
    requires s in c.sds && d == SqbReconciled(c, s, cfg)
    ensures d == c || (SqbsFrom(c, SqbKey(s), cfg, d) && OthersFrom(c, SqbKey(s), cfg, d))
  {
    if Initialized(c.sds[s]) {
      assert c.(sds := c.sds[s := c.sds[s]]) == c;
      OperatedSqbs(c, s, c.sds[s], "", cfg);
      OperatedOthers(c, s, c.sds[s], "", cfg);
    } else if c.sds[s].app in c.apps {
      var v := InjectValue(c.apps[c.sds[s].app], cfg);
      OperatedSqbs(c, s, WithInit(c.sds[s], v), v, cfg);
      OperatedOthers(c, s, WithInit(c.sds[s], v), v, cfg);
    }
  }

  lemma InitialisedSqb(c: Cluster, s: string, cfg: Config) returns (v: string)
    requires s in c.sds
    ensures var c1 := SqbInitialised(c, s, cfg);
            s in c1.sds && c1 == c.(sds := c.sds[s := c1.sds[s]]) && c1.sds[s] in {c.sds[s], WithInit(c.sds[s], v)}
  {
    v := if c.sds[s].app in c.apps then InjectValue(c.apps[c.sds[s].app], cfg) else "";
    assert c.sds == c.sds[s := c.sds[s]];
  }

  /** Stopped handlers leave the SQBDeployments alone and the Deployments as they were or as after all. */
  lemma StoppedEffect(c: Cluster, s: string, cfg: Config, d: Cluster)
    requires s in c.sds && PartlyOperated(c, s, cfg, d)
    ensures d.apps == c.apps && d.planes == c.planes && d.services == c.services && d.sds == c.sds
    ensures d.deps == c.deps || d.deps == SqbOperated(c, s, cfg).deps
  {
  }

  lemma SqbPartEffect(c: Cluster, s: string, cfg: Config, d: Cluster)
    requires PartlyReconciled(c, SqbKey(s), cfg, d) && d != c
    ensures SqbsFrom(c, SqbKey(s), cfg, d) && OthersFrom(c, SqbKey(s), cfg, d)
  {
    var v := InitialisedSqb(c, s, cfg);
    var c1 := SqbInitialised(c, s, cfg);
    StoppedEffect(c1, s, cfg, d);
    MarkedStays(s, c.sds[s], cfg);
    SqbOperatedEffect(c1, s, cfg);
    assert SqbFrom(c, s, c1.sds[s], cfg, d);
    SqbPartOthers(c, c1, s, cfg, d);
  }

  lemma SqbPartOthers(c: Cluster, c1: Cluster, s: string, cfg: Config, d: Cluster)
    requires s in c.sds && s in c1.sds && c1 == c.(sds := c1.sds)
    requires MarkOf(s, c1.sds[s].annotations, cfg) == MarkOf(s, c.sds[s].annotations, cfg)
    requires d.apps == c.apps && d.planes == c.planes && d.services == c.services
    requires d.deps == c.deps || d.deps == SqbOperated(c1, s, cfg).deps
    ensures OthersFrom(c, SqbKey(s), cfg, d)
  {
    SqbOperatedEffect(c1, s, cfg);
  }

  /** Every reconcile of a stored object has the effects stated; of a missing one, none. */
  lemma ReconcileEffect(c: Cluster, key: Key, cfg: Config, d: Cluster)
    requires Reconciled(c, key, cfg, d) || PartlyReconciled(c, key, cfg, d)
    ensures d == c || (SqbsFrom(c, key, cfg, d) && OthersFrom(c, key, cfg, d))
  {
    match key
    case ApplicationKey(a) =>
      if a in c.apps {
        if Reconciled(c, key, cfg, d) {
          ApplicationDone(c, a, cfg, d);
        } else {
          ApplicationPart(c, a, cfg, d);
        }
      }
    case PlaneKey(p) =>
      if p in c.planes {
        if Reconciled(c, key, cfg, d) {
          PlaneDone(c, p, cfg, d);
        } else {
          PlanePart(c, p, cfg, d);
        }
      }
    case SqbKey(s) =>
      if s in c.sds {
        if d != c && PartlyReconciled(c, key, cfg, d) {
          SqbPartEffect(c, s, cfg, d);
        } else if d != c {
          SqbEffect(c, s, cfg, d);
        }
      }
    case DeploymentKey(n) =>
  }

  /** What one reconcile can do to an SQBDeployment: nothing it keeps loses or changes its labels, and a
      new confirmed mark comes from a confirmed application or plane that the labels name. */
  lemma ReconcileMarks(c: Cluster, key: Key, cfg: Config, d: Cluster, s: string)
    requires d == c || SqbsFrom(c, key, cfg, d)
    requires s in d.sds
    ensures s in c.sds && d.sds[s].labels == c.sds[s].labels
    ensures RightChecksum(s, d.sds[s].annotations, cfg) ==>
              || RightChecksum(s, c.sds[s].annotations, cfg)
              || (key.ApplicationKey? && key.name in c.apps && HasLabel(c.sds[s].labels, APP_KEY, key.name)
                  && RightChecksum(key.name, c.apps[key.name].annotations, cfg))
              || (key.PlaneKey? && key.name in c.planes && HasLabel(c.sds[s].labels, PLANE_KEY, key.name)
                  && RightChecksum(key.name, c.planes[key.name].annotations, cfg))
  {
  }

  lemma TracedSqb(states: seq<Cluster>, events: seq<Event>, cfg: Config, n: nat, s: string)
    requires IsRun(states, events, cfg) && n < |events| && MarksTraced(states, events, n, cfg)
    requires s in states[n + 1].sds && RightChecksum(s, states[n + 1].sds[s].annotations, cfg)
    ensures Traceable(states, events, n + 1, s, states[n + 1].sds[s], cfg)
  {
    var c, e, d := states[n], events[n], states[n + 1];
    assert Transition(c, e, d, cfg);
    if e.PutSqb? && e.name == s && NewlyConfirms(c, e, SqbRef(s), cfg) {
      ConfirmedLater(states, events, n, SqbRef(s), cfg);
    } else {
      if e.Reconcile? {
        ReconcileEffect(c, e.key, cfg, d);
        ReconcileMarks(c, e.key, cfg, d, s);
      }
      var labels := c.sds[s].labels;
      forall ref | ConfirmedBefore(states, events, n, ref, cfg) ensures ConfirmedBefore(states, events, n + 1, ref, cfg) {
        ConfirmedLater(states, events, n, ref, cfg);
      }
      if RightChecksum(s, c.sds[s].annotations, cfg) {
        assert Traceable(states, events, n, s, c.sds[s], cfg);
      }
    }
  }

  lemma TracedOwners(states: seq<Cluster>, events: seq<Event>, cfg: Config, n: nat, ref: Ref)
    requires IsRun(states, events, cfg) && n < |events| && MarksTraced(states, events, n, cfg)
    requires match ref
             case ApplicationRef(a) =>
               a in states[n + 1].apps && RightChecksum(a, states[n + 1].apps[a].annotations, cfg)
             case PlaneRef(p) =>
               p in states[n + 1].planes && RightChecksum(p, states[n + 1].planes[p].annotations, cfg)
             case SqbRef(_) => false
    ensures ConfirmedBefore(states, events, n + 1, ref, cfg)
  {
    var c, e, d := states[n], events[n], states[n + 1];
    assert Transition(c, e, d, cfg);
    if e.Reconcile? {
      ReconcileEffect(c, e.key, cfg, d);
    }
    if !NewlyConfirms(c, e, ref, cfg) {
      assert ConfirmedBefore(states, events, n, ref, cfg);
    }
    ConfirmedLater(states, events, n, ref, cfg);
  }

  lemma {:induction false} AllMarksTraced(states: seq<Cluster>, events: seq<Event>, cfg: Config, n: nat)
    requires IsRun(states, events, cfg) && n <= |events|
    ensures MarksTraced(states, events, n, cfg)
  {
    if n > 0 {
      AllMarksTraced(states, events, cfg, n - 1);
      var c := states[n];
      forall a | a in c.apps && RightChecksum(a, c.apps[a].annotations, cfg)
        ensures ConfirmedBefore(states, events, n, ApplicationRef(a), cfg)
      {
        TracedOwners(states, events, cfg, n - 1, ApplicationRef(a));
      }
      forall p | p in c.planes && RightChecksum(p, c.planes[p].annotations, cfg)
        ensures ConfirmedBefore(states, events, n, PlaneRef(p), cfg)
      {
        TracedOwners(states, events, cfg, n - 1, PlaneRef(p));
      }
      forall s | s in c.sds && RightChecksum(s, c.sds[s].annotations, cfg)
        ensures Traceable(states, events, n, s, c.sds[s], cfg)
      {
        TracedSqb(states, events, cfg, n - 1, s);
      }
    }
  }

  /** What one reconcile may delete: only what carries a confirmed mark itself, the Service of such an
      application, and the Deployment of such an SQBDeployment. */
  lemma ReconcileDeletes(c: Cluster, key: Key, cfg: Config, d: Cluster)
    requires d == c || (SqbsFrom(c, key, cfg, d) && OthersFrom(c, key, cfg, d))
    ensures forall a | (a in c.apps && a !in d.apps) || (a in c.services && a !in d.services) ::
              a in c.apps && RightChecksum(a, c.apps[a].annotations, cfg)
    ensures forall p | p in c.planes && p !in d.planes :: RightChecksum(p, c.planes[p].annotations, cfg)
    ensures forall s | (s in c.sds && s !in d.sds) || DeletionRequested(c, d, s) ::
              s in c.sds && RightChecksum(s, c.sds[s].annotations, cfg)
  {
  }

  /** Delete provenance over whole runs. */
  lemma DeleteProvenance(states: seq<Cluster>, events: seq<Event>, cfg: Config, i: nat)
    requires IsRun(states, events, cfg) && i < |events| && events[i].Reconcile?
    ensures var c, d := states[i], states[i + 1];
            && (forall a | (a in c.apps && a !in d.apps) || (a in c.services && a !in d.services) ::
                  ConfirmedBefore(states, events, i, ApplicationRef(a), cfg))
            && (forall p | p in c.planes && p !in d.planes :: ConfirmedBefore(states, events, i, PlaneRef(p), cfg))
            && (forall s | (s in c.sds && s !in d.sds) || DeletionRequested(c, d, s) ::
                  s in c.sds && Traceable(states, events, i, s, c.sds[s], cfg))
  {
    AllMarksTraced(states, events, cfg, i);
    assert Transition(states[i], events[i], states[i + 1], cfg);
    ReconcileEffect(states[i], events[i].key, cfg, states[i + 1]);
    ReconcileDeletes(states[i], events[i].key, cfg, states[i + 1]);
  }
}
