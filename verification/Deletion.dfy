/** Explicit deletion: the reconciles of an application, a plane, an SQBDeployment and a deleting
    Deployment, and the marks by which a confirmed deletion reaches the objects below. */
module Deletion {
  import opened Common
  import opened Objects
  import opened Workload
  import opened Ingresses
  import opened Istio
  import Claims

  /** What the four reconciles read and write, but for the claims, which concern no one but the claim
      handler. Services and special VirtualServices are represented by their names. */
  datatype Cluster = Cluster(apps: map<string, Application>, planes: map<string, Plane>, sds: SqbMap,
                             deps: map<string, Deployment>, services: set<string>, ingresses: IngressMap,
                             specials: set<string>)

  datatype Key = ApplicationKey(name: string) | PlaneKey(name: string) | SqbKey(name: string) | DeploymentKey(name: string)

  // ----- marking -----

  function LabelledWith(sds: SqbMap, key: string, value: string): set<string> {
    set s | s in sds && HasLabel(sds[s].labels, key, value)
  }

  function WithMark(name: string, sd: SqbDeployment, cfg: Config): SqbDeployment {
    sd.(annotations := sd.annotations[EXPLICIT_DELETE_KEY := cfg.checksum(name)])
  }

  function Marked(sds: SqbMap, names: set<string>, cfg: Config): SqbMap {
    map s | s in sds :: if s in names then WithMark(s, sds[s], cfg) else sds[s]
  }

  /** A stored SQBDeployment without annotations is read back with a nil map; marking it panics. */
  function Bare(sds: SqbMap, names: set<string>): set<string> {
    set s | s in names && s in sds && sds[s].annotations == map[]
  }

  lemma MarkedStays(s: string, sd: SqbDeployment, cfg: Config)
    ensures MarkOf(s, WithMark(s, sd, cfg).annotations, cfg) == Confirmed
    ensures Initialized(WithMark(s, sd, cfg)) <==> Initialized(sd)
    ensures forall v :: MarkOf(s, WithInit(sd, v).annotations, cfg) == MarkOf(s, sd.annotations, cfg)
    ensures forall v :: MarkOf(s, WithInject(sd, v).annotations, cfg) == MarkOf(s, sd.annotations, cfg)
  {
  }

  // ----- the reconciles, when every request succeeds -----

  function ApplicationDeleted(c: Cluster, a: string, app: Application, cfg: Config): Cluster {
    c.(services := c.services - {a}, ingresses := ApplicationStep(c.ingresses, a, app, c.sds, cfg),
       sds := Marked(c.sds, LabelledWith(c.sds, APP_KEY, a), cfg), apps := c.apps - {a})
  }

  function ApplicationApplied(c: Cluster, a: string, app: Application, cfg: Config): Cluster {
    c.(services := c.services + {a}, ingresses := ApplicationStep(c.ingresses, a, app, c.sds, cfg),
       sds := Propagated(c.sds, Stale(c.sds, a, InjectValue(app, cfg)), InjectValue(app, cfg)))
  }

  function PlaneDeleted(c: Cluster, p: string, cfg: Config): Cluster {
    c.(sds := Marked(c.sds, LabelledWith(c.sds, PLANE_KEY, p), cfg), planes := c.planes - {p})
  }

  /** A delete request: with our finalizer the Deployment stays, deleting; without it, it is gone. */
  function Requested(deps: map<string, Deployment>, d: string): map<string, Deployment> {
    if d !in deps then deps
    else if deps[d].finalizer then deps[d := deps[d].(deleting := true)]
    else deps - {d}
  }

  function SpecialStep(specials: set<string>, s: string, wanted: bool, cfg: Config): set<string> {
    if !cfg.istioEnable then specials else if wanted then specials + {s} else specials - {s}
  }

  function SqbDeleted(c: Cluster, s: string, sd: SqbDeployment, cfg: Config): Cluster {
    c.(deps := Requested(c.deps, s), ingresses := DeploymentStep(c.ingresses, s, sd, cfg),
       specials := SpecialStep(c.specials, s, false, cfg), sds := c.sds - {s})
  }

  /** The SQBDeployment as the claim handler leaves it to the next handler: its volumes are named. */
  function WithNames(sd: SqbDeployment, cfg: Config): SqbDeployment {
    sd.(volumes := Claims.NamedAll(Claims.OwnerOf(sd, cfg), sd.volumes, cfg.pvcEnable))
  }

  /** The Deployment is generated from the stored one, or from scratch. */
  function Generated(deps: map<string, Deployment>, s: string, sd: SqbDeployment, cfg: Config): map<string, Deployment> {
    deps[s := Regenerate(if s in deps then deps[s] else NO_DEPLOYMENT, sd, cfg)]
  }

  function SqbApplied(c: Cluster, s: string, sd: SqbDeployment, cfg: Config): Cluster {
    c.(deps := Generated(c.deps, s, WithNames(sd, cfg), cfg), ingresses := DeploymentStep(c.ingresses, s, sd, cfg),
       specials := SpecialStep(c.specials, s, PublicEntry(sd), cfg))
  }

  /** The handlers of an SQBDeployment after the claim handler: a wrong mark, or a missing
      application, stops them at once. */
  function SqbOperated(c: Cluster, s: string, cfg: Config): Cluster
    requires s in c.sds
  {
    var sd := c.sds[s];
    match MarkOf(s, sd.annotations, cfg)
    case Wrong => c
    case Confirmed => SqbDeleted(c, s, sd, cfg)
    case Unmarked => if sd.app in c.apps then SqbApplied(c, s, sd, cfg) else c
  }

  /** An SQBDeployment that is not initialised is, if its application exists. */
  function SqbInitialised(c: Cluster, s: string, cfg: Config): Cluster {
    if s in c.sds && !Initialized(c.sds[s]) && c.sds[s].app in c.apps
    then c.(sds := c.sds[s := WithInit(c.sds[s], InjectValue(c.apps[c.sds[s].app], cfg))])
    else c
  }

  function SqbReconciled(c: Cluster, s: string, cfg: Config): Cluster {
    var c1 := SqbInitialised(c, s, cfg);
    if s in c1.sds && Initialized(c1.sds[s]) then SqbOperated(c1, s, cfg) else c
  }

  /** The claims after the claim handler. */
  ghost predicate ClaimsHandled(claims: Claims.ClaimMap, s: string, sd: SqbDeployment, cfg: Config,
                                after: Claims.ClaimMap) {
    var mark := MarkOf(s, sd.annotations, cfg);
    if mark == Wrong then after == claims
    else Claims.Handled(Claims.OwnerOf(sd, cfg), claims, sd.volumes, mark == Confirmed, cfg.pvcEnable, after)
  }

  /** The Deployment controller removes a deleting Deployment; its status writes are not modelled here. */
  function DeploymentReconciled(c: Cluster, d: string): Cluster {
    if d in c.deps && c.deps[d].deleting then c.(deps := c.deps - {d}) else c
  }

  /** One reconcile whose API requests all succeed. Marking stops at an SQBDeployment without
      annotations: some of the others are then marked and the application or plane stays. */
  ghost predicate Reconciled(c: Cluster, key: Key, cfg: Config, d: Cluster) {
    match key
    case ApplicationKey(a) =>
      if a !in c.apps then d == c
      else
        var names := LabelledWith(c.sds, APP_KEY, a);
        (match MarkOf(a, c.apps[a].annotations, cfg)
         case Wrong => d == c
         case Unmarked => d == ApplicationApplied(c, a, c.apps[a], cfg)
         case Confirmed =>
           if Bare(c.sds, names) == {} then d == ApplicationDeleted(c, a, c.apps[a], cfg)
           else exists marks | marks <= names - Bare(c.sds, names) ::
                  d == ApplicationDeleted(c, a, c.apps[a], cfg).(apps := c.apps, sds := Marked(c.sds, marks, cfg)))
    case PlaneKey(p) =>
      if p !in c.planes then d == c
      else
        var names := LabelledWith(c.sds, PLANE_KEY, p);
        (match MarkOf(p, c.planes[p].annotations, cfg)
         case Wrong => d == c
         case Unmarked => d == c
         case Confirmed =>
           if Bare(c.sds, names) == {} then d == PlaneDeleted(c, p, cfg)
           else exists marks | marks <= names - Bare(c.sds, names) :: d == c.(sds := Marked(c.sds, marks, cfg)))
    case SqbKey(s) => d == SqbReconciled(c, s, cfg)
    case DeploymentKey(n) => d == DeploymentReconciled(c, n)
  }

  datatype Ending = Done | Failed | Panicked

  // ----- the reconciles, when any request may fail -----

  function ServicesAfter(services: set<string>, a: string, app: Application, cfg: Config): set<string> {
    if MarkOf(a, app.annotations, cfg) == Confirmed then services - {a} else services + {a}
  }

  /** The handlers for Service and ingresses failed. */
  ghost predicate PartlyExposed(c: Cluster, a: string, app: Application, cfg: Config, d: Cluster) {
    || d == c
    || (&& d == c.(services := d.services, ingresses := d.ingresses)
        && d.services == ServicesAfter(c.services, a, app, cfg)
        && PartlyStepped(c.ingresses, a, app, c.sds, cfg, d.ingresses))
  }

  /** The handlers of an SQBDeployment, the last of which would have led to `full`, stopped after `n`. */
  predicate Stopped(c: Cluster, full: Cluster, n: nat, d: Cluster) {
    d == c.(deps := if n >= 1 then full.deps else c.deps,
            ingresses := if n >= 2 then full.ingresses else c.ingresses,
            specials := if n >= 3 then full.specials else c.specials)
  }

  /** The handlers of an SQBDeployment failed. */
  predicate PartlyOperated(c: Cluster, s: string, cfg: Config, d: Cluster)
    requires s in c.sds
  {
    var full := SqbOperated(c, s, cfg);
    Stopped(c, full, 0, d) || Stopped(c, full, 1, d) || Stopped(c, full, 2, d) || Stopped(c, full, 3, d)
  }

  /** What the claim handler may leave when a request of this reconcile fails. */
  ghost predicate ClaimsPartly(claims: Claims.ClaimMap, s: string, sd: SqbDeployment, cfg: Config, after: Claims.ClaimMap) {
    var mark := MarkOf(s, sd.annotations, cfg);
    if mark == Wrong then after == claims
    else Claims.HandledPartly(Claims.OwnerOf(sd, cfg), claims, sd.volumes, mark == Confirmed, cfg.pvcEnable, after)
  }

  /** What a reconcile that fails midway may have left. */
  ghost predicate PartlyReconciled(c: Cluster, key: Key, cfg: Config, d: Cluster) {
    match key
    case ApplicationKey(a) =>
      && a in c.apps
      && var app, value := c.apps[a], InjectValue(c.apps[a], cfg);
         (match MarkOf(a, app.annotations, cfg)
          case Wrong => d == c
          case Unmarked =>
            || PartlyExposed(c, a, app, cfg, d)
            || exists done | done <= Stale(c.sds, a, value) ::
                 d == ApplicationApplied(c, a, app, cfg).(sds := Propagated(c.sds, done, value))
          case Confirmed =>
            || PartlyExposed(c, a, app, cfg, d)
            || exists marks | marks <= LabelledWith(c.sds, APP_KEY, a) ::
                 d == ApplicationDeleted(c, a, app, cfg).(apps := c.apps, sds := Marked(c.sds, marks, cfg)))
    case PlaneKey(p) =>
      && p in c.planes
      && (match MarkOf(p, c.planes[p].annotations, cfg)
          case Wrong => d == c
          case Unmarked => d == c
          case Confirmed =>
            exists marks | marks <= LabelledWith(c.sds, PLANE_KEY, p) :: d == c.(sds := Marked(c.sds, marks, cfg)))
    case SqbKey(s) =>
      && s in c.sds
      && (|| d == c
          || var c1 := SqbInitialised(c, s, cfg);
             && s in c1.sds && Initialized(c1.sds[s])
             && PartlyOperated(c1, s, cfg, d))
    case DeploymentKey(n) => d == c
  }

  lemma NoneOperated(c: Cluster, s: string, cfg: Config)
    requires s in c.sds
    ensures PartlyOperated(c, s, cfg, c)
  {
    assert Stopped(c, SqbOperated(c, s, cfg), 0, c);
  }

  /** For a confirmed deletion, `n` handlers succeeded, and the removal did if there is no error. */
  lemma DeletedStopped(c: Cluster, s: string, cfg: Config, n: nat, error: bool, d: Cluster)
    requires s in c.sds && MarkOf(s, c.sds[s].annotations, cfg) == Confirmed && n <= 3 && (!error ==> n == 3)
    requires d == c.(deps := d.deps, ingresses := d.ingresses, specials := d.specials, sds := d.sds)
    requires d.deps == if n >= 1 then Requested(c.deps, s) else c.deps
    requires d.ingresses == if n >= 2 then DeploymentStep(c.ingresses, s, c.sds[s], cfg) else c.ingresses
    requires d.specials == if n >= 3 then SpecialStep(c.specials, s, false, cfg) else c.specials
    requires d.sds == if error then c.sds else c.sds - {s}
    ensures if error then PartlyOperated(c, s, cfg, d) else d == SqbOperated(c, s, cfg)
  {
    if error {
      assert Stopped(c, SqbOperated(c, s, cfg), n, d);
    }
  }

  /** For one that is not being deleted, `n` handlers succeeded. */
  lemma AppliedStopped(c: Cluster, s: string, cfg: Config, n: nat, d: Cluster)
    requires s in c.sds && MarkOf(s, c.sds[s].annotations, cfg) == Unmarked && c.sds[s].app in c.apps && n <= 3
    requires d == c.(deps := d.deps, ingresses := d.ingresses, specials := d.specials)
    requires d.deps == if n >= 1 then Generated(c.deps, s, WithNames(c.sds[s], cfg), cfg) else c.deps
    requires d.ingresses == if n >= 2 then DeploymentStep(c.ingresses, s, c.sds[s], cfg) else c.ingresses
    requires d.specials == if n >= 3 then SpecialStep(c.specials, s, PublicEntry(c.sds[s]), cfg) else c.specials
    ensures PartlyOperated(c, s, cfg, d) && (n == 3 ==> d == SqbOperated(c, s, cfg))
  {
  }

  /** The handlers for Service and ingresses failed, and nothing else was done. */
  lemma ExposedPartly(c: Cluster, a: string, cfg: Config, d: Cluster)
    requires a in c.apps && MarkOf(a, c.apps[a].annotations, cfg) != Wrong
    requires d == c.(services := d.services, ingresses := d.ingresses)
    requires || (d.services == c.services && d.ingresses == c.ingresses)
             || (d.services == ServicesAfter(c.services, a, c.apps[a], cfg)
                 && PartlyStepped(c.ingresses, a, c.apps[a], c.sds, cfg, d.ingresses))
    ensures PartlyReconciled(c, ApplicationKey(a), cfg, d)
  {
    assert PartlyExposed(c, a, c.apps[a], cfg, d);
  }

  /** After the handlers for Service and ingresses, some SQBDeployments were marked. */
  lemma MarkedDeleted(c: Cluster, a: string, cfg: Config, marks: set<string>, d: Cluster)
    requires a in c.apps && MarkOf(a, c.apps[a].annotations, cfg) == Confirmed
    requires d == c.(services := d.services, ingresses := d.ingresses, sds := d.sds)
    requires d.services == ServicesAfter(c.services, a, c.apps[a], cfg)
    requires d.ingresses == ApplicationStep(c.ingresses, a, c.apps[a], c.sds, cfg)
    requires var names := LabelledWith(c.sds, APP_KEY, a);
             marks <= names - Bare(c.sds, names) && d.sds == Marked(c.sds, marks, cfg)
    ensures PartlyReconciled(c, ApplicationKey(a), cfg, d)
    ensures var names := LabelledWith(c.sds, APP_KEY, a);
            && (Bare(c.sds, names) != {} ==> Reconciled(c, ApplicationKey(a), cfg, d))
            && (marks == names ==> Reconciled(c, ApplicationKey(a), cfg, d.(apps := c.apps - {a})))
  {
    assert d == ApplicationDeleted(c, a, c.apps[a], cfg).(apps := c.apps, sds := Marked(c.sds, marks, cfg));
    var names := LabelledWith(c.sds, APP_KEY, a);
    if marks == names {
      assert Bare(c.sds, names) == {};
      assert d.(apps := c.apps - {a}) == ApplicationDeleted(c, a, c.apps[a], cfg);
    }
  }

  /** After them, some SQBDeployments were given the setting. */
  lemma SettledApplied(c: Cluster, a: string, cfg: Config, done: set<string>, d: Cluster)
    requires a in c.apps && MarkOf(a, c.apps[a].annotations, cfg) == Unmarked
    requires d == c.(services := d.services, ingresses := d.ingresses, sds := d.sds)
    requires d.services == ServicesAfter(c.services, a, c.apps[a], cfg)
    requires d.ingresses == ApplicationStep(c.ingresses, a, c.apps[a], c.sds, cfg)
    requires var value := InjectValue(c.apps[a], cfg);
             done <= Stale(c.sds, a, value) && d.sds == Propagated(c.sds, done, value)
    ensures PartlyReconciled(c, ApplicationKey(a), cfg, d)
    ensures done == Stale(c.sds, a, InjectValue(c.apps[a], cfg)) ==> Reconciled(c, ApplicationKey(a), cfg, d)
  {
    assert d == ApplicationApplied(c, a, c.apps[a], cfg).(sds := Propagated(c.sds, done, InjectValue(c.apps[a], cfg)));
  }

  predicate UpToExposed(c: Cluster, a: string, cfg: Config, d: Cluster)
    requires a in c.apps
  {
    d.services == ServicesAfter(c.services, a, c.apps[a], cfg)
    && d.ingresses == ApplicationStep(c.ingresses, a, c.apps[a], c.sds, cfg)
  }

  ghost predicate NotExposed(c: Cluster, a: string, cfg: Config, d: Cluster)
    requires a in c.apps
  {
    || (d.services == c.services && d.ingresses == c.ingresses)
    || (d.services == ServicesAfter(c.services, a, c.apps[a], cfg)
        && PartlyStepped(c.ingresses, a, c.apps[a], c.sds, cfg, d.ingresses))
  }

  /** How a reconcile that deletes an application ends, in either way. */
  lemma DeletionEnds(c: Cluster, a: string, cfg: Config, ending: Ending, exposed: bool, marks: set<string>, d: Cluster)
    requires a in c.apps && MarkOf(a, c.apps[a].annotations, cfg) == Confirmed
    requires d == c.(apps := d.apps, services := d.services, ingresses := d.ingresses, sds := d.sds)
    requires !exposed ==> ending == Failed && d.sds == c.sds && d.apps == c.apps && NotExposed(c, a, cfg, d)
    requires exposed ==>
               && UpToExposed(c, a, cfg, d) && d.apps == (if ending == Done then c.apps - {a} else c.apps)
               && d.sds == Marked(c.sds, marks, cfg)
               && var names := LabelledWith(c.sds, APP_KEY, a);
                  && marks <= names - Bare(c.sds, names)
                  && (ending == Done ==> marks == names) && (ending == Panicked ==> Bare(c.sds, names) != {})
    ensures if ending == Failed then PartlyReconciled(c, ApplicationKey(a), cfg, d)
            else Reconciled(c, ApplicationKey(a), cfg, d)
  {
    if exposed {
      MarkedDeleted(c, a, cfg, marks, d.(apps := c.apps));
      assert ending != Done ==> d.(apps := c.apps) == d;
      assert ending == Done ==> d.(apps := c.apps).(apps := c.apps - {a}) == d;
    } else {
      ExposedPartly(c, a, cfg, d);
    }
  }

  /** How a reconcile of an application that is not being deleted ends, in either way. */
  lemma ApplyingEnds(c: Cluster, a: string, cfg: Config, error: bool, exposed: bool, settled: set<string>, d: Cluster)
    requires a in c.apps && MarkOf(a, c.apps[a].annotations, cfg) == Unmarked
    requires d == c.(services := d.services, ingresses := d.ingresses, sds := d.sds)
    requires !exposed ==> error && d.sds == c.sds && NotExposed(c, a, cfg, d)
    requires exposed ==>
               && UpToExposed(c, a, cfg, d)
               && var value := InjectValue(c.apps[a], cfg);
                  && d.sds == Propagated(c.sds, settled, value) && settled <= Stale(c.sds, a, value)
                  && (!error ==> settled == Stale(c.sds, a, value))
    ensures if error then PartlyReconciled(c, ApplicationKey(a), cfg, d) else Reconciled(c, ApplicationKey(a), cfg, d)
  {
    if exposed {
      SettledApplied(c, a, cfg, settled, d);
    } else {
      ExposedPartly(c, a, cfg, d);
    }
  }

  lemma MarkedNone(sds: SqbMap, cfg: Config)
    ensures Marked(sds, {}, cfg) == sds
  {
  }

  // ----- the handlers -----

  class OperatorStore {
    var apps: map<string, Application>
    var planes: map<string, Plane>
    var sds: SqbMap
    var deps: map<string, Deployment>
    var services: set<string>
    var ingresses: IngressMap
    var specials: set<string>
    var claims: Claims.ClaimMap

    constructor (c: Cluster, claims: Claims.ClaimMap)
      ensures Value() == c && this.claims == claims
    {
      apps, planes, sds, deps := c.apps, c.planes, c.sds, c.deps;
      services, ingresses, specials := c.services, c.ingresses, c.specials;
      this.claims := claims;
    }

    function Value(): Cluster
      reads this
    {
      Cluster(apps, planes, sds, deps, services, ingresses, specials)
    }

    /** `deleteByLabel`: puts the right checksum on every listed SQBDeployment, or on those in `marks` when it
        fails or panics. */
    method MarkByLabel(key: string, value: string, cfg: Config) returns (ending: Ending, ghost marks: set<string>)
      modifies this`sds
      ensures var names := LabelledWith(old(sds), key, value);
              && marks <= names - Bare(old(sds), names) && sds == Marked(old(sds), marks, cfg)
              && (ending == Done ==> marks == names)
              && (ending == Panicked ==> Bare(old(sds), names) != {})
    {
      ghost var before, names := sds, LabelledWith(sds, key, value);
      var items := set s | s in sds && HasLabel(sds[s].labels, key, value);
      marks := {};
      MarkedNone(sds, cfg);
      while items != {}
        invariant marks !! items && marks + items == names
        invariant sds == Marked(before, marks, cfg) && marks !! Bare(before, names)
      {
        var s :| s in items;
        if sds[s].annotations == map[] {
          assert s in Bare(before, names);
          ending := Panicked;
          return;
        }
        var fails: bool := *;
        if fails {
          ending := Failed;
          return;
        }
        sds := sds[s := sds[s].(annotations := sds[s].annotations[EXPLICIT_DELETE_KEY := cfg.checksum(s)])];
        marks, items := marks + {s}, items - {s};
      }
      ending := Done;
    }

    /** `Operate` of the plane controller. */
    method OperatePlane(p: string, cfg: Config) returns (ending: Ending)
      requires p in planes
      modifies this
      ensures ending != Failed ==> Reconciled(old(Value()), PlaneKey(p), cfg, Value())
      ensures ending == Failed ==> PartlyReconciled(old(Value()), PlaneKey(p), cfg, Value())
      ensures WrongChecksum(p, old(planes)[p].annotations, cfg) ==> ending == Failed && Value() == old(Value())
      ensures claims == old(claims)
    {
      ghost var c := Value();
      var mark := MarkOf(p, planes[p].annotations, cfg);
      if mark == Wrong {
        return Failed;
      }
      if mark == Unmarked {
        return Done;
      }
      ghost var marks;
      ending, marks := MarkByLabel(PLANE_KEY, p, cfg);
      assert Value() == c.(sds := Marked(c.sds, marks, cfg));
      if ending != Done {
        return;
      }
      var fails: bool := *;
      if fails {
        return Failed;
      }
      planes := planes - {p};
    }

    /** The service and ingress handlers of an application. */
    method Expose(a: string, app: Application, cfg: Config) returns (error: bool)
      modifies this`services, this`ingresses
      ensures services in {old(services), ServicesAfter(old(services), a, app, cfg)}
      ensures error ==>
                || (services == old(services) && ingresses == old(ingresses))
                || (services == ServicesAfter(old(services), a, app, cfg)
                    && PartlyStepped(old(ingresses), a, app, sds, cfg, ingresses))
      ensures !error ==>
                && services == ServicesAfter(old(services), a, app, cfg)
                && ingresses == ApplicationStep(old(ingresses), a, app, sds, cfg)
    {
      error := *;
      if error {
        return;
      }
      services := ServicesAfter(services, a, app, cfg);
      var store := new IngressStore(ingresses);
      error := store.HandleApplication(a, app, sds, cfg);
      ingresses := store.ingresses;
    }

    /** `Operate` of the application controller, for a confirmed deletion; `exposed` tells whether it came to
        the SQBDeployments, and `marks` which of them it marked. */
    method DeleteApplication(a: string, cfg: Config) returns (ending: Ending, ghost exposed: bool, ghost marks: set<string>)
      requires a in apps && MarkOf(a, apps[a].annotations, cfg) == Confirmed
      modifies this`apps, this`services, this`ingresses, this`sds
      ensures !exposed ==>
                && ending == Failed && sds == old(sds) && apps == old(apps)
                && (|| (services == old(services) && ingresses == old(ingresses))
                    || (services == ServicesAfter(old(services), a, old(apps)[a], cfg)
                        && PartlyStepped(old(ingresses), a, old(apps)[a], sds, cfg, ingresses)))
      ensures exposed ==>
                && services == ServicesAfter(old(services), a, old(apps)[a], cfg)
                && ingresses == ApplicationStep(old(ingresses), a, old(apps)[a], old(sds), cfg)
                && apps == (if ending == Done then old(apps) - {a} else old(apps))
                && sds == Marked(old(sds), marks, cfg)
                && var names := LabelledWith(old(sds), APP_KEY, a);
                   && marks <= names - Bare(old(sds), names)
                   && (ending == Done ==> marks == names) && (ending == Panicked ==> Bare(old(sds), names) != {})
    {
      var app := apps[a];
      exposed, marks := false, {};
      var error := Expose(a, app, cfg);
      if error {
        ending := Failed;
        return;
      }
      exposed := true;
      ending, marks := MarkByLabel(APP_KEY, a, cfg);
      if ending == Done {
        var fails: bool := *;
        if fails {
          ending := Failed;
          return;
        }
        apps := apps - {a};
      }
    }

    /** `Operate` of the application controller, for an application that is not being deleted; `settled` are
        the SQBDeployments that were given its setting. */
    method ApplyApplication(a: string, cfg: Config) returns (error: bool, ghost exposed: bool, ghost settled: set<string>)
      requires a in apps && MarkOf(a, apps[a].annotations, cfg) == Unmarked
      modifies this`services, this`ingresses, this`sds
      ensures !exposed ==>
                && error && sds == old(sds)
                && (|| (services == old(services) && ingresses == old(ingresses))
                    || (services == ServicesAfter(old(services), a, apps[a], cfg)
                        && PartlyStepped(old(ingresses), a, apps[a], sds, cfg, ingresses)))
      ensures exposed ==>
                && services == ServicesAfter(old(services), a, apps[a], cfg)
                && ingresses == ApplicationStep(old(ingresses), a, apps[a], old(sds), cfg)
                && sds == Propagated(old(sds), settled, InjectValue(apps[a], cfg))
                && settled <= Stale(old(sds), a, InjectValue(apps[a], cfg))
                && (!error ==> settled == Stale(old(sds), a, InjectValue(apps[a], cfg)))
    {
      ghost var before, value := sds, InjectValue(apps[a], cfg);
      exposed, settled := false, {};
      error := Expose(a, apps[a], cfg);
      if error {
        return;
      }
      exposed := true;
      var store := new SqbStore(apps, sds);
      error := store.PropagateIstio(a, apps[a], cfg);
      sds := store.sds;
      if error {
        settled :| settled <= Stale(before, a, value) && sds == Propagated(before, settled, value);
      } else {
        settled := Stale(before, a, value);
      }
    }

    /** `Operate` of the application controller: a wrong checksum stops it before any handler runs. */
    method OperateApplication(a: string, cfg: Config) returns (ending: Ending)
      requires a in apps
      modifies this
      ensures ending != Failed ==> Reconciled(old(Value()), ApplicationKey(a), cfg, Value())
      ensures ending == Failed ==> PartlyReconciled(old(Value()), ApplicationKey(a), cfg, Value())
      ensures WrongChecksum(a, old(apps)[a].annotations, cfg) ==> ending == Failed && Value() == old(Value())
      ensures claims == old(claims)
    {
      ghost var c := Value();
      ghost var exposed, done;
      match MarkOf(a, apps[a].annotations, cfg)
      case Wrong => ending := Failed;
      case Confirmed =>
        ending, exposed, done := DeleteApplication(a, cfg);
        DeletionEnds(c, a, cfg, ending, exposed, done, Value());
      case Unmarked =>
        var error;
        error, exposed, done := ApplyApplication(a, cfg);
        ending := if error then Failed else Done;
        ApplyingEnds(c, a, cfg, error, exposed, done, Value());
    }

    /** The ingress and special VirtualService handlers of an SQBDeployment, `done` of which succeed. */
    method ExposeSqb(s: string, sd: SqbDeployment, cfg: Config) returns (error: bool, ghost done: nat)
      modifies this`ingresses, this`specials
      ensures done <= 2 && error == (done < 2)
      ensures ingresses == if done >= 1 then DeploymentStep(old(ingresses), s, sd, cfg) else old(ingresses)
      ensures specials == if done >= 2 then SpecialStep(old(specials), s, Entering(s, sd, cfg), cfg) else old(specials)
    {
      done := 0;
      var store := new IngressStore(ingresses);
      error := store.HandleDeployment(s, sd, cfg);
      ingresses := store.ingresses;
      if error {
        return;
      }
      done := 1;
      if cfg.istioEnable {
        error := *;
        if error {
          return;
        }
        specials := if PublicEntry(sd) && MarkOf(s, sd.annotations, cfg) != Confirmed
            then specials + {s} else specials - {s};
      }
      done := 2;
    }

    /** The claim handler: it names the volumes that the next handler goes on to use. */
    method HandleClaims(s: string, sd: SqbDeployment, cfg: Config) returns (error: bool, after: SqbDeployment)
      requires MarkOf(s, sd.annotations, cfg) != Wrong
      modifies this`claims
      ensures ClaimsPartly(old(claims), s, sd, cfg, claims)
      ensures !error ==> ClaimsHandled(old(claims), s, sd, cfg, claims)
      ensures !error && MarkOf(s, sd.annotations, cfg) == Unmarked ==> after == WithNames(sd, cfg)
    {
      var deleted, named := MarkOf(s, sd.annotations, cfg) == Confirmed, [];
      error, claims, named := Claims.HandleSpecs(Claims.OwnerOf(sd, cfg), deleted, sd.volumes, cfg.pvcEnable, claims);
      after := sd.(volumes := named);
    }

    /** The Deployment handler, for a confirmed deletion. */
    method RequestDeletion(s: string)
      modifies this`deps
      ensures deps == Requested(old(deps), s)
    {
      if s in deps {
        if deps[s].finalizer {
          deps := deps[s := deps[s].(deleting := true)];
        } else {
          deps := deps - {s};
        }
      }
    }

    /** `Operate` of the SQBDeployment controller, for a confirmed deletion; `done` of the handlers after the
        claim handler succeed. */
    method DeleteSqb(s: string, cfg: Config) returns (error: bool, ghost done: nat)
      requires s in sds && MarkOf(s, sds[s].annotations, cfg) == Confirmed
      modifies this`claims, this`deps, this`ingresses, this`specials, this`sds
      ensures done <= 3 && (!error ==> done == 3)
      ensures deps == if done >= 1 then Requested(old(deps), s) else old(deps)
      ensures ingresses == if done >= 2 then DeploymentStep(old(ingresses), s, old(sds)[s], cfg) else old(ingresses)
      ensures specials == if done >= 3 then SpecialStep(old(specials), s, false, cfg) else old(specials)
      ensures sds == if error then old(sds) else old(sds) - {s}
      ensures ClaimsPartly(old(claims), s, old(sds)[s], cfg, claims)
      ensures done >= 1 ==> ClaimsHandled(old(claims), s, old(sds)[s], cfg, claims)
    {
      var sd, after := sds[s], sds[s];
      done := 0;
      error, after := HandleClaims(s, sd, cfg);
      var fails: bool := *;
      if error || fails {
        error := true;
        return;
      }
      RequestDeletion(s);
      error, done := ExposeSqb(s, sd, cfg);
      done := done + 1;
      fails := *;
      error := error || fails;
      if !error {
        sds := sds - {s};
      }
    }

    /** The Deployment handler: `CreateOrUpdate` on the stored Deployment, or on a new one. */
    method GenerateDeployment(s: string, sd: SqbDeployment, cfg: Config)
      modifies this`deps
      ensures deps == Generated(old(deps), s, sd, cfg)
    {
      var healthCheck: HealthCheck? := null;
      if sd.healthCheck.Some? {
        healthCheck := new HealthCheck(sd.healthCheck.value);
      }
      var deployment := new DeploymentObject(if s in deps then deps[s] else NO_DEPLOYMENT);
      deployment.Generate(sd, healthCheck, cfg);
      deps := deps[s := deployment.Value()];
    }

    /** The handlers after the claim handler, which has named the volumes; `done` of them succeed. */
    method ApplyRest(s: string, sd: SqbDeployment, named: SqbDeployment, cfg: Config) returns (error: bool, ghost done: nat)
      requires MarkOf(s, sd.annotations, cfg) == Unmarked
      modifies this`deps, this`ingresses, this`specials
      ensures 1 <= done <= 3 && error == (done < 3)
      ensures deps == Generated(old(deps), s, named, cfg)
      ensures ingresses == if done >= 2 then DeploymentStep(old(ingresses), s, sd, cfg) else old(ingresses)
      ensures specials == if done >= 3 then SpecialStep(old(specials), s, PublicEntry(sd), cfg) else old(specials)
    {
      GenerateDeployment(s, named, cfg);
      error, done := ExposeSqb(s, sd, cfg);
      done := done + 1;
    }

    /** `Operate` of the SQBDeployment controller, for one that is not being deleted; `done` of the handlers
        after the claim handler succeed. */
    method ApplySqb(s: string, cfg: Config) returns (error: bool, named: SqbDeployment, ghost done: nat)
      requires s in sds && MarkOf(s, sds[s].annotations, cfg) == Unmarked
      modifies this`claims, this`deps, this`ingresses, this`specials
      ensures done <= 3 && error == (done < 3) && (sds[s].app !in apps ==> done == 0)
      ensures done >= 1 ==> named == WithNames(sds[s], cfg)
      ensures deps == if done >= 1 then Generated(old(deps), s, named, cfg) else old(deps)
      ensures ingresses == if done >= 2 then DeploymentStep(old(ingresses), s, sds[s], cfg) else old(ingresses)
      ensures specials == if done >= 3 then SpecialStep(old(specials), s, PublicEntry(sds[s]), cfg) else old(specials)
      ensures ClaimsPartly(old(claims), s, sds[s], cfg, claims)
      ensures done >= 1 ==> ClaimsHandled(old(claims), s, sds[s], cfg, claims)
    {
      done := 0;
      error, named := HandleClaims(s, sds[s], cfg);
      var fails: bool := *;
      if error || fails || sds[s].app !in apps {
        error := true;
        return;
      }
      error, done := ApplyRest(s, sds[s], named, cfg);
    }

    /** `Operate` of the SQBDeployment controller. */
    method OperateSqb(s: string, cfg: Config) returns (error: bool)
      requires s in sds
      modifies this
      ensures !error ==> Value() == SqbOperated(old(Value()), s, cfg)
      ensures error ==> PartlyOperated(old(Value()), s, cfg, Value())
      ensures ClaimsPartly(old(claims), s, old(sds)[s], cfg, claims)
      ensures !error ==> ClaimsHandled(old(claims), s, old(sds)[s], cfg, claims)
      ensures WrongChecksum(s, old(sds)[s].annotations, cfg) ==> error && Value() == old(Value())
    {
      ghost var c := Value();
      ghost var done;
      match MarkOf(s, sds[s].annotations, cfg)
      case Wrong =>
        error := true;
        NoneOperated(c, s, cfg);
      case Confirmed =>
        error, done := DeleteSqb(s, cfg);
        DeletedStopped(c, s, cfg, done, error, Value());
      case Unmarked =>
        var named;
        error, named, done := ApplySqb(s, cfg);
        if done == 0 {
          NoneOperated(c, s, cfg);
        } else {
          AppliedStopped(c, s, cfg, done, Value());
        }
    }

    /** `HandleReconcile` for an SQBDeployment: initialisation changes annotations only, so the reconcile
        goes on with the initialised object. */
    method ReconcileSqb(s: string, cfg: Config) returns (error: bool)
      requires s in sds
      modifies this
      ensures !error ==> Reconciled(old(Value()), SqbKey(s), cfg, Value())
      ensures error ==> PartlyReconciled(old(Value()), SqbKey(s), cfg, Value())
      ensures WrongChecksum(s, old(sds)[s].annotations, cfg) ==>
                error && (Value() == old(Value()) || OnlyInitialised(old(Value()), s, cfg, Value()))
      ensures ClaimsPartly(old(claims), s, old(sds)[s], cfg, claims)
      ensures !error ==> ClaimsHandled(old(claims), s, old(sds)[s], cfg, claims)
    {
      var store := new SqbStore(apps, sds);
      var yes, fails, after := store.IsInitialized(s, sds[s], cfg);
      sds := store.sds;
      if !yes && fails {
        return true;
      }
      MarkedStays(s, old(sds)[s], cfg);
      assert Value() == SqbInitialised(old(Value()), s, cfg);
      InitialisedIs(old(Value()), s, cfg);
      error := OperateSqb(s, cfg);
    }
  }

  /** The SQBDeployment has been given its application's istio setting, and nothing else has changed. */
  predicate OnlyInitialised(c: Cluster, s: string, cfg: Config, d: Cluster) {
    && s in c.sds && !HasLabel(c.sds[s].annotations, INITIALIZE_KEY, "true") && c.sds[s].app in c.apps
    && var value := if UnderIstio(c.apps[c.sds[s].app], cfg) then "true" else "false";
       var annotations := c.sds[s].annotations[INITIALIZE_KEY := "true"][ISTIO_INJECT_KEY := value];
       d == c.(sds := c.sds[s := c.sds[s].(annotations := annotations)])
  }

  /** A wrong checksum stops the reconcile of an application, a plane or an SQBDeployment before any
      handler runs, whether or not requests fail: nothing changes but that an SQBDeployment may be
      initialised. */
  lemma WrongChecksumChangesNothing(c: Cluster, key: Key, cfg: Config, d: Cluster)
    requires Reconciled(c, key, cfg, d) || PartlyReconciled(c, key, cfg, d)
    requires match key
             case ApplicationKey(a) => a in c.apps && WrongChecksum(a, c.apps[a].annotations, cfg)
             case PlaneKey(p) => p in c.planes && WrongChecksum(p, c.planes[p].annotations, cfg)
             case SqbKey(s) => s in c.sds && WrongChecksum(s, c.sds[s].annotations, cfg)
             case DeploymentKey(_) => false
    ensures d == c || (key.SqbKey? && OnlyInitialised(c, key.name, cfg, d))
  {
    if key.SqbKey? {
      WrongStops(c, key.name, cfg);
      assert d == c || d == SqbInitialised(c, key.name, cfg);
      InitialisedIs(c, key.name, cfg);
    }
  }

  lemma InitialisedIs(c: Cluster, s: string, cfg: Config)
    ensures var d := SqbInitialised(c, s, cfg);
            if s in c.sds && !HasLabel(c.sds[s].annotations, INITIALIZE_KEY, "true") && c.sds[s].app in c.apps
            then OnlyInitialised(c, s, cfg, d) else d == c
  {
    if s in c.sds && c.sds[s].app in c.apps {
      EffectiveSettings(c.apps[c.sds[s].app], cfg);
    }
  }

  lemma WrongStops(c: Cluster, s: string, cfg: Config)
    requires s in c.sds && MarkOf(s, c.sds[s].annotations, cfg) == Wrong
    ensures var c1 := SqbInitialised(c, s, cfg);
            s in c1.sds && MarkOf(s, c1.sds[s].annotations, cfg) == Wrong && SqbOperated(c1, s, cfg) == c1
  {
    if c.sds[s].app in c.apps {
      MarkedStays(s, c.sds[s], cfg);
    }
  }

  /** What a reconcile does to a confirmed, initialised SQBDeployment, if it succeeds and if it fails. */
  lemma ConfirmedSqb(c: Cluster, s: string, cfg: Config, d: Cluster)
    requires s in c.sds && Initialized(c.sds[s]) && MarkOf(s, c.sds[s].annotations, cfg) == Confirmed
    ensures PartlyReconciled(c, SqbKey(s), cfg, d) ==> d.sds == c.sds
    ensures Reconciled(c, SqbKey(s), cfg, d) ==>
              s !in d.sds && (s in d.deps ==> d.deps[s].deleting) && EntryKey(s, c.sds[s], cfg) !in d.ingresses
  {
  }

  /** A confirmed, initialised SQBDeployment goes at its own next successful reconcile, however often
      its reconcile failed before, and with a result that does not depend on the applications. */
  lemma {:induction false} DeletionNeedsNoApplication(s: string, cfg: Config, tries: seq<Cluster>, d: Cluster,
                                                      other: map<string, Application>)
    requires tries != [] && s in tries[0].sds && Initialized(tries[0].sds[s])
    requires RightChecksum(s, tries[0].sds[s].annotations, cfg)
    requires forall i | 0 <= i < |tries| - 1 :: PartlyReconciled(tries[i], SqbKey(s), cfg, tries[i + 1])
    requires Reconciled(tries[|tries| - 1], SqbKey(s), cfg, d)
    ensures s !in d.sds && (s in d.deps ==> d.deps[s].deleting) && EntryKey(s, tries[0].sds[s], cfg) !in d.ingresses
    ensures SqbReconciled(tries[0].(apps := other), s, cfg) == SqbReconciled(tries[0], s, cfg).(apps := other)
    decreases |tries|
  {
    if |tries| > 1 {
      ConfirmedSqb(tries[0], s, cfg, tries[1]);
      var rest := tries[1..];
      forall i | 0 <= i < |rest| - 1 ensures PartlyReconciled(rest[i], SqbKey(s), cfg, rest[i + 1]) {
        assert PartlyReconciled(tries[i + 1], SqbKey(s), cfg, tries[i + 2]);
      }
      DeletionNeedsNoApplication(s, cfg, rest, d, other);
    } else {
      ConfirmedSqb(tries[0], s, cfg, d);
    }
  }
}
