/** The delete cascade: whatever order the controllers take their turns in, if every object that is there
    gets one sooner or later and requests do not fail, a measure of what remains of a confirmed
    application decreases to nothing. */
module Cascade {
  import opened Common
  import opened Objects
  import opened Workload
  import opened Ingresses
  import opened IngressLaws
  import opened Istio
  import opened Deletion

  /** Labels agree with selectors, and Deployments carry the app label of the SQBDeployment of their name. */
  predicate WellFormed(c: Cluster) {
    && (forall s | s in c.sds :: HasLabel(c.sds[s].labels, APP_KEY, c.sds[s].app))
    && (forall n | n in c.deps && n in c.sds :: HasLabel(c.deps[n].labels, APP_KEY, c.sds[n].app))
  }

  function SqbsOf(c: Cluster, a: string): set<string> {
    set s | s in c.sds && c.sds[s].app == a
  }

  function DeploymentsOf(c: Cluster, a: string): set<string> {
    set n | n in c.deps && HasLabel(c.deps[n].labels, APP_KEY, a)
  }

  ghost predicate NoAuto(ingresses: IngressMap, a: string) {
    forall key :: !AutoOf(ingresses, a, key)
  }

  /** The application was deleted: it, its Service and its generated ingresses are gone, and its
      SQBDeployments are marked. */
  ghost predicate Gone(c: Cluster, a: string, cfg: Config) {
    && a !in c.apps
    && a !in c.services
    && NoAuto(c.ingresses, a)
    && forall s | s in SqbsOf(c, a) :: RightChecksum(s, c.sds[s].annotations, cfg)
  }

  /** Nothing of the application is left. */
  ghost predicate Clean(c: Cluster, a: string) {
    a !in c.apps && a !in c.services && NoAuto(c.ingresses, a) && SqbsOf(c, a) == {} && DeploymentsOf(c, a) == {}
  }

  predicate AllInitialized(c: Cluster, a: string) {
    forall s | s in SqbsOf(c, a) :: Initialized(c.sds[s])
  }

  /** Every live Deployment of the application still has its SQBDeployment. */
  predicate NoOrphans(c: Cluster, a: string) {
    forall n | n in DeploymentsOf(c, a) :: c.deps[n].deleting || n in c.sds
  }

  // ----- one reconcile -----

  /** Steps of other applications and of SQBDeployments that are not entering make no generated
      ingress of `a`. */
  lemma ApplicationMakesNoAuto(ingresses: IngressMap, x: string, app: Application, sds: SqbMap, cfg: Config, a: string)
    requires NoAuto(ingresses, a) && x != a
    ensures NoAuto(ApplicationStep(ingresses, x, app, sds, cfg), a)
  {
    var after := ApplicationStep(ingresses, x, app, sds, cfg);
    forall key ensures !AutoOf(after, a, key) {
      assert !AutoOf(ingresses, a, key);
      if Serving(x, app, cfg) {
        StepAt(ingresses, x, app, sds, cfg, key);
        if key in DomainKeys(x, FillHosts(x, app.domains, cfg)) {
          WrittenOwned(ingresses, x, app, sds, cfg, key);
        }
      }
    }
  }

  lemma SqbMakesNoAuto(ingresses: IngressMap, s: string, sd: SqbDeployment, cfg: Config, a: string)
    requires NoAuto(ingresses, a) && HasLabel(sd.labels, APP_KEY, sd.app)
    requires sd.app != a || !Entering(s, sd, cfg)
    ensures NoAuto(DeploymentStep(ingresses, s, sd, cfg), a)
  {
    var after := DeploymentStep(ingresses, s, sd, cfg);
    forall key ensures !AutoOf(after, a, key) {
      assert !AutoOf(ingresses, a, key);
    }
  }

  /** A regenerated Deployment keeps the label, the finalizer and the deletion state that matter. */
  lemma RegenerateFacts(previous: Deployment, sd: SqbDeployment, cfg: Config)
    requires HasLabel(sd.labels, APP_KEY, sd.app)
    ensures var d := Regenerate(previous, sd, cfg);
            d.deleting == previous.deleting && HasLabel(d.labels, APP_KEY, sd.app)
  {
  }

  /** What a step may do, seen from application `a`: `a` gains nothing, its SQBDeployments keep owner
      and initialisation, and its Deployments only start deleting or disappear, never coming back. */
  predicate Shrinks(c: Cluster, d: Cluster, a: string) {
    && d.sds.Keys <= c.sds.Keys
    && SqbsOf(d, a) <= SqbsOf(c, a)
    && (forall s | s in SqbsOf(d, a) :: Initialized(c.sds[s]) == Initialized(d.sds[s]))
    && DeploymentsOf(d, a) <= DeploymentsOf(c, a)
    && (forall n | n in DeploymentsOf(d, a) :: c.deps[n].deleting ==> d.deps[n].deleting)
    && (forall n | n in DeploymentsOf(c, a) && n !in c.sds && !c.deps[n].deleting ::
          n in DeploymentsOf(d, a) && !d.deps[n].deleting)
    && (forall s | s in SqbsOf(c, a) && !Initialized(c.sds[s]) :: s in SqbsOf(d, a))
  }

  /** The SQBDeployments changed only in their annotations: some were marked or given a setting. */
  predicate OnlyAnnotated(c: SqbMap, d: SqbMap, cfg: Config) {
    && c.Keys == d.Keys
    && forall s | s in c ::
         && d[s].labels == c[s].labels && d[s].app == c[s].app && Initialized(d[s]) == Initialized(c[s])
         && (RightChecksum(s, c[s].annotations, cfg) ==> RightChecksum(s, d[s].annotations, cfg))
  }

  lemma MarkedOnlyAnnotates(sds: SqbMap, marks: set<string>, cfg: Config)
    ensures OnlyAnnotated(sds, Marked(sds, marks, cfg), cfg)
  {
  }

  lemma PropagatedOnlyAnnotates(sds: SqbMap, done: set<string>, value: string, cfg: Config)
    ensures OnlyAnnotated(sds, Propagated(sds, done, value), cfg)
  {
  }

  lemma AnnotatingKeeps(c: Cluster, d: Cluster, a: string, cfg: Config)
    requires WellFormed(c) && OnlyAnnotated(c.sds, d.sds, cfg) && d.deps == c.deps
    ensures WellFormed(d) && Shrinks(c, d, a)
    ensures AllInitialized(c, a) ==> AllInitialized(d, a)
    ensures NoOrphans(c, a) ==> NoOrphans(d, a)
    ensures (forall s | s in SqbsOf(c, a) :: RightChecksum(s, c.sds[s].annotations, cfg)) ==>
              (forall s | s in SqbsOf(d, a) :: RightChecksum(s, d.sds[s].annotations, cfg))
  {
  }

  /** What the reconcile of a plane, or of application `x`, does: it annotates SQBDeployments, and it may
      remove the owner, write or delete the Service `x`, and take the ingress step of `x`. */
  ghost predicate OwnerEffect(c: Cluster, x: Option<string>, cfg: Config, d: Cluster) {
    && OnlyAnnotated(c.sds, d.sds, cfg) && d.deps == c.deps
    && (forall a | a in c.apps && Some(a) != x :: a in d.apps && d.apps[a] == c.apps[a])
    && d.apps.Keys <= c.apps.Keys
    && (forall a | Some(a) != x :: a in d.services <==> a in c.services)
    && (d.ingresses == c.ingresses
        || (x.Some? && x.value in c.apps
            && d.ingresses == ApplicationStep(c.ingresses, x.value, c.apps[x.value], c.sds, cfg)))
  }

  lemma SameEffect(c: Cluster, x: Option<string>, cfg: Config)
    ensures OwnerEffect(c, x, cfg, c)
  {
  }

  lemma DeletedEffect(c: Cluster, x: string, cfg: Config, marks: set<string>, d: Cluster)
    requires x in c.apps && d.deps == c.deps && d.sds == Marked(c.sds, marks, cfg)
    requires d.apps in {c.apps, c.apps - {x}} && d.services == c.services - {x}
    requires d.ingresses == ApplicationStep(c.ingresses, x, c.apps[x], c.sds, cfg)
    ensures OwnerEffect(c, Some(x), cfg, d)
  {
    MarkedOnlyAnnotates(c.sds, marks, cfg);
  }

  lemma AppliedEffect(c: Cluster, x: string, cfg: Config)
    requires x in c.apps
    ensures OwnerEffect(c, Some(x), cfg, ApplicationApplied(c, x, c.apps[x], cfg))
  {
    var value := InjectValue(c.apps[x], cfg);
    PropagatedOnlyAnnotates(c.sds, Stale(c.sds, x, value), value, cfg);
  }

  lemma ConfirmedEffect(c: Cluster, x: string, cfg: Config, d: Cluster)
    requires x in c.apps && MarkOf(x, c.apps[x].annotations, cfg) == Confirmed && Reconciled(c, ApplicationKey(x), cfg, d)
    ensures OwnerEffect(c, Some(x), cfg, d)
  {
    var names := LabelledWith(c.sds, APP_KEY, x);
    if Bare(c.sds, names) == {} {
      DeletedEffect(c, x, cfg, names, d);
    } else {
      var marks :| d == ApplicationDeleted(c, x, c.apps[x], cfg).(apps := c.apps, sds := Marked(c.sds, marks, cfg));
      DeletedEffect(c, x, cfg, marks, d);
    }
  }

  lemma ApplicationEffect(c: Cluster, x: string, cfg: Config, d: Cluster)
    requires Reconciled(c, ApplicationKey(x), cfg, d)
    ensures OwnerEffect(c, Some(x), cfg, d)
  {
    if x !in c.apps || MarkOf(x, c.apps[x].annotations, cfg) == Wrong {
      SameEffect(c, Some(x), cfg);
    } else if MarkOf(x, c.apps[x].annotations, cfg) == Confirmed {
      ConfirmedEffect(c, x, cfg, d);
    } else {
      AppliedEffect(c, x, cfg);
    }
  }

  lemma PlaneEffect(c: Cluster, p: string, cfg: Config, d: Cluster)
    requires Reconciled(c, PlaneKey(p), cfg, d)
    ensures OwnerEffect(c, None, cfg, d)
  {
    if p !in c.planes || MarkOf(p, c.planes[p].annotations, cfg) != Confirmed {
      SameEffect(c, None, cfg);
    } else {
      var marks :| d.sds == Marked(c.sds, marks, cfg);
      MarkedOnlyAnnotates(c.sds, marks, cfg);
    }
  }

  /** The reconcile of a plane, or of another application. */
  lemma OwnerKeepsGone(c: Cluster, x: Option<string>, cfg: Config, d: Cluster, a: string)
    requires WellFormed(c) && Gone(c, a, cfg) && OwnerEffect(c, x, cfg, d)
    requires x != Some(a) || (a !in d.apps && a !in d.services && d.ingresses == c.ingresses)
    ensures WellFormed(d) && Gone(d, a, cfg) && Shrinks(c, d, a)
    ensures NoOrphans(c, a) ==> NoOrphans(d, a)
  {
    AnnotatingKeeps(c, d, a, cfg);
    if d.ingresses != c.ingresses {
      ApplicationMakesNoAuto(c.ingresses, x.value, c.apps[x.value], c.sds, cfg, a);
    }
  }

  lemma SameElsewhere(a: map<string, Deployment>, b: map<string, Deployment>, s: string)
    requires a - {s} == b - {s}
    ensures forall n | n != s :: (n in a <==> n in b) && (n in a ==> a[n] == b[n])
  {
    forall n | n != s ensures (n in a <==> n in b) && (n in a ==> a[n] == b[n]) {
      assert n in a <==> n in a - {s};
      assert n in b <==> n in b - {s};
      if n in a {
        assert a[n] == (a - {s})[n] == (b - {s})[n] == b[n];
      }
    }
  }

  /** A reconcile of one SQBDeployment `s` touches only `s` and the Deployment of that name. */
  predicate Local(c: Cluster, s: string, d: Cluster) {
    && s in c.sds
    && d.deps - {s} == c.deps - {s}
    && (d.sds == c.sds - {s} || (s in d.sds && d.sds == c.sds[s := d.sds[s]] && d.sds[s].labels == c.sds[s].labels
                                 && d.sds[s].app == c.sds[s].app))
    && (s in d.deps && s in d.sds ==> HasLabel(d.deps[s].labels, APP_KEY, c.sds[s].app))
  }

  /** What `Local` and the facts about `s` say of one name. */
  lemma LocalAt(c: Cluster, s: string, d: Cluster, n: string)
    requires WellFormed(c) && Local(c, s, d)
    ensures n in d.sds ==> n in c.sds && d.sds[n].app == c.sds[n].app && (n != s ==> d.sds[n] == c.sds[n])
    ensures n in d.sds ==> HasLabel(d.sds[n].labels, APP_KEY, d.sds[n].app)
    ensures n in c.sds && n != s ==> n in d.sds
    ensures n != s ==> (n in d.deps <==> n in c.deps) && (n in d.deps ==> d.deps[n] == c.deps[n])
    ensures n in d.deps && n in d.sds ==> HasLabel(d.deps[n].labels, APP_KEY, d.sds[n].app)
  {
    SameElsewhere(d.deps, c.deps, s);
  }

  lemma LocalWellFormed(c: Cluster, s: string, d: Cluster)
    requires WellFormed(c) && Local(c, s, d)
    ensures WellFormed(d)
  {
    forall n
      ensures n in d.sds ==> HasLabel(d.sds[n].labels, APP_KEY, d.sds[n].app)
      ensures n in d.deps && n in d.sds ==> HasLabel(d.deps[n].labels, APP_KEY, d.sds[n].app)
    {
      LocalAt(c, s, d, n);
    }
  }

  lemma LocalShrinks(c: Cluster, s: string, d: Cluster, a: string)
    requires WellFormed(c) && Local(c, s, d)
    requires s in DeploymentsOf(d, a) ==>
               && s in DeploymentsOf(c, a)
               && (c.deps[s].deleting ==> d.deps[s].deleting)
               && (s in d.sds || d.deps[s].deleting)
    requires c.sds[s].app == a ==> Initialized(c.sds[s]) && (s in d.sds ==> Initialized(d.sds[s]))
    ensures WellFormed(d) && Shrinks(c, d, a)
    ensures NoOrphans(c, a) ==> NoOrphans(d, a)
  {
    LocalWellFormed(c, s, d);
    forall n
      ensures n in d.sds ==> n in c.sds
      ensures n in SqbsOf(d, a) ==> n in SqbsOf(c, a) && Initialized(c.sds[n]) == Initialized(d.sds[n])
      ensures n in SqbsOf(c, a) && !Initialized(c.sds[n]) ==> n in SqbsOf(d, a)
    {
      LocalAt(c, s, d, n);
    }
    forall n
      ensures n in DeploymentsOf(d, a) ==> n in DeploymentsOf(c, a) && (c.deps[n].deleting ==> d.deps[n].deleting)
      ensures n in DeploymentsOf(c, a) && n !in c.sds && !c.deps[n].deleting ==>
                n in DeploymentsOf(d, a) && !d.deps[n].deleting
      ensures n in DeploymentsOf(d, a) && NoOrphans(c, a) ==> d.deps[n].deleting || n in d.sds
    {
      LocalAt(c, s, d, n);
    }
  }

  lemma DeletedLocal(c: Cluster, s: string, cfg: Config)
    requires WellFormed(c) && s in c.sds
    ensures var d := SqbDeleted(c, s, c.sds[s], cfg);
            && Local(c, s, d) && s !in d.sds
            && (s in d.deps ==> s in c.deps && d.deps[s].deleting && d.deps[s].labels == c.deps[s].labels)
  {
  }

  lemma GeneratedFacts(deps: map<string, Deployment>, s: string, sd: SqbDeployment, cfg: Config)
    requires HasLabel(sd.labels, APP_KEY, sd.app)
    ensures var after := Generated(deps, s, sd, cfg);
            && s in after && after - {s} == deps - {s} && after[s].deleting == (s in deps && deps[s].deleting)
            && HasLabel(after[s].labels, APP_KEY, sd.app)
  {
    RegenerateFacts(if s in deps then deps[s] else NO_DEPLOYMENT, sd, cfg);
  }

  /** An SQBDeployment is left as it is, and its Deployment carries its label. */
  lemma PutLocal(c: Cluster, s: string, d: Cluster)
    requires s in c.sds && d.sds == c.sds && s in d.deps && d.deps - {s} == c.deps - {s}
    requires HasLabel(d.deps[s].labels, APP_KEY, c.sds[s].app)
    ensures Local(c, s, d)
  {
    assert c.sds == c.sds[s := c.sds[s]];
  }

  lemma AppliedLocal(c: Cluster, s: string, cfg: Config)
    requires WellFormed(c) && s in c.sds
    ensures var d := SqbApplied(c, s, c.sds[s], cfg);
            && Local(c, s, d) && d.sds == c.sds
            && s in d.deps && d.deps[s].deleting == (s in c.deps && c.deps[s].deleting)
            && HasLabel(d.deps[s].labels, APP_KEY, c.sds[s].app)
  {
    GeneratedFacts(c.deps, s, WithNames(c.sds[s], cfg), cfg);
    PutLocal(c, s, SqbApplied(c, s, c.sds[s], cfg));
  }

  lemma OperatedKeepsGone(c: Cluster, s: string, cfg: Config, a: string)
    requires WellFormed(c) && Gone(c, a, cfg) && s in c.sds && (c.sds[s].app == a ==> Initialized(c.sds[s]))
    ensures var d := SqbOperated(c, s, cfg);
            && WellFormed(d) && Gone(d, a, cfg) && Shrinks(c, d, a)
            && (NoOrphans(c, a) ==> NoOrphans(d, a))
            && (c.sds[s].app == a ==> s !in d.sds)
  {
    var sd, d := c.sds[s], SqbOperated(c, s, cfg);
    SqbMakesNoAuto(c.ingresses, s, sd, cfg, a);
    if MarkOf(s, sd.annotations, cfg) == Confirmed {
      DeletedLocal(c, s, cfg);
      LocalShrinks(c, s, d, a);
    } else if d != c {
      AppliedLocal(c, s, cfg);
      LocalShrinks(c, s, d, a);
    }
  }

  /** Initialising an SQBDeployment of another application changes nothing for `a`. */
  lemma InitialisingKeepsGone(c: Cluster, s: string, value: string, cfg: Config, a: string)
    requires WellFormed(c) && Gone(c, a, cfg) && s in c.sds && c.sds[s].app != a
    ensures var d := c.(sds := c.sds[s := WithInit(c.sds[s], value)]);
            WellFormed(d) && Gone(d, a, cfg) && Shrinks(c, d, a) && (NoOrphans(c, a) ==> NoOrphans(d, a))
  {
  }

  lemma ShrinksTransitive(c: Cluster, d: Cluster, e: Cluster, a: string)
    requires Shrinks(c, d, a) && Shrinks(d, e, a)
    ensures Shrinks(c, e, a)
  {
  }

  lemma SqbKeepsGone(c: Cluster, s: string, cfg: Config, a: string)
    requires WellFormed(c) && Gone(c, a, cfg)
    ensures var d := SqbReconciled(c, s, cfg);
            && WellFormed(d) && Gone(d, a, cfg) && Shrinks(c, d, a)
            && (NoOrphans(c, a) ==> NoOrphans(d, a))
            && (s in SqbsOf(c, a) && Initialized(c.sds[s]) ==> s !in d.sds)
  {
    if s in c.sds {
      var sd := c.sds[s];
      if Initialized(sd) {
        OperatedKeepsGone(c, s, cfg, a);
      } else if sd.app in c.apps {
        var value := InjectValue(c.apps[sd.app], cfg);
        InitialisingKeepsGone(c, s, value, cfg, a);
        var d := c.(sds := c.sds[s := WithInit(sd, value)]);
        OperatedKeepsGone(d, s, cfg, a);
        ShrinksTransitive(c, d, SqbOperated(d, s, cfg), a);
      }
    }
  }

  lemma RemovalShrinks(c: Cluster, n: string, a: string)
    requires WellFormed(c) && n in c.deps && c.deps[n].deleting
    ensures var d := c.(deps := c.deps - {n});
            WellFormed(d) && Shrinks(c, d, a) && (NoOrphans(c, a) ==> NoOrphans(d, a))
  {
  }

  lemma DeploymentKeepsGone(c: Cluster, n: string, cfg: Config, a: string)
    requires WellFormed(c) && Gone(c, a, cfg)
    ensures var d := DeploymentReconciled(c, n);
            && WellFormed(d) && Gone(d, a, cfg) && Shrinks(c, d, a)
            && (NoOrphans(c, a) ==> NoOrphans(d, a))
            && (n in c.deps && c.deps[n].deleting ==> n !in d.deps)
  {
    if n in c.deps && c.deps[n].deleting {
      RemovalShrinks(c, n, a);
    }
  }

  /** Once the application is gone, every reconcile keeps it so and `a` only shrinks. */
  lemma StepKeepsGone(c: Cluster, key: Key, cfg: Config, d: Cluster, a: string)
    requires WellFormed(c) && Gone(c, a, cfg) && Reconciled(c, key, cfg, d)
    ensures WellFormed(d) && Gone(d, a, cfg) && Shrinks(c, d, a)
    ensures NoOrphans(c, a) ==> NoOrphans(d, a)
    ensures key.SqbKey? && key.name in SqbsOf(c, a) && Initialized(c.sds[key.name]) ==> key.name !in d.sds
    ensures key.DeploymentKey? && key.name in c.deps && c.deps[key.name].deleting ==> key.name !in d.deps
  {
    match key
    case ApplicationKey(x) =>
      ApplicationEffect(c, x, cfg, d);
      OwnerKeepsGone(c, Some(x), cfg, d, a);
    case PlaneKey(p) =>
      PlaneEffect(c, p, cfg, d);
      OwnerKeepsGone(c, None, cfg, d, a);
    case SqbKey(s) => SqbKeepsGone(c, s, cfg, a);
    case DeploymentKey(n) => DeploymentKeepsGone(c, n, cfg, a);
  }

  // ----- before the application's own turn -----

  /** The application is confirmed, its SQBDeployments are initialised and none of its live
      Deployments has lost its SQBDeployment. */
  predicate Condemned(c: Cluster, a: string, cfg: Config) {
    && WellFormed(c)
    && a in c.apps && RightChecksum(a, c.apps[a].annotations, cfg)
    && AllInitialized(c, a) && NoOrphans(c, a)
  }

  lemma LocalCondemned(c: Cluster, s: string, d: Cluster, a: string, cfg: Config)
    requires Condemned(c, a, cfg) && Local(c, s, d) && d.apps == c.apps
    requires c.sds[s].app == a && s in d.sds ==> Initialized(d.sds[s])
    requires s in DeploymentsOf(d, a) ==> d.deps[s].deleting || s in d.sds
    ensures Condemned(d, a, cfg)
  {
    LocalWellFormed(c, s, d);
    forall n
      ensures n in SqbsOf(d, a) ==> Initialized(d.sds[n])
      ensures n in DeploymentsOf(d, a) ==> d.deps[n].deleting || n in d.sds
    {
      LocalAt(c, s, d, n);
    }
  }

  lemma OperatedCondemned(c: Cluster, s: string, cfg: Config, a: string)
    requires Condemned(c, a, cfg) && s in c.sds
    ensures Condemned(SqbOperated(c, s, cfg), a, cfg)
  {
    var d := SqbOperated(c, s, cfg);
    if MarkOf(s, c.sds[s].annotations, cfg) == Confirmed {
      DeletedLocal(c, s, cfg);
      LocalCondemned(c, s, d, a, cfg);
    } else if d != c {
      AppliedLocal(c, s, cfg);
      LocalCondemned(c, s, d, a, cfg);
    }
  }

  lemma SqbCondemned(c: Cluster, s: string, cfg: Config, a: string)
    requires Condemned(c, a, cfg)
    ensures Condemned(SqbReconciled(c, s, cfg), a, cfg)
  {
    if s in c.sds {
      if Initialized(c.sds[s]) {
        OperatedCondemned(c, s, cfg, a);
      } else if c.sds[s].app in c.apps {
        var value := InjectValue(c.apps[c.sds[s].app], cfg);
        var d := c.(sds := c.sds[s := WithInit(c.sds[s], value)]);
        assert d.deps - {s} == c.deps - {s};
        WithInitOf(c.sds[s], value);
        LocalCondemned(c, s, d, a, cfg);
        OperatedCondemned(d, s, cfg, a);
      }
    }
  }

  lemma CondemnedNotBare(c: Cluster, a: string, cfg: Config)
    requires Condemned(c, a, cfg)
    ensures Bare(c.sds, LabelledWith(c.sds, APP_KEY, a)) == {}
  {
  }

  lemma MarkedAll(c: Cluster, a: string, cfg: Config)
    requires WellFormed(c)
    ensures var sds := Marked(c.sds, LabelledWith(c.sds, APP_KEY, a), cfg);
            forall s | s in sds && sds[s].app == a :: RightChecksum(s, sds[s].annotations, cfg)
  {
  }

  /** The application's own reconcile: it is gone, and its SQBDeployments are marked. */
  lemma ApplicationTurn(c: Cluster, a: string, cfg: Config, d: Cluster)
    requires Condemned(c, a, cfg) && Reconciled(c, ApplicationKey(a), cfg, d)
    ensures WellFormed(d) && Gone(d, a, cfg) && AllInitialized(d, a) && NoOrphans(d, a)
  {
    CondemnedNotBare(c, a, cfg);
    assert d == ApplicationDeleted(c, a, c.apps[a], cfg);
    MarkedOnlyAnnotates(c.sds, LabelledWith(c.sds, APP_KEY, a), cfg);
    AnnotatingKeeps(c, d, a, cfg);
    MarkedAll(c, a, cfg);
    DeletionLeavesNoAuto(c.ingresses, a, c.apps[a], c.sds, cfg);
  }

  lemma DeletionLeavesNoAuto(ingresses: IngressMap, a: string, app: Application, sds: SqbMap, cfg: Config)
    requires RightChecksum(a, app.annotations, cfg)
    ensures NoAuto(ApplicationStep(ingresses, a, app, sds, cfg), a)
  {
  }

  lemma OwnerCondemned(c: Cluster, x: Option<string>, cfg: Config, d: Cluster, a: string)
    requires Condemned(c, a, cfg) && OwnerEffect(c, x, cfg, d) && x != Some(a)
    ensures Condemned(d, a, cfg)
  {
    AnnotatingKeeps(c, d, a, cfg);
  }

  lemma StepBeforeTurn(c: Cluster, key: Key, cfg: Config, d: Cluster, a: string)
    requires Condemned(c, a, cfg) && Reconciled(c, key, cfg, d)
    ensures if key == ApplicationKey(a) then WellFormed(d) && Gone(d, a, cfg) && AllInitialized(d, a) && NoOrphans(d, a)
            else Condemned(d, a, cfg)
  {
    match key
    case ApplicationKey(x) =>
      if x == a {
        ApplicationTurn(c, a, cfg, d);
      } else {
        ApplicationEffect(c, x, cfg, d);
        OwnerCondemned(c, Some(x), cfg, d, a);
      }
    case PlaneKey(p) =>
      PlaneEffect(c, p, cfg, d);
      OwnerCondemned(c, None, cfg, d, a);
    case SqbKey(s) => SqbCondemned(c, s, cfg, a);
    case DeploymentKey(n) =>
  }

  // ----- whole runs -----

  ghost predicate Follows(states: nat -> Cluster, keys: nat -> Key, cfg: Config, i: nat) {
    Reconciled(states(i), keys(i), cfg, states(i + 1))
  }

  /** An infinite run: reconcile after reconcile, each of whose requests succeed. */
  ghost predicate IsRun(states: nat -> Cluster, keys: nat -> Key, cfg: Config) {
    forall i: nat {:trigger Follows(states, keys, cfg, i)} :: Follows(states, keys, cfg, i)
  }

  /** The object gets a turn at `i` or later. */
  ghost predicate Later(keys: nat -> Key, key: Key, i: nat) {
    exists j: nat | i <= j :: keys(j) == key
  }

  /** Fairness towards `a`: whichever of its objects is there gets a turn sooner or later. */
  ghost predicate FairAt(c: Cluster, keys: nat -> Key, a: string, i: nat) {
    && (a in c.apps ==> Later(keys, ApplicationKey(a), i))
    && (forall s | s in SqbsOf(c, a) :: Later(keys, SqbKey(s), i))
    && (forall n | n in DeploymentsOf(c, a) :: Later(keys, DeploymentKey(n), i))
  }

  ghost predicate Fair(states: nat -> Cluster, keys: nat -> Key, a: string) {
    forall i: nat {:trigger FairAt(states(i), keys, a, i)} :: FairAt(states(i), keys, a, i)
  }

  lemma {:induction false} GoneThroughout(states: nat -> Cluster, keys: nat -> Key, cfg: Config, a: string, i: nat, j: nat)
    requires IsRun(states, keys, cfg) && i <= j
    requires WellFormed(states(i)) && Gone(states(i), a, cfg)
    ensures WellFormed(states(j)) && Gone(states(j), a, cfg) && Shrinks(states(i), states(j), a)
    ensures NoOrphans(states(i), a) ==> NoOrphans(states(j), a)
    decreases j - i
  {
    if i < j {
      GoneThroughout(states, keys, cfg, a, i, j - 1);
      assert Follows(states, keys, cfg, j - 1);
      StepKeepsGone(states(j - 1), keys(j - 1), cfg, states(j), a);
      ShrinksTransitive(states(i), states(j - 1), states(j), a);
    }
  }

  /** The application is gone, and everything that is left of it will go. */
  ghost predicate Doomed(c: Cluster, a: string, cfg: Config) {
    WellFormed(c) && Gone(c, a, cfg) && AllInitialized(c, a) && NoOrphans(c, a)
  }

  function Remains(c: Cluster, a: string): nat {
    |SqbsOf(c, a)| + |DeploymentsOf(c, a)|
  }

  /** The reconcile is one of an SQBDeployment, or of a deleting Deployment, of the application. */
  predicate Due(c: Cluster, key: Key, a: string) {
    || (key.SqbKey? && key.name in SqbsOf(c, a))
    || (key.DeploymentKey? && key.name in DeploymentsOf(c, a) && c.deps[key.name].deleting)
  }

  lemma Smaller(c: Cluster, d: Cluster, a: string)
    requires SqbsOf(d, a) <= SqbsOf(c, a) && DeploymentsOf(d, a) <= DeploymentsOf(c, a)
    ensures Remains(d, a) <= Remains(c, a)
    ensures SqbsOf(d, a) != SqbsOf(c, a) || DeploymentsOf(d, a) != DeploymentsOf(c, a) ==> Remains(d, a) < Remains(c, a)
  {
    SubsetSmaller(SqbsOf(d, a), SqbsOf(c, a));
    SubsetSmaller(DeploymentsOf(d, a), DeploymentsOf(c, a));
  }

  lemma SubsetSmaller(s: set<string>, t: set<string>)
    requires s <= t
    ensures |s| <= |t| && (s != t ==> |s| < |t|)
  {
    assert t == s + (t - s);
    if s != t {
      var x :| x in t - s;
      assert |t - s| > 0;
    }
  }

  /** The measure: no reconcile of anything increases what remains, and every due one decreases it. */
  lemma MeasureDecreases(c: Cluster, key: Key, cfg: Config, d: Cluster, a: string)
    requires Doomed(c, a, cfg) && Reconciled(c, key, cfg, d)
    ensures Doomed(d, a, cfg) && Remains(d, a) <= Remains(c, a)
    ensures Due(c, key, a) ==> Remains(d, a) < Remains(c, a)
  {
    StepKeepsGone(c, key, cfg, d, a);
    Smaller(c, d, a);
    if Due(c, key, a) {
      assert if key.SqbKey? then key.name !in SqbsOf(d, a) else key.name !in DeploymentsOf(d, a);
    }
  }

  lemma DoomedThroughout(states: nat -> Cluster, keys: nat -> Key, cfg: Config, a: string, i: nat, j: nat)
    requires IsRun(states, keys, cfg) && i <= j && Doomed(states(i), a, cfg)
    ensures Doomed(states(j), a, cfg) && Remains(states(j), a) <= Remains(states(i), a)
    ensures Shrinks(states(i), states(j), a)
  {
    GoneThroughout(states, keys, cfg, a, i, j);
    Smaller(states(i), states(j), a);
  }

  /** By the turn of one of its SQBDeployments, less of the application remains. */
  lemma SqbTurn(states: nat -> Cluster, keys: nat -> Key, cfg: Config, a: string, i: nat, j: nat, s: string)
    requires IsRun(states, keys, cfg) && i <= j && Doomed(states(i), a, cfg)
    requires s in SqbsOf(states(i), a) && keys(j) == SqbKey(s)
    ensures Doomed(states(j + 1), a, cfg) && Remains(states(j + 1), a) < Remains(states(i), a)
  {
    DoomedThroughout(states, keys, cfg, a, i, j);
    assert Follows(states, keys, cfg, j);
    StepKeepsGone(states(j), keys(j), cfg, states(j + 1), a);
    assert s !in SqbsOf(states(j + 1), a);
    DoomedThroughout(states, keys, cfg, a, i, j + 1);
    Smaller(states(i), states(j + 1), a);
  }

  /** So it does by the turn of a Deployment, once all its SQBDeployments are gone. */
  lemma DeploymentTurn(states: nat -> Cluster, keys: nat -> Key, cfg: Config, a: string, i: nat, j: nat, n: string)
    requires IsRun(states, keys, cfg) && i <= j && Doomed(states(i), a, cfg) && SqbsOf(states(i), a) == {}
    requires n in DeploymentsOf(states(i), a) && keys(j) == DeploymentKey(n)
    ensures Doomed(states(j + 1), a, cfg) && Remains(states(j + 1), a) < Remains(states(i), a)
  {
    assert n !in SqbsOf(states(i), a);
    DoomedThroughout(states, keys, cfg, a, i, j);
    assert Follows(states, keys, cfg, j);
    StepKeepsGone(states(j), keys(j), cfg, states(j + 1), a);
    assert n !in DeploymentsOf(states(j + 1), a);
    DoomedThroughout(states, keys, cfg, a, i, j + 1);
    Smaller(states(i), states(j + 1), a);
  }

  /** The next turn to wait for: that of an SQBDeployment or, when there is none, of a Deployment. */
  predicate TurnOf(c: Cluster, key: Key, a: string) {
    || (key.SqbKey? && key.name in SqbsOf(c, a))
    || (key.DeploymentKey? && key.name in DeploymentsOf(c, a) && SqbsOf(c, a) == {})
  }

  /** Fairness brings such a turn while anything remains. */
  lemma TurnComes(states: nat -> Cluster, keys: nat -> Key, a: string, i: nat) returns (j: nat, key: Key)
    requires Fair(states, keys, a) && Remains(states(i), a) > 0
    ensures i <= j && keys(j) == key && TurnOf(states(i), key, a)
  {
    assert FairAt(states(i), keys, a, i);
    if s :| s in SqbsOf(states(i), a) {
      key := SqbKey(s);
    } else {
      var n :| n in DeploymentsOf(states(i), a);
      key := DeploymentKey(n);
    }
    assert Later(keys, key, i);
    j :| i <= j && keys(j) == key;
  }

  ghost predicate Lessened(c: Cluster, d: Cluster, a: string, cfg: Config) {
    Doomed(d, a, cfg) && Remains(d, a) < Remains(c, a)
  }

  /** By such a turn, less remains. */
  lemma TurnDecreases(states: nat -> Cluster, keys: nat -> Key, cfg: Config, a: string, i: nat, j: nat, key: Key)
    requires IsRun(states, keys, cfg) && Doomed(states(i), a, cfg)
    requires i <= j && keys(j) == key && TurnOf(states(i), key, a)
    ensures Lessened(states(i), states(j + 1), a, cfg)
  {
    if key.SqbKey? {
      SqbTurn(states, keys, cfg, a, i, j, key.name);
    } else {
      DeploymentTurn(states, keys, cfg, a, i, j, key.name);
    }
  }

  /** So in the end nothing remains. */
  lemma {:induction false} Dwindles(states: nat -> Cluster, keys: nat -> Key, cfg: Config, a: string, i: nat)
    returns (k: nat)
    requires IsRun(states, keys, cfg) && Fair(states, keys, a) && Doomed(states(i), a, cfg)
    ensures i <= k && Doomed(states(k), a, cfg) && Remains(states(k), a) == 0
    decreases Remains(states(i), a)
  {
    k := i;
    if Remains(states(i), a) > 0 {
      var j, key := TurnComes(states, keys, a, i);
      TurnDecreases(states, keys, cfg, a, i, j, key);
      k := Dwindles(states, keys, cfg, a, j + 1);
    }
  }

  lemma CleanThroughout(states: nat -> Cluster, keys: nat -> Key, cfg: Config, a: string, k: nat, j: nat)
    requires IsRun(states, keys, cfg) && k <= j && Doomed(states(k), a, cfg) && Remains(states(k), a) == 0
    ensures Clean(states(j), a)
  {
    DoomedThroughout(states, keys, cfg, a, k, j);
  }

  /** Once a confirmed application is gone, a fair run of the controllers, in any order and mixed with
      any other reconciles, ends with nothing of it left exactly when its SQBDeployments were
      initialised and its live Deployments still had their SQBDeployments. */
  lemma CascadeIff(states: nat -> Cluster, keys: nat -> Key, cfg: Config, a: string)
    requires IsRun(states, keys, cfg) && Fair(states, keys, a)
    requires WellFormed(states(0)) && Gone(states(0), a, cfg)
    ensures (exists k: nat :: Clean(states(k), a)) <==> AllInitialized(states(0), a) && NoOrphans(states(0), a)
  {
    var first := states(0);
    if AllInitialized(first, a) && NoOrphans(first, a) {
      var k := Dwindles(states, keys, cfg, a, 0);
      CleanThroughout(states, keys, cfg, a, k, k);
    } else {
      forall k: nat ensures !Clean(states(k), a) {
        GoneThroughout(states, keys, cfg, a, 0, k);
        if s :| s in SqbsOf(first, a) && !Initialized(first.sds[s]) {
          assert s in SqbsOf(states(k), a);
        } else {
          var n :| n in DeploymentsOf(first, a) && !first.deps[n].deleting && n !in first.sds;
          assert n in DeploymentsOf(states(k), a);
        }
      }
    }
  }

  /** A condemned application gets its turn. */
  lemma {:induction false} TurnTaken(states: nat -> Cluster, keys: nat -> Key, cfg: Config, a: string, i: nat, j: nat)
    returns (m: nat)
    requires IsRun(states, keys, cfg) && i <= j && keys(j) == ApplicationKey(a) && Condemned(states(i), a, cfg)
    ensures i < m <= j + 1 && Doomed(states(m), a, cfg)
    decreases j - i
  {
    assert Follows(states, keys, cfg, i);
    StepBeforeTurn(states(i), keys(i), cfg, states(i + 1), a);
    if keys(i) == ApplicationKey(a) {
      m := i + 1;
    } else {
      m := TurnTaken(states, keys, cfg, a, i + 1, j);
    }
  }

  /** The delete cascade terminates and is complete: from any state with a confirmed application whose
      SQBDeployments are initialised, under any fair order of the reconciles, there comes a point from
      which on nothing of the application is left. */
  lemma CascadeComplete(states: nat -> Cluster, keys: nat -> Key, cfg: Config, a: string) returns (k: nat)
    requires IsRun(states, keys, cfg) && Fair(states, keys, a) && Condemned(states(0), a, cfg)
    ensures forall j: nat | k <= j :: Clean(states(j), a)
  {
    assert FairAt(states(0), keys, a, 0);
    assert Later(keys, ApplicationKey(a), 0);
    var j: nat :| keys(j) == ApplicationKey(a);
    var m := TurnTaken(states, keys, cfg, a, 0, j);
    k := Dwindles(states, keys, cfg, a, m);
    forall i: nat | k <= i ensures Clean(states(i), a) {
      CleanThroughout(states, keys, cfg, a, k, i);
    }
  }
}
