/** What one successful reconcile of an application, a plane or an SQBDeployment does to the store, said of the
    stored objects and the settings alone. What the ingresses and the Deployment then contain is said where they
    are generated. */
module ReconcileOutcome {
  import opened Common
  import opened Objects
  import opened Workload
  import opened Ingresses
  import opened Istio
  import opened Deletion
  import Claims

  /** Some SQBDeployment with the label has no annotations, which stops the marking. */
  predicate AnyBare(sds: SqbMap, key: string, value: string) {
    exists s | s in sds :: HasLabel(sds[s].labels, key, value) && sds[s].annotations == map[]
  }

  /** The SQBDeployment carries the checksum of its own name, and is otherwise as before. */
  predicate GotChecksum(s: string, before: SqbDeployment, after: SqbDeployment, cfg: Config) {
    after == before.(annotations := before.annotations[EXPLICIT_DELETE_KEY := cfg.checksum(s)])
  }

  /** The labelled SQBDeployments have got their checksums: all of them or, when the marking stops, some. */
  predicate AllGotChecksums(before: SqbMap, key: string, value: string, after: SqbMap, cfg: Config) {
    && after.Keys == before.Keys
    && forall s | s in before ::
         if HasLabel(before[s].labels, key, value) then
           GotChecksum(s, before[s], after[s], cfg) || (AnyBare(before, key, value) && after[s] == before[s])
         else after[s] == before[s]
  }

  lemma MarkedAllOrSome(sds: SqbMap, key: string, value: string, marks: set<string>, cfg: Config)
    requires marks <= LabelledWith(sds, key, value)
    requires AnyBare(sds, key, value) || marks == LabelledWith(sds, key, value)
    ensures AllGotChecksums(sds, key, value, Marked(sds, marks, cfg), cfg)
  {
  }

  lemma BareIff(sds: SqbMap, key: string, value: string)
    ensures Bare(sds, LabelledWith(sds, key, value)) == {} <==> !AnyBare(sds, key, value)
  {
    if AnyBare(sds, key, value) {
      var s :| s in sds && HasLabel(sds[s].labels, key, value) && sds[s].annotations == map[];
      assert s in Bare(sds, LabelledWith(sds, key, value));
    }
  }

  /** The right checksum deletes the application with its Service and marks its SQBDeployments, in that order,
      so that a marking that stops leaves the application. */
  lemma ApplicationDeletionOutcome(c: Cluster, a: string, cfg: Config, d: Cluster)
    requires a in c.apps && RightChecksum(a, c.apps[a].annotations, cfg) && Reconciled(c, ApplicationKey(a), cfg, d)
    ensures d == c.(apps := d.apps, services := c.services - {a}, sds := d.sds, ingresses := d.ingresses)
    ensures d.ingresses == ApplicationStep(c.ingresses, a, c.apps[a], c.sds, cfg)
    ensures AllGotChecksums(c.sds, APP_KEY, a, d.sds, cfg)
    ensures d.apps == if AnyBare(c.sds, APP_KEY, a) then c.apps else c.apps - {a}
  {
    MarkOfIff(a, c.apps[a].annotations, cfg);
    BareIff(c.sds, APP_KEY, a);
    var names := LabelledWith(c.sds, APP_KEY, a);
    if AnyBare(c.sds, APP_KEY, a) {
      var marks :| marks <= names - Bare(c.sds, names)
                   && d == ApplicationDeleted(c, a, c.apps[a], cfg).(apps := c.apps, sds := Marked(c.sds, marks, cfg));
      MarkedAllOrSome(c.sds, APP_KEY, a, marks, cfg);
    } else {
      MarkedAllOrSome(c.sds, APP_KEY, a, names, cfg);
    }
  }

  /** Without a checksum the application gets its Service, and its initialised SQBDeployments its setting. */
  lemma ApplicationOutcome(c: Cluster, a: string, cfg: Config, d: Cluster)
    requires a in c.apps && EXPLICIT_DELETE_KEY !in c.apps[a].annotations && Reconciled(c, ApplicationKey(a), cfg, d)
    ensures d == c.(services := c.services + {a}, sds := d.sds, ingresses := d.ingresses)
    ensures d.ingresses == ApplicationStep(c.ingresses, a, c.apps[a], c.sds, cfg)
    ensures d.sds.Keys == c.sds.Keys
    ensures forall s | s in c.sds ::
              d.sds[s] == if HasLabel(c.sds[s].labels, APP_KEY, a) && HasLabel(c.sds[s].annotations, INITIALIZE_KEY, "true")
                          then c.sds[s].(annotations := c.sds[s].annotations[
                            ISTIO_INJECT_KEY := if UnderIstio(c.apps[a], cfg) then "true" else "false"])
                          else c.sds[s]
  {
    FanOutIs(c.sds, a, c.apps[a], cfg);
  }

  /** The right checksum deletes the plane and marks its SQBDeployments; otherwise a plane is left alone. */
  lemma PlaneOutcome(c: Cluster, p: string, cfg: Config, d: Cluster)
    requires p in c.planes && Reconciled(c, PlaneKey(p), cfg, d)
    ensures if RightChecksum(p, c.planes[p].annotations, cfg) then
              && d == c.(planes := d.planes, sds := d.sds)
              && AllGotChecksums(c.sds, PLANE_KEY, p, d.sds, cfg)
              && d.planes == if AnyBare(c.sds, PLANE_KEY, p) then c.planes else c.planes - {p}
            else d == c
  {
    MarkOfIff(p, c.planes[p].annotations, cfg);
    if RightChecksum(p, c.planes[p].annotations, cfg) {
      BareIff(c.sds, PLANE_KEY, p);
      var names := LabelledWith(c.sds, PLANE_KEY, p);
      if AnyBare(c.sds, PLANE_KEY, p) {
        var marks :| marks <= names - Bare(c.sds, names) && d == c.(sds := Marked(c.sds, marks, cfg));
        MarkedAllOrSome(c.sds, PLANE_KEY, p, marks, cfg);
      } else {
        MarkedAllOrSome(c.sds, PLANE_KEY, p, names, cfg);
      }
    }
  }

  /** The special VirtualService is there exactly when it should be, or is not looked at without istio. */
  predicate SpecialIs(before: set<string>, s: string, wanted: bool, cfg: Config, after: set<string>) {
    && after - {s} == before - {s}
    && (s in after <==> if cfg.istioEnable then wanted else s in before)
  }

  /** A reconcile operates on the SQBDeployment once it is initialised. */
  lemma OperatedIs(c: Cluster, s: string, cfg: Config)
    requires s in c.sds && !WrongChecksum(s, c.sds[s].annotations, cfg)
    ensures var c1, d := SqbInitialised(c, s, cfg), SqbReconciled(c, s, cfg);
            && s in c1.sds && c1 == c.(sds := c1.sds) && c1.sds - {s} == c.sds - {s}
            && if RightChecksum(s, c.sds[s].annotations, cfg) then
                 d == if Initialized(c.sds[s]) || c.sds[s].app in c.apps then SqbDeleted(c1, s, c1.sds[s], cfg) else c
               else d == if c.sds[s].app in c.apps then SqbApplied(c1, s, c1.sds[s], cfg) else c
  {
    MarkOfIff(s, c.sds[s].annotations, cfg);
    MarkedStays(s, c.sds[s], cfg);
  }

  lemma DeletedIs(c: Cluster, s: string, sd: SqbDeployment, cfg: Config)
    ensures var d := SqbDeleted(c, s, sd, cfg);
            && d == c.(sds := c.sds - {s}, deps := d.deps, ingresses := d.ingresses, specials := d.specials)
            && d.deps - {s} == c.deps - {s}
            && (s in d.deps <==> s in c.deps && c.deps[s].finalizer)
            && (s in d.deps ==> d.deps[s] == c.deps[s].(deleting := true))
            && SpecialIs(c.specials, s, false, cfg, d.specials)
  {
  }

  /** The right checksum deletes the SQBDeployment and what was made for it: a Deployment with the operator's
      finalizer stays until the Deployment controller lets it go. One that is not initialised is initialised
      first, and without its application it is not even deleted. */
  lemma SqbDeletionOutcome(c: Cluster, s: string, cfg: Config, d: Cluster)
    requires s in c.sds && RightChecksum(s, c.sds[s].annotations, cfg) && Reconciled(c, SqbKey(s), cfg, d)
    ensures if HasLabel(c.sds[s].annotations, INITIALIZE_KEY, "true") || c.sds[s].app in c.apps then
              && d == c.(sds := c.sds - {s}, deps := d.deps, ingresses := d.ingresses, specials := d.specials)
              && d.deps - {s} == c.deps - {s}
              && (s in d.deps <==> s in c.deps && c.deps[s].finalizer)
              && (s in d.deps ==> d.deps[s] == c.deps[s].(deleting := true))
              && SpecialIs(c.specials, s, false, cfg, d.specials)
            else d == c
  {
    InitialisedIs(c, s, cfg);
    OperatedIs(c, s, cfg);
    var c1 := SqbInitialised(c, s, cfg);
    DeletedIs(c1, s, c1.sds[s], cfg);
  }

  lemma AppliedIs(c: Cluster, s: string, sd: SqbDeployment, cfg: Config)
    ensures var d := SqbApplied(c, s, sd, cfg);
            && d == c.(deps := d.deps, ingresses := d.ingresses, specials := d.specials)
            && s in d.deps && d.deps - {s} == c.deps - {s}
            && d.deps[s] == Regenerate(if s in c.deps then c.deps[s] else NO_DEPLOYMENT, WithNames(sd, cfg), cfg)
            && d.ingresses == DeploymentStep(c.ingresses, s, sd, cfg)
            && SpecialIs(c.specials, s, HasLabel(sd.annotations, PUBLIC_ENTRY_KEY, "true"), cfg, d.specials)
  {
  }

  /** Without a checksum, it gets its Deployment and, as a public entry, its special VirtualService; without its
      application nothing happens. */
  lemma SqbOutcome(c: Cluster, s: string, cfg: Config, d: Cluster)
    requires s in c.sds && EXPLICIT_DELETE_KEY !in c.sds[s].annotations && Reconciled(c, SqbKey(s), cfg, d)
    ensures if c.sds[s].app in c.apps then
              && s in d.sds && s in d.deps
              && (if HasLabel(c.sds[s].annotations, INITIALIZE_KEY, "true") then d.sds == c.sds
                  else OnlyInitialised(c, s, cfg, c.(sds := d.sds)))
              && d == c.(sds := d.sds, deps := d.deps, ingresses := d.ingresses, specials := d.specials)
              && d.deps - {s} == c.deps - {s}
              && d.deps[s] == Regenerate(if s in c.deps then c.deps[s] else NO_DEPLOYMENT, WithNames(d.sds[s], cfg), cfg)
              && d.ingresses == DeploymentStep(c.ingresses, s, d.sds[s], cfg)
              && SpecialIs(c.specials, s, HasLabel(c.sds[s].annotations, PUBLIC_ENTRY_KEY, "true"), cfg, d.specials)
            else d == c
  {
    InitialisedIs(c, s, cfg);
    OperatedIs(c, s, cfg);
    var c1 := SqbInitialised(c, s, cfg);
    if c.sds[s].app in c.apps {
      AppliedIs(c1, s, c1.sds[s], cfg);
    }
  }

  /** Of its claims: none are touched when claims are disabled; those labelled with its application and plane go
      with it, some of them when requests fail silently; and otherwise they are reconciled with its volumes. */
  lemma SqbClaimsOutcome(claims: Claims.ClaimMap, s: string, sd: SqbDeployment, cfg: Config, after: Claims.ClaimMap)
    requires !WrongChecksum(s, sd.annotations, cfg) && ClaimsHandled(claims, s, sd, cfg, after)
    ensures !cfg.pvcEnable ==> after == claims
    ensures cfg.pvcEnable && RightChecksum(s, sd.annotations, cfg) ==>
              && (forall n | n in after :: n in claims && after[n] == claims[n])
              && (forall n | n in claims && n !in after ::
                    && HasLabel(claims[n].labels, APP_KEY, Lookup(sd.labels, APP_KEY))
                    && HasLabel(claims[n].labels, PLANE_KEY, Lookup(sd.labels, PLANE_KEY)))
    ensures cfg.pvcEnable && !RightChecksum(s, sd.annotations, cfg) ==>
              var owner := Claims.Owner(sd.labels, sd.created, cfg.claimHash);
              after == Claims.Reconciled(owner, claims, Claims.Wanted(owner, sd.volumes))
  {
    MarkOfIff(s, sd.annotations, cfg);
  }

  /** The Deployment is generated from the SQBDeployment with its claims named, and nothing else changed. */
  lemma NamedVolumesAre(sd: SqbDeployment, cfg: Config, i: nat)
    requires i < |sd.volumes|
    ensures var named, owner := WithNames(sd, cfg), Claims.Owner(sd.labels, sd.created, cfg.claimHash);
            && named == sd.(volumes := named.volumes) && |named.volumes| == |sd.volumes|
            && named.volumes[i] == if cfg.pvcEnable && sd.volumes[i].claim
                                   then sd.volumes[i].(claimName := Claims.ClaimNameOf(owner, sd.volumes[i]))
                                   else sd.volumes[i]
  {
    Claims.VolumeNamedIs(Claims.OwnerOf(sd, cfg), sd.volumes, cfg.pvcEnable, i);
  }
}
