/** What the ingress steps achieve: exact garbage collection, a fixpoint, and a round trip. */
module IngressLaws {
  import opened Common
  import opened Names
  import opened Objects
  import opened Ingresses

  // ----- the effect of writing a list of domains, key by key -----

  /** The annotations that the domains of `ds` merge into the ingress `key`. */
  function MergedAt(name: string, ds: seq<Domain>, key: string): StringMap {
    if ds == [] then map[]
    else (if DomainKey(name, ds[0]) == key then DomainAnnotations(ds[0]) else map[]) + MergedAt(name, ds[1..], key)
  }

  /** The last domain of `ds` written to the ingress `key`. */
  function LastAt(name: string, ds: seq<Domain>, key: string): Option<Domain> {
    if ds == [] then None
    else
      var later := LastAt(name, ds[1..], key);
      if later.Some? then later else if DomainKey(name, ds[0]) == key then Some(ds[0]) else None
  }

  lemma {:induction false} LastAtInside(name: string, ds: seq<Domain>, key: string)
    ensures LastAt(name, ds, key).Some? <==> key in DomainKeys(name, ds)
    ensures LastAt(name, ds, key).Some? ==>
              LastAt(name, ds, key).value in ds && DomainKey(name, LastAt(name, ds, key).value) == key
    ensures LastAt(name, ds, key).Some? ==>
              Lookup(MergedAt(name, ds, key), INGRESS_CLASS_KEY) == LastAt(name, ds, key).value.cls
              && INGRESS_CLASS_KEY in MergedAt(name, ds, key)
    ensures LastAt(name, ds, key).None? ==> MergedAt(name, ds, key) == map[]
  {
    if ds != [] {
      LastAtInside(name, ds[1..], key);
      DomainKeysStep(name, ds, key);
      assert INGRESS_CLASS_KEY != SERVER_SNIPPET_KEY by { assert |INGRESS_CLASS_KEY| != |SERVER_SNIPPET_KEY|; }
    }
  }

  lemma DomainKeysStep(name: string, ds: seq<Domain>, key: string)
    requires ds != []
    ensures key in DomainKeys(name, ds) <==> key == DomainKey(name, ds[0]) || key in DomainKeys(name, ds[1..])
  {
  }

  function WrittenAt(stored: Ingress, name: string, app: Application, ds: seq<Domain>, key: string, d: Domain,
                     cfg: Config): Ingress {
    Ingress(stored.labels + OwnerLabels(name, app), stored.annotations + MergedAt(name, ds, key),
            [IngressRule(d.host, PathsOf(name, app, cfg))])
  }

  /** Right-biased merging is associative and absorbs repetition. */
  lemma MergeLaws(a: StringMap, b: StringMap, c: StringMap)
    ensures a + b + c == a + (b + c) && a + b + b == a + b && map[] + c == c
  {
  }

  /** After the write loop, an ingress no domain names is as before; any other carries the owner
      labels, the right-biased union of all the annotations merged into it, and the rule of the
      last domain that names it. */
  lemma {:induction false} WriteDomainsAt(ingresses: IngressMap, name: string, app: Application, ds: seq<Domain>,
                                         cfg: Config, key: string)
    ensures var after := WriteDomains(ingresses, name, app, ds, cfg);
            var last := LastAt(name, ds, key);
            if last.None? then (key in after <==> key in ingresses) && (key in after ==> after[key] == ingresses[key])
            else key in after
                 && after[key] == WrittenAt(StoredOr(ingresses, key, map[]), name, app, ds, key, last.value, cfg)
    decreases |ds|
  {
    if ds != [] {
      var next := WriteDomain(ingresses, name, app, ds[0], cfg);
      WriteDomainsAt(next, name, app, ds[1..], cfg, key);
      LastAtInside(name, ds[1..], key);
      WrittenAtStep(ingresses, name, app, ds, cfg, key);
    }
  }

  /** Writing the first domain and then the others merges the same into `key` as writing them all. */
  lemma WrittenAtStep(ingresses: IngressMap, name: string, app: Application, ds: seq<Domain>, cfg: Config, key: string)
    requires ds != []
    ensures var next := WriteDomain(ingresses, name, app, ds[0], cfg);
            forall d :: WrittenAt(StoredOr(next, key, map[]), name, app, ds[1..], key, d, cfg)
                        == WrittenAt(StoredOr(ingresses, key, map[]), name, app, ds, key, d, cfg)
    ensures LastAt(name, ds[1..], key).None? && DomainKey(name, ds[0]) == key ==>
              WriteDomain(ingresses, name, app, ds[0], cfg)[key]
              == WrittenAt(StoredOr(ingresses, key, map[]), name, app, ds, key, ds[0], cfg)
  {
    var stored, rest := StoredOr(ingresses, key, map[]), MergedAt(name, ds[1..], key);
    var owner := OwnerLabels(name, app);
    MergeLaws(stored.annotations, map[], rest);
    if DomainKey(name, ds[0]) == key {
      var own := DomainAnnotations(ds[0]);
      MergeLaws(stored.labels, owner, map[]);
      MergeLaws(stored.annotations, own, rest);
      assert MergedAt(name, ds, key) == own + rest;
      if LastAt(name, ds[1..], key).None? {
        LastAtInside(name, ds[1..], key);
        assert own + rest == own;
      }
    } else {
      assert MergedAt(name, ds, key) == map[] + rest;
    }
  }

  lemma WrittenAtIsAuto(stored: Ingress, name: string, app: Application, ds: seq<Domain>, key: string, last: Domain,
                        cfg: Config)
    requires key == DomainKey(name, last)
    requires var merged := MergedAt(name, ds, key); INGRESS_CLASS_KEY in merged && merged[INGRESS_CLASS_KEY] == last.cls
    ensures var written := WrittenAt(stored, name, app, ds, key, last, cfg);
            HasLabel(written.labels, APP_KEY, name) && (IsAuto(name, key, written) <==> last.cls != "")
  {
    assert APP_KEY != GROUP_KEY;
  }

  /** A written ingress is recognised as generated exactly when its last domain has a class. */
  lemma WrittenIsAuto(ingresses: IngressMap, name: string, app: Application, ds: seq<Domain>, cfg: Config, key: string)
    requires key in DomainKeys(name, ds)
    ensures var after := WriteDomains(ingresses, name, app, ds, cfg);
            && key in after
            && HasLabel(after[key].labels, APP_KEY, name)
            && LastAt(name, ds, key).Some?
            && (IsAuto(name, key, after[key]) <==> LastAt(name, ds, key).value.cls != "")
  {
    WriteDomainsAt(ingresses, name, app, ds, cfg, key);
    LastAtInside(name, ds, key);
    var last := LastAt(name, ds, key).value;
    WrittenAtIsAuto(StoredOr(ingresses, key, map[]), name, app, ds, key, last, cfg);
  }

  // ----- exactness and fixpoint -----

  /** The ingress looks generated for the application: it carries its label, and its name is made of
      application, class and first host or, as in older releases, of application and class. */
  predicate GeneratedFor(name: string, key: string, ingress: Ingress) {
    && HasLabel(ingress.labels, APP_KEY, name) && INGRESS_CLASS_KEY in ingress.annotations
    && var cls := ingress.annotations[INGRESS_CLASS_KEY];
       && cls != "" && ingress.rules != []
       && (key == name + "." + cls + "." + ingress.rules[0].host || key == name + "-" + cls)
  }

  predicate AutoOf(ingresses: IngressMap, name: string, key: string) {
    key in ingresses && GeneratedFor(name, key, ingresses[key])
  }

  /** Exact garbage collection at one name. A domain's ingress looks generated exactly when the last domain
      of that name has a class; any other ingress is unchanged, or was generated, is no public entry, and
      is gone. */
  predicate ExactAt(ingresses: IngressMap, name: string, app: Application, sds: map<string, SqbDeployment>, cfg: Config,
                    key: string) {
    var ds := FillHosts(name, app.domains, cfg);
    var after := ApplicationStep(ingresses, name, app, sds, cfg);
    if key in DomainKeys(name, ds) then
      && LastAt(name, ds, key).Some? && key in after
      && (AutoOf(after, name, key) <==> LastAt(name, ds, key).value.cls != "")
    else
      && (key in after <==> key in ingresses && (AutoOf(ingresses, name, key) ==> key in EntryKeys(name, sds, cfg)))
      && (key in after ==> after[key] == ingresses[key])
  }

  /** Exact garbage collection: so it is at every name after the step of a serving application. Its
      generated ingresses are then one per domain name whose last domain has a class, and the public
      entries that were there before under other names. */
  lemma CollectionExact(ingresses: IngressMap, name: string, app: Application, sds: map<string, SqbDeployment>, cfg: Config)
    requires Serving(name, app, cfg)
    ensures forall key :: ExactAt(ingresses, name, app, sds, cfg, key)
    ensures var ds := FillHosts(name, app.domains, cfg);
            forall key :: AutoOf(ApplicationStep(ingresses, name, app, sds, cfg), name, key) <==>
              if key in DomainKeys(name, ds) then LastAt(name, ds, key).Some? && LastAt(name, ds, key).value.cls != ""
              else AutoOf(ingresses, name, key) && key in EntryKeys(name, sds, cfg)
  {
    forall key
      ensures ExactAt(ingresses, name, app, sds, cfg, key)
      ensures var ds := FillHosts(name, app.domains, cfg);
              AutoOf(ApplicationStep(ingresses, name, app, sds, cfg), name, key) <==>
                if key in DomainKeys(name, ds) then LastAt(name, ds, key).Some? && LastAt(name, ds, key).value.cls != ""
                else AutoOf(ingresses, name, key) && key in EntryKeys(name, sds, cfg)
    {
      ExactHere(ingresses, name, app, sds, cfg, key);
    }
  }

  lemma ExactHere(ingresses: IngressMap, name: string, app: Application, sds: map<string, SqbDeployment>, cfg: Config,
                  key: string)
    requires Serving(name, app, cfg)
    ensures ExactAt(ingresses, name, app, sds, cfg, key)
    ensures key !in DomainKeys(name, FillHosts(name, app.domains, cfg)) ==>
              (AutoOf(ApplicationStep(ingresses, name, app, sds, cfg), name, key)
               <==> AutoOf(ingresses, name, key) && key in EntryKeys(name, sds, cfg))
  {
    StepAt(ingresses, name, app, sds, cfg, key);
    if key in DomainKeys(name, FillHosts(name, app.domains, cfg)) {
      DomainAutoIff(ingresses, name, app, sds, cfg, key);
    }
  }

  lemma DomainAutoIff(ingresses: IngressMap, name: string, app: Application, sds: map<string, SqbDeployment>, cfg: Config,
                      key: string)
    requires Serving(name, app, cfg) && key in DomainKeys(name, FillHosts(name, app.domains, cfg))
    ensures var last := LastAt(name, FillHosts(name, app.domains, cfg), key);
            last.Some? && (AutoOf(ApplicationStep(ingresses, name, app, sds, cfg), name, key) <==> last.value.cls != "")
  {
    WrittenIsAuto(ingresses, name, app, FillHosts(name, app.domains, cfg), cfg, key);
  }

  lemma StepAt(ingresses: IngressMap, name: string, app: Application,
      sds: map<string, SqbDeployment>, cfg: Config, key: string)
    requires Serving(name, app, cfg)
    ensures var ds := FillHosts(name, app.domains, cfg);
            var after := ApplicationStep(ingresses, name, app, sds, cfg);
            if key in DomainKeys(name, ds) then
              && LastAt(name, ds, key).Some?
              && key in after
              && after[key] == WrittenAt(StoredOr(ingresses, key, map[]), name, app, ds, key,
                  LastAt(name, ds, key).value, cfg)
            else
              && (key in after <==> key in ingresses && (AutoOf(ingresses, name, key) ==> key in EntryKeys(name, sds, cfg)))
              && (key in after ==> after[key] == ingresses[key])
  {
    var ds := FillHosts(name, app.domains, cfg);
    LastAtInside(name, ds, key);
    WriteDomainsAt(ingresses, name, app, ds, cfg, key);
  }

  /** The application step is a fixpoint: run again it changes nothing, duplicate domains included. */
  lemma ApplicationStepIdempotent(ingresses: IngressMap, name: string, app: Application, sds: map<string, SqbDeployment>,
                                  cfg: Config)
    ensures var after := ApplicationStep(ingresses, name, app, sds, cfg);
            ApplicationStep(after, name, app, sds, cfg) == after
  {
    var after := ApplicationStep(ingresses, name, app, sds, cfg);
    var again := ApplicationStep(after, name, app, sds, cfg);
    if Serving(name, app, cfg) {
      var ds := FillHosts(name, app.domains, cfg);
      forall key ensures (key in again <==> key in after) && (key in after ==> again[key] == after[key]) {
        StepAt(ingresses, name, app, sds, cfg, key);
        StepAt(after, name, app, sds, cfg, key);
        if key in DomainKeys(name, ds) {
          var stored := StoredOr(ingresses, key, map[]);
          MergeLaws(stored.labels, OwnerLabels(name, app), map[]);
          MergeLaws(stored.annotations, MergedAt(name, ds, key), map[]);
        }
      }
    }
    assert again == after;
  }

  // ----- round trip -----

  /** The effect on one ingress of creating and then deleting, from a store as in the round trip. */
  lemma RoundTripAt(ingresses: IngressMap, name: string, app: Application, sds: map<string, SqbDeployment>, cfg: Config,
                    key: string)
    requires Serving(name, app, cfg)
    requires key in ingresses ==> !AutoOf(ingresses, name, key)
    ensures var ds := FillHosts(name, app.domains, cfg);
            var removed := RemoveAuto(ApplicationStep(ingresses, name, app, sds, cfg), name, {});
            if key in DomainKeys(name, ds) then
              LastAt(name, ds, key).Some? && (key in removed <==> LastAt(name, ds, key).value.cls == "")
            else
              (key in removed <==> key in ingresses) && (key in removed ==> removed[key] == ingresses[key])
  {
    var ds := FillHosts(name, app.domains, cfg);
    StepAt(ingresses, name, app, sds, cfg, key);
    if key in DomainKeys(name, ds) {
      WrittenIsAuto(ingresses, name, app, ds, cfg, key);
      WriteDomainsAt(ingresses, name, app, ds, cfg, key);
    }
  }

  /** A domain without a class writes an ingress that is never recognised as generated. */
  lemma ClasslessNeverCollected(name: string, ds: seq<Domain>, i: nat)
    requires i < |ds| && ds[i].cls == "" && DotFree(name)
    requires forall j | 0 <= j < |ds| :: DotFree(ds[j].cls)
    ensures var last := LastAt(name, ds, DomainKey(name, ds[i])); last.Some? && last.value.cls == ""
  {
    var key := DomainKey(name, ds[i]);
    assert key in DomainKeys(name, ds);
    LastAtInside(name, ds, key);
    var last := LastAt(name, ds, key).value;
    var j :| 0 <= j < |ds| && ds[j] == last;
    IngressNameInjective(name, ds[i].cls, ds[i].host, name, last.cls, last.host);
  }

  lemma LastHasClass(name: string, app: Application, cfg: Config, key: string)
    requires forall i | 0 <= i < |app.domains| :: app.domains[i].cls != ""
    requires key in DomainKeys(name, FillHosts(name, app.domains, cfg))
    ensures var last := LastAt(name, FillHosts(name, app.domains, cfg), key); last.Some? && last.value.cls != ""
  {
    var ds := FillHosts(name, app.domains, cfg);
    LastAtInside(name, ds, key);
    var j :| 0 <= j < |ds| && ds[j] == LastAt(name, ds, key).value;
    assert app.domains[j].cls != "";
  }

  lemma SameMap(a: IngressMap, b: IngressMap)
    requires forall key :: (key in a <==> key in b) && (key in a ==> a[key] == b[key])
    ensures a == b
  {
  }

  lemma RoundTripWithClasses(ingresses: IngressMap, name: string, app: Application, sds: map<string, SqbDeployment>,
                             cfg: Config)
    requires Serving(name, app, cfg)
    requires forall key | key in ingresses ::
               !AutoOf(ingresses, name, key) && key !in DomainKeys(name, FillHosts(name, app.domains, cfg))
    requires forall i | 0 <= i < |app.domains| :: app.domains[i].cls != ""
    ensures RemoveAuto(ApplicationStep(ingresses, name, app, sds, cfg), name, {}) == ingresses
  {
    var removed := RemoveAuto(ApplicationStep(ingresses, name, app, sds, cfg), name, {});
    forall key ensures (key in removed <==> key in ingresses) && (key in removed ==> removed[key] == ingresses[key]) {
      RoundTripAt(ingresses, name, app, sds, cfg, key);
      if key in DomainKeys(name, FillHosts(name, app.domains, cfg)) {
        LastHasClass(name, app, cfg, key);
      }
    }
    SameMap(removed, ingresses);
  }

  /** Creating the ingresses of an application and then deleting them restores a store that had no
      generated ingress of the application and no ingress of those names, exactly when every domain
      has a class (classes without dots; with an empty class the ingress is never recognised). */
  lemma CreateDeleteRoundTripIff(ingresses: IngressMap, name: string, app: Application, sds: map<string, SqbDeployment>,
                                 cfg: Config)
    requires Serving(name, app, cfg) && DotFree(name)
    requires forall i | 0 <= i < |app.domains| :: DotFree(app.domains[i].cls)
    requires forall key | key in ingresses ::
               !AutoOf(ingresses, name, key) && key !in DomainKeys(name, FillHosts(name, app.domains, cfg))
    ensures RemoveAuto(ApplicationStep(ingresses, name, app, sds, cfg), name, {}) == ingresses
            <==> forall i | 0 <= i < |app.domains| :: app.domains[i].cls != ""
  {
    if i :| 0 <= i < |app.domains| && app.domains[i].cls == "" {
      var ds := FillHosts(name, app.domains, cfg);
      forall j | 0 <= j < |ds| ensures DotFree(ds[j].cls) {
        assert DotFree(app.domains[j].cls);
      }
      ClasslessNeverCollected(name, ds, i);
      assert DomainKey(name, ds[i]) in DomainKeys(name, ds);
      RoundTripAt(ingresses, name, app, sds, cfg, DomainKey(name, ds[i]));
    } else {
      RoundTripWithClasses(ingresses, name, app, sds, cfg);
    }
  }

  // ----- ownership -----

  /** The ingress `key` is stored and labelled with application `a`. */
  predicate Owned(ingresses: IngressMap, key: string, a: string) {
    key in ingresses && HasLabel(ingresses[key].labels, APP_KEY, a)
  }

  lemma WrittenOwned(ingresses: IngressMap, name: string, app: Application, sds: map<string, SqbDeployment>, cfg: Config,
                     key: string)
    requires Serving(name, app, cfg) && key in DomainKeys(name, FillHosts(name, app.domains, cfg))
    ensures Owned(ApplicationStep(ingresses, name, app, sds, cfg), key, name)
  {
    StepAt(ingresses, name, app, sds, cfg, key);
    assert APP_KEY != GROUP_KEY;
  }

  /** A deployment step touches no ingress but its own entry. */
  lemma DeploymentStepFrame(ingresses: IngressMap, s: string, sd: SqbDeployment, cfg: Config, key: string)
    requires key != EntryKey(s, sd, cfg)
    ensures var after := DeploymentStep(ingresses, s, sd, cfg);
            (key in after <==> key in ingresses) && (key in after ==> after[key] == ingresses[key])
  {
  }

  /** The ingress that an SQBDeployment step writes survives the step of its application exactly when that
      application serves or the ingress does not look generated: closing ingress, removing the last
      domain or deleting the application removes the entry although the SQBDeployment still asks for it.
      An entry that is newly created looks generated exactly when its class is not empty. */
  lemma EntrySurvivesIff(ingresses: IngressMap, s: string, sds: map<string, SqbDeployment>, app: Application, cfg: Config)
    requires s in sds && Entering(s, sds[s], cfg) && HasLabel(sds[s].labels, APP_KEY, sds[s].app)
    ensures var key, owner := EntryKey(s, sds[s], cfg), sds[s].app;
            var written := DeploymentStep(ingresses, s, sds[s], cfg);
            && (key in ApplicationStep(written, owner, app, sds, cfg)
                <==> Serving(owner, app, cfg) || !AutoOf(written, owner, key))
            && (key !in ingresses ==> (AutoOf(written, owner, key) <==> SpecialIngress(sds[s], cfg) != ""))
  {
    var key := EntryKey(s, sds[s], cfg);
    EntryWritten(ingresses, s, sds, cfg);
    EntryKept(DeploymentStep(ingresses, s, sds[s], cfg), sds[s].app, app, sds, cfg, key);
  }

  /** A stored ingress of the name of a public entry survives the step of an application that serves, and
      otherwise exactly when it does not look generated. */
  lemma EntryKept(ingresses: IngressMap, name: string, app: Application, sds: map<string, SqbDeployment>, cfg: Config,
                  key: string)
    requires key in ingresses && key in EntryKeys(name, sds, cfg)
    ensures key in ApplicationStep(ingresses, name, app, sds, cfg)
            <==> Serving(name, app, cfg) || !AutoOf(ingresses, name, key)
  {
    if Serving(name, app, cfg) {
      StepAt(ingresses, name, app, sds, cfg, key);
    }
  }

  lemma EntryWritten(ingresses: IngressMap, s: string, sds: map<string, SqbDeployment>, cfg: Config)
    requires s in sds && Entering(s, sds[s], cfg) && HasLabel(sds[s].labels, APP_KEY, sds[s].app)
    ensures var key, owner := EntryKey(s, sds[s], cfg), sds[s].app;
            var written := DeploymentStep(ingresses, s, sds[s], cfg);
            && key in written && key in EntryKeys(owner, sds, cfg)
            && (key !in ingresses ==> (AutoOf(written, owner, key) <==> SpecialIngress(sds[s], cfg) != ""))
  {
    assert INGRESS_CLASS_KEY != SERVER_SNIPPET_KEY by { assert |INGRESS_CLASS_KEY| != |SERVER_SNIPPET_KEY|; }
  }
}
