/** What is in the ingresses after a successful step, said of the application, the SQBDeployment and the
    settings alone: their names, hosts, backends, labels and annotations, and which ingresses are gone. */
module IngressContent {
  import opened Common
  import opened Names
  import opened Routing
  import opened Objects
  import opened Ingresses
  import opened IngressLaws

  /** The application is not being deleted, has domains and may have ingresses. */
  predicate Serves(name: string, app: Application, cfg: Config) {
    !RightChecksum(name, app.annotations, cfg) && app.domains != [] && MayServe(app, cfg)
  }

  lemma ServingIff(name: string, app: Application, cfg: Config)
    ensures Serving(name, app, cfg) <==> Serves(name, app, cfg)
  {
    MarkOfIff(name, app.annotations, cfg);
    EffectiveSettings(app, cfg);
  }

  /** The host that the template of a class gives a prefix. */
  function HostFrom(cfg: Config, cls: string, prefix: string): string {
    if cls in cfg.domainPostfix then ReplaceStar(cfg.domainPostfix[cls], prefix) else ""
  }

  /** The host of a domain: its own, or by default the one its class gives the application. */
  function HostOf(name: string, d: Domain, cfg: Config): string {
    if d.host != "" then d.host else HostFrom(cfg, d.cls, name)
  }

  function KeyOf(name: string, d: Domain, cfg: Config): string {
    name + "." + d.cls + "." + HostOf(name, d, cfg)
  }

  /** The backends: under istio with a gateway the gateway alone, otherwise the Service of every subpath, in
      order, and then the application's own Service at its first target port, or 80. */
  predicate Backends(name: string, app: Application, cfg: Config, paths: seq<IngressPath>) {
    if UnderIstio(app, cfg) && cfg.istioGateway then
      paths == [IngressPath("", "istio-ingressgateway-" + cfg.namespace, 80)]
    else
      && |paths| == |app.subpaths| + 1
      && (forall i | 0 <= i < |app.subpaths| ::
            && paths[i].path == app.subpaths[i].path
            && paths[i].service == app.subpaths[i].serviceName
            && paths[i].port == app.subpaths[i].servicePort)
      && paths[|app.subpaths|].path == "" && paths[|app.subpaths|].service == name
      && (app.targetPorts != [] ==> paths[|app.subpaths|].port == app.targetPorts[0])
      && (app.targetPorts == [] ==> paths[|app.subpaths|].port == 80)
  }

  lemma PathsAreBackends(name: string, app: Application, cfg: Config)
    ensures Backends(name, app, cfg, PathsOf(name, app, cfg))
  {
    EffectiveSettings(app, cfg);
  }

  /** The labels: those of the application on top of what was there. */
  ghost predicate OwnerLabelled(before: StringMap, name: string, app: Application, labels: StringMap) {
    && HasLabel(labels, APP_KEY, name)
    && HasLabel(labels, GROUP_KEY, if GROUP_KEY in app.labels then app.labels[GROUP_KEY] else "")
    && forall k | k !in {APP_KEY, GROUP_KEY} ::
         (k in labels <==> k in before) && (k in labels ==> labels[k] == before[k])
  }

  /** The annotations: the class, for nginx the rule that hides the metrics, and the domain's own. */
  predicate DomainAnnotated(d: Domain, annotations: StringMap) {
    && HasLabel(annotations, INGRESS_CLASS_KEY, d.cls)
    && (d.cls == "nginx" ==> HasLabel(annotations, SERVER_SNIPPET_KEY, "location ~ ^/metrics {deny all;return 404;}"))
    && forall k | k in d.annotation && k != INGRESS_CLASS_KEY && (k == SERVER_SNIPPET_KEY ==> d.cls != "nginx") ::
         HasLabel(annotations, k, d.annotation[k])
  }

  lemma FilledKey(name: string, app: Application, cfg: Config, i: nat)
    requires i < |app.domains|
    ensures var ds := FillHosts(name, app.domains, cfg);
            && DomainKey(name, ds[i]) == KeyOf(name, app.domains[i], cfg)
            && ds[i].host == HostOf(name, app.domains[i], cfg)
            && ds[i].cls == app.domains[i].cls && ds[i].annotation == app.domains[i].annotation
  {
  }

  /** The last domain of a name is the one after which the name does not come again, and its annotations
      are merged last. */
  lemma {:induction false} LastAtIs(name: string, ds: seq<Domain>, i: nat, key: string)
    requires i < |ds| && DomainKey(name, ds[i]) == key
    requires forall j | i < j < |ds| :: DomainKey(name, ds[j]) != key
    ensures LastAt(name, ds, key) == Some(ds[i])
    ensures forall k | k in DomainAnnotations(ds[i]) ::
              HasLabel(MergedAt(name, ds, key), k, DomainAnnotations(ds[i])[k])
    decreases |ds|
  {
    LastAtInside(name, ds[1..], key);
    if i == 0 {
      assert key !in DomainKeys(name, ds[1..]);
    } else {
      LastAtIs(name, ds[1..], i - 1, key);
    }
  }

  lemma AnnotationsMerged(d: Domain, before: StringMap, merged: StringMap)
    requires forall k | k in DomainAnnotations(d) :: HasLabel(merged, k, DomainAnnotations(d)[k])
    ensures DomainAnnotated(d, before + merged)
  {
    var own := DomainAnnotations(d);
    assert INGRESS_CLASS_KEY != SERVER_SNIPPET_KEY by { assert |INGRESS_CLASS_KEY| != |SERVER_SNIPPET_KEY|; }
    assert HasLabel(own, INGRESS_CLASS_KEY, d.cls);
    assert d.cls == "nginx" ==> HasLabel(own, SERVER_SNIPPET_KEY, SNIPPET);
    forall k | k in own ensures HasLabel(before + merged, k, own[k]) {
    }
    assert forall k | k in d.annotation && k != INGRESS_CLASS_KEY && (k == SERVER_SNIPPET_KEY ==> d.cls != "nginx") ::
             HasLabel(own, k, d.annotation[k]);
  }

  lemma WrittenIs(stored: Ingress, name: string, app: Application, ds: seq<Domain>, key: string, d: Domain, cfg: Config)
    requires forall k | k in DomainAnnotations(d) :: HasLabel(MergedAt(name, ds, key), k, DomainAnnotations(d)[k])
    ensures var written := WrittenAt(stored, name, app, ds, key, d, cfg);
            && |written.rules| == 1 && written.rules[0].host == d.host
            && Backends(name, app, cfg, written.rules[0].paths)
            && OwnerLabelled(stored.labels, name, app, written.labels) && DomainAnnotated(d, written.annotations)
  {
    PathsAreBackends(name, app, cfg);
    assert APP_KEY != GROUP_KEY;
    AnnotationsMerged(d, stored.annotations, MergedAt(name, ds, key));
  }

  /** After the step of an application that serves, the ingress of every domain is there, under the name of
      application, class and host: its one rule has the domain's host and the application's backends. Of
      several domains with the same name, the last decides. */
  lemma DomainIngressIs(ingresses: IngressMap, name: string, app: Application, sds: map<string, SqbDeployment>, cfg: Config,
                        i: nat)
    requires Serves(name, app, cfg) && i < |app.domains|
    requires forall j | i < j < |app.domains| :: KeyOf(name, app.domains[j], cfg) != KeyOf(name, app.domains[i], cfg)
    ensures var after, key := ApplicationStep(ingresses, name, app, sds, cfg), KeyOf(name, app.domains[i], cfg);
            && key in after
            && |after[key].rules| == 1 && after[key].rules[0].host == HostOf(name, app.domains[i], cfg)
            && Backends(name, app, cfg, after[key].rules[0].paths)
            && OwnerLabelled(if key in ingresses then ingresses[key].labels else map[], name, app, after[key].labels)
            && DomainAnnotated(app.domains[i], after[key].annotations)
  {
    var ds, key := FillHosts(name, app.domains, cfg), KeyOf(name, app.domains[i], cfg);
    ServingIff(name, app, cfg);
    forall j | i <= j < |ds| ensures DomainKey(name, ds[j]) == KeyOf(name, app.domains[j], cfg) {
      FilledKey(name, app, cfg, j);
    }
    FilledKey(name, app, cfg, i);
    LastAtIs(name, ds, i, key);
    assert key in DomainKeys(name, ds);
    StepAt(ingresses, name, app, sds, cfg, key);
    WrittenIs(StoredOr(ingresses, key, map[]), name, app, ds, key, ds[i], cfg);
    assert DomainAnnotated(ds[i], ApplicationStep(ingresses, name, app, sds, cfg)[key].annotations);
  }

  /** The name of the public entry of an SQBDeployment. */
  predicate EntryNamed(app: string, s: string, sd: SqbDeployment, cfg: Config, key: string) {
    && HasLabel(sd.annotations, PUBLIC_ENTRY_KEY, "true")
    && var cls := if SPECIAL_INGRESS_KEY in sd.annotations then sd.annotations[SPECIAL_INGRESS_KEY]
                  else cfg.specialIngress;
       key == app + "." + cls + "." + HostFrom(cfg, cls, s)
  }

  /** Every other ingress is as before, or is gone. Gone are those that look generated for the application,
      except that one that serves keeps the public entries of the SQBDeployments labelled with it. */
  lemma OtherIngressIs(ingresses: IngressMap, name: string, app: Application, sds: map<string, SqbDeployment>, cfg: Config,
                       key: string)
    requires Serves(name, app, cfg) ==> forall i | 0 <= i < |app.domains| :: key != KeyOf(name, app.domains[i], cfg)
    ensures var after := ApplicationStep(ingresses, name, app, sds, cfg);
            && (key in after ==> key in ingresses && after[key] == ingresses[key])
            && (key in ingresses ==>
                  (key in after
                   <==> || !GeneratedFor(name, key, ingresses[key])
                        || (Serves(name, app, cfg)
                            && exists s | s in sds && HasLabel(sds[s].labels, APP_KEY, name) ::
                                 EntryNamed(name, s, sds[s], cfg, key))))
  {
    ServingIff(name, app, cfg);
    if Serves(name, app, cfg) {
      var ds := FillHosts(name, app.domains, cfg);
      if key in DomainKeys(name, ds) {
        var i :| 0 <= i < |ds| && key == DomainKey(name, ds[i]);
        FilledKey(name, app, cfg, i);
      }
      StepAt(ingresses, name, app, sds, cfg, key);
      EntryKeysIff(name, sds, cfg, key);
    }
  }

  lemma EntryKeysIff(name: string, sds: map<string, SqbDeployment>, cfg: Config, key: string)
    ensures key in EntryKeys(name, sds, cfg)
            <==> exists s | s in sds && HasLabel(sds[s].labels, APP_KEY, name) :: EntryNamed(name, s, sds[s], cfg, key)
  {
    if key in EntryKeys(name, sds, cfg) {
      var s :| s in sds && HasLabel(sds[s].labels, APP_KEY, name) && PublicEntry(sds[s])
               && key == IngressName(name, SpecialIngress(sds[s], cfg), EntryHost(s, sds[s], cfg));
      assert EntryNamed(name, s, sds[s], cfg, key);
    }
    if s :| s in sds && HasLabel(sds[s].labels, APP_KEY, name) && EntryNamed(name, s, sds[s], cfg, key) {
      assert key == IngressName(name, SpecialIngress(sds[s], cfg), EntryHost(s, sds[s], cfg));
    }
  }

  /** After the step of an SQBDeployment that is a public entry and is not being deleted, its ingress routes the
      host of its class to the gateway; a new one hides the metrics, a stored one keeps its annotations.
      Otherwise there is no such ingress. */
  lemma EntryIngressIs(ingresses: IngressMap, s: string, sd: SqbDeployment, cfg: Config)
    ensures var after := DeploymentStep(ingresses, s, sd, cfg);
            var cls := if SPECIAL_INGRESS_KEY in sd.annotations then sd.annotations[SPECIAL_INGRESS_KEY]
                       else cfg.specialIngress;
            var host := HostFrom(cfg, cls, s);
            var key := (if APP_KEY in sd.labels then sd.labels[APP_KEY] else "") + "." + cls + "." + host;
            if HasLabel(sd.annotations, PUBLIC_ENTRY_KEY, "true") && !RightChecksum(s, sd.annotations, cfg) then
              && key in after
              && after[key].rules == [IngressRule(host, [IngressPath("", "istio-ingressgateway-" + cfg.namespace, 80)])]
              && (forall k | k in sd.labels :: HasLabel(after[key].labels, k, sd.labels[k]))
              && (key in ingresses ==> after[key].annotations == ingresses[key].annotations)
              && (key !in ingresses ==>
                    && HasLabel(after[key].annotations, INGRESS_CLASS_KEY, cls)
                    && HasLabel(after[key].annotations, SERVER_SNIPPET_KEY, "location ~ ^/metrics {deny all;return 404;}"))
            else key !in after
  {
    MarkOfIff(s, sd.annotations, cfg);
    assert INGRESS_CLASS_KEY != SERVER_SNIPPET_KEY by { assert |INGRESS_CLASS_KEY| != |SERVER_SNIPPET_KEY|; }
  }

  // ----- trying again -----

  lemma {:induction false} MergedPrefix(name: string, ds: seq<Domain>, n: nat, key: string)
    requires n <= |ds|
    ensures MergedAt(name, ds[..n], key).Keys <= MergedAt(name, ds, key).Keys
    ensures key in DomainKeys(name, ds[..n]) ==> key in DomainKeys(name, ds)
    decreases |ds|
  {
    if n > 0 {
      assert ds[..n][1..] == ds[1..][..n - 1];
      MergedPrefix(name, ds[1..], n - 1, key);
    }
  }

  lemma Overwritten(a: StringMap, b: StringMap, c: StringMap)
    requires b.Keys <= c.Keys
    ensures a + b + c == a + c
  {
  }

  /** What was written for the first domains is overwritten when all are written. */
  lemma WrittenAgain(stored: Ingress, name: string, app: Application, ds: seq<Domain>, n: nat, key: string, d: Domain,
                     last: Domain, cfg: Config)
    requires n <= |ds|
    ensures WrittenAt(WrittenAt(stored, name, app, ds[..n], key, d, cfg), name, app, ds, key, last, cfg)
         == WrittenAt(stored, name, app, ds, key, last, cfg)
  {
    MergedPrefix(name, ds, n, key);
    Overwritten(stored.annotations, MergedAt(name, ds[..n], key), MergedAt(name, ds, key));
    Overwritten(stored.labels, OwnerLabels(name, app), OwnerLabels(name, app));
  }

  /** The step of a serving application has written `n` domains and removed some ingresses. */
  ghost predicate LeftAt(ingresses: IngressMap, name: string, app: Application, sds: map<string, SqbDeployment>,
                         cfg: Config, n: nat, removed: set<string>, part: IngressMap) {
    var ds := FillHosts(name, app.domains, cfg);
    && n <= |ds| && part == WriteDomains(ingresses, name, app, ds[..n], cfg) - removed
    && removed <= Collected(WriteDomains(ingresses, name, app, ds, cfg), name,
                            DomainKeys(name, ds) + EntryKeys(name, sds, cfg))
  }

  lemma LeftSomewhere(ingresses: IngressMap, name: string, app: Application, sds: map<string, SqbDeployment>, cfg: Config,
                      part: IngressMap) returns (n: nat, removed: set<string>)
    requires Serving(name, app, cfg) && PartlyStepped(ingresses, name, app, sds, cfg, part)
    ensures LeftAt(ingresses, name, app, sds, cfg, n, removed, part)
  {
    var ds := FillHosts(name, app.domains, cfg);
    n, removed :| 0 <= n <= |ds|
                  && removed <= Collected(WriteDomains(ingresses, name, app, ds, cfg), name,
                                          DomainKeys(name, ds) + EntryKeys(name, sds, cfg))
                  && part == WriteDomains(ingresses, name, app, ds[..n], cfg) - removed;
  }

  lemma RetryServing(ingresses: IngressMap, name: string, app: Application, sds: map<string, SqbDeployment>, cfg: Config,
                     n: nat, removed: set<string>, part: IngressMap)
    requires Serving(name, app, cfg) && LeftAt(ingresses, name, app, sds, cfg, n, removed, part)
    ensures ApplicationStep(part, name, app, sds, cfg) == ApplicationStep(ingresses, name, app, sds, cfg)
  {
    var a, b := ApplicationStep(part, name, app, sds, cfg), ApplicationStep(ingresses, name, app, sds, cfg);
    forall key ensures (key in a <==> key in b) && (key in a ==> a[key] == b[key]) {
      RetryAt(ingresses, name, app, sds, cfg, n, removed, part, key);
    }
    SameMap(a, b);
  }

  lemma RemovedAgain(ingresses: IngressMap, name: string, removed: set<string>)
    requires removed <= Collected(ingresses, name, {})
    ensures RemoveAuto(ingresses - removed, name, {}) == RemoveAuto(ingresses, name, {})
  {
  }

  lemma RetryClosed(ingresses: IngressMap, name: string, app: Application, sds: map<string, SqbDeployment>, cfg: Config,
                    part: IngressMap)
    requires !Serving(name, app, cfg) && PartlyStepped(ingresses, name, app, sds, cfg, part)
    ensures ApplicationStep(part, name, app, sds, cfg) == ApplicationStep(ingresses, name, app, sds, cfg)
  {
    var none: seq<Domain> := [];
    var k, removed :| 0 <= k <= |none| && removed <= Collected(WriteDomains(ingresses, name, app, none, cfg), name, {})
                      && part == WriteDomains(ingresses, name, app, none[..k], cfg) - removed;
    assert none[..k] == none && WriteDomains(ingresses, name, app, none, cfg) == ingresses;
    assert part == ingresses - removed;
    RemovedAgain(ingresses, name, removed);
  }

  lemma RetryAt(ingresses: IngressMap, name: string, app: Application, sds: map<string, SqbDeployment>, cfg: Config,
                n: nat, removed: set<string>, part: IngressMap, key: string)
    requires Serving(name, app, cfg) && LeftAt(ingresses, name, app, sds, cfg, n, removed, part)
    ensures var a, b := ApplicationStep(part, name, app, sds, cfg), ApplicationStep(ingresses, name, app, sds, cfg);
            (key in a <==> key in b) && (key in a ==> a[key] == b[key])
  {
    var ds := FillHosts(name, app.domains, cfg);
    WriteDomainsAt(ingresses, name, app, ds[..n], cfg, key);
    WriteDomainsAt(ingresses, name, app, ds, cfg, key);
    LastAtInside(name, ds[..n], key);
    LastAtInside(name, ds, key);
    MergedPrefix(name, ds, n, key);
    StepAt(part, name, app, sds, cfg, key);
    StepAt(ingresses, name, app, sds, cfg, key);
    if key in DomainKeys(name, ds[..n]) {
      WrittenAgain(StoredOr(ingresses, key, map[]), name, app, ds, n, key, LastAt(name, ds[..n], key).value,
                   LastAt(name, ds, key).value, cfg);
    }
  }

  /** Whatever a failed step of an application has left, the next that succeeds brings what it would have
      brought at once. */
  lemma ApplicationStepRetried(ingresses: IngressMap, name: string, app: Application, sds: map<string, SqbDeployment>,
                               cfg: Config, part: IngressMap)
    requires PartlyStepped(ingresses, name, app, sds, cfg, part)
    ensures ApplicationStep(part, name, app, sds, cfg) == ApplicationStep(ingresses, name, app, sds, cfg)
  {
    if Serving(name, app, cfg) {
      var n, removed := LeftSomewhere(ingresses, name, app, sds, cfg, part);
      RetryServing(ingresses, name, app, sds, cfg, n, removed, part);
    } else {
      RetryClosed(ingresses, name, app, sds, cfg, part);
    }
  }
}
