/** The two ingress controllers. The application step creates one ingress per domain and collects
    the stale generated ones; the SQBDeployment step owns the ingress of its public entry. Both
    label their ingresses with the same application. */
module Ingresses {
  import opened Common
  import opened Names
  import opened Routing
  import opened Objects

  type IngressMap = map<string, Ingress>

  const SNIPPET := "location ~ ^/metrics {deny all;return 404;}"

  function StoredOr(ingresses: IngressMap, name: string, annotations: StringMap): Ingress {
    if name in ingresses then ingresses[name] else Ingress(map[], annotations, [])
  }

  // ----- the application's ingresses -----

  function GatewayPath(cfg: Config): IngressPath {
    IngressPath("", "istio-ingressgateway-" + cfg.namespace, 80)
  }

  function ServicePaths(name: string, app: Application): seq<IngressPath> {
    seq(|app.subpaths|, i requires 0 <= i < |app.subpaths| =>
          IngressPath(app.subpaths[i].path, app.subpaths[i].serviceName, app.subpaths[i].servicePort))
    + [IngressPath("", name, if app.targetPorts == [] then 80 else app.targetPorts[0])]
  }

  function PathsOf(name: string, app: Application, cfg: Config): seq<IngressPath> {
    if IstioInject(app, cfg) && cfg.istioGateway then [GatewayPath(cfg)] else ServicePaths(name, app)
  }

  function OwnerLabels(name: string, app: Application): StringMap {
    map[APP_KEY := name, GROUP_KEY := Lookup(app.labels, GROUP_KEY)]
  }

  function DomainAnnotations(d: Domain): StringMap {
    d.annotation + map[INGRESS_CLASS_KEY := d.cls]
    + if d.cls == "nginx" then map[SERVER_SNIPPET_KEY := SNIPPET] else map[]
  }

  function DomainKey(name: string, d: Domain): string {
    IngressName(name, d.cls, d.host)
  }

  function DomainIngress(stored: Ingress, name: string, app: Application, d: Domain, cfg: Config): Ingress {
    Ingress(stored.labels + OwnerLabels(name, app), stored.annotations + DomainAnnotations(d),
            [IngressRule(d.host, PathsOf(name, app, cfg))])
  }

  function WriteDomain(ingresses: IngressMap, name: string, app: Application, d: Domain, cfg: Config): IngressMap {
    var key := DomainKey(name, d);
    ingresses[key := DomainIngress(StoredOr(ingresses, key, map[]), name, app, d, cfg)]
  }

  /** Writing the ingresses of `ds`, one after the other. */
  function WriteDomains(ingresses: IngressMap, name: string, app: Application, ds: seq<Domain>, cfg: Config): IngressMap
    decreases |ds|
  {
    if ds == [] then ingresses
    else WriteDomains(WriteDomain(ingresses, name, app, ds[0], cfg), name, app, ds[1..], cfg)
  }

  /** `isAutoIngress`: the ingress bears the name that its own class and first host lead to. */
  predicate IsAuto(name: string, key: string, ingress: Ingress) {
    var cls := Lookup(ingress.annotations, INGRESS_CLASS_KEY);
    && cls != ""
    && ingress.rules != []
    && (IngressName(name, cls, ingress.rules[0].host) == key || OldIngressName(name, cls) == key)
  }

  predicate Collectable(ingresses: IngressMap, name: string, key: string)
    requires key in ingresses
  {
    HasLabel(ingresses[key].labels, APP_KEY, name) && IsAuto(name, key, ingresses[key])
  }

  /** Deleting the generated ingresses of application `name` that are not in `kept`. */
  function RemoveAuto(ingresses: IngressMap, name: string, kept: set<string>): IngressMap {
    map key | key in ingresses && (key in kept || !Collectable(ingresses, name, key)) :: ingresses[key]
  }

  /** The ingresses that `RemoveAuto` deletes. */
  function Collected(ingresses: IngressMap, name: string, kept: set<string>): set<string> {
    set key | key in ingresses && key !in kept && Collectable(ingresses, name, key)
  }

  function EntryHost(sdName: string, sd: SqbDeployment, cfg: Config): string {
    DomainName(cfg, sdName, SpecialIngress(sd, cfg))
  }

  function DomainKeys(name: string, ds: seq<Domain>): set<string> {
    set i | 0 <= i < |ds| :: DomainKey(name, ds[i])
  }

  /** The names the application step computes for the public entries of its SQBDeployments. */
  function EntryKeys(name: string, sds: map<string, SqbDeployment>, cfg: Config): set<string> {
    set s | s in sds && HasLabel(sds[s].labels, APP_KEY, name) && PublicEntry(sds[s])
      :: IngressName(name, SpecialIngress(sds[s], cfg), EntryHost(s, sds[s], cfg))
  }

  /** `Operate` gives every domain without a host the default host of its class. */
  function FillHosts(name: string, ds: seq<Domain>, cfg: Config): seq<Domain> {
    seq(|ds|, i requires 0 <= i < |ds| =>
          if ds[i].host == "" then ds[i].(host := DomainName(cfg, name, ds[i].cls)) else ds[i])
  }

  predicate Serving(name: string, app: Application, cfg: Config) {
    MarkOf(name, app.annotations, cfg) != Confirmed && app.domains != [] && IngressOpen(app, cfg)
  }

  /** The ingresses after the application step. */
  function ApplicationStep(ingresses: IngressMap, name: string, app: Application, sds: map<string, SqbDeployment>,
                           cfg: Config): IngressMap {
    if Serving(name, app, cfg) then
      var ds := FillHosts(name, app.domains, cfg);
      RemoveAuto(WriteDomains(ingresses, name, app, ds, cfg), name, DomainKeys(name, ds) + EntryKeys(name, sds, cfg))
    else RemoveAuto(ingresses, name, {})
  }

  /** What the application step leaves when a request fails: the ingresses of the first `k` domains
      are written, and none but collectable ones are gone, and those only once all are written. */
  ghost predicate PartlyStepped(ingresses: IngressMap, name: string, app: Application, sds: map<string, SqbDeployment>,
                                cfg: Config, after: IngressMap) {
    var serving := Serving(name, app, cfg);
    var ds := if serving then FillHosts(name, app.domains, cfg) else [];
    var kept := if serving then DomainKeys(name, ds) + EntryKeys(name, sds, cfg) else {};
    exists k, removed | 0 <= k <= |ds| && removed <= Collected(WriteDomains(ingresses, name, app, ds, cfg), name, kept) ::
      (removed != {} ==> k == |ds|) && after == WriteDomains(ingresses, name, app, ds[..k], cfg) - removed
  }

  // ----- the deployment's ingress -----

  function EntryKey(sdName: string, sd: SqbDeployment, cfg: Config): string {
    IngressName(Lookup(sd.labels, APP_KEY), SpecialIngress(sd, cfg), EntryHost(sdName, sd, cfg))
  }

  function EntryIngress(stored: Ingress, sdName: string, sd: SqbDeployment, cfg: Config): Ingress {
    Ingress(stored.labels + sd.labels, stored.annotations, [IngressRule(EntryHost(sdName, sd, cfg), [GatewayPath(cfg)])])
  }

  function EntryAnnotations(sd: SqbDeployment, cfg: Config): StringMap {
    map[INGRESS_CLASS_KEY := SpecialIngress(sd, cfg), SERVER_SNIPPET_KEY := SNIPPET]
  }

  predicate Entering(sdName: string, sd: SqbDeployment, cfg: Config) {
    MarkOf(sdName, sd.annotations, cfg) != Confirmed && PublicEntry(sd)
  }

  function DeploymentStep(ingresses: IngressMap, sdName: string, sd: SqbDeployment, cfg: Config): IngressMap {
    var key := EntryKey(sdName, sd, cfg);
    if Entering(sdName, sd, cfg) then
      ingresses[key := EntryIngress(StoredOr(ingresses, key, EntryAnnotations(sd, cfg)), sdName, sd, cfg)]
    else ingresses - {key}
  }

  // ----- the handlers -----

  class IngressStore {
    var ingresses: IngressMap

    constructor (ingresses: IngressMap)
      ensures this.ingresses == ingresses
    {
      this.ingresses := ingresses;
    }

    method GeneratePaths(name: string, app: Application, cfg: Config) returns (paths: seq<IngressPath>)
      ensures paths == PathsOf(name, app, cfg)
    {
      paths := [];
      if IstioInject(app, cfg) && cfg.istioGateway {
        paths := paths + [GatewayPath(cfg)];
      } else {
        for i := 0 to |app.subpaths|
          invariant paths == ServicePaths(name, app)[..i]
        {
          var s := app.subpaths[i];
          paths := paths + [IngressPath(s.path, s.serviceName, s.servicePort)];
        }
        paths := paths + [IngressPath("", name, if app.targetPorts == [] then 80 else app.targetPorts[0])];
      }
    }

    method MergeAnnotations(stored: StringMap, d: Domain) returns (annotations: StringMap)
      ensures annotations == stored + DomainAnnotations(d)
    {
      annotations := stored;
      if d.annotation != map[] {
        annotations := MergeStringMap(annotations, d.annotation);
      }
      assert annotations == stored + d.annotation;
      var merged := map[INGRESS_CLASS_KEY := d.cls];
      if d.cls == "nginx" {
        merged := merged[SERVER_SNIPPET_KEY := SNIPPET];
      }
      assert stored + d.annotation + merged == stored + DomainAnnotations(d);
      annotations := MergeStringMap(annotations, merged);
    }

    method PutDomain(name: string, app: Application, d: Domain, cfg: Config) returns (error: bool)
      modifies this
      ensures ingresses == if error then old(ingresses) else WriteDomain(old(ingresses), name, app, d, cfg)
    {
      error := *;
      if error {
        return;
      }
      var key := DomainKey(name, d);
      var ingress := StoredOr(ingresses, key, map[]);
      var paths := GeneratePaths(name, app, cfg);
      var labels := MergeStringMap(ingress.labels, OwnerLabels(name, app));
      var annotations := MergeAnnotations(ingress.annotations, d);
      ingresses := ingresses[key := Ingress(labels, annotations, [IngressRule(d.host, paths)])];
    }

    method PutDomains(name: string, app: Application, ds: seq<Domain>, cfg: Config)
      returns (names: seq<string>, error: bool, ghost written: nat)
      modifies this
      ensures written <= |ds| && (!error ==> written == |ds|)
      ensures ingresses == WriteDomains(old(ingresses), name, app, ds[..written], cfg)
      ensures !error ==> forall n :: n in names <==> n in DomainKeys(name, ds)
    {
      names, error, written := [], false, 0;
      for i := 0 to |ds|
        invariant |names| == i && forall j | 0 <= j < i :: names[j] == DomainKey(name, ds[j])
        invariant ingresses == WriteDomains(old(ingresses), name, app, ds[..i], cfg)
        invariant !error && written == i
      {
        names := names + [DomainKey(name, ds[i])];
        error := PutDomain(name, app, ds[i], cfg);
        if error {
          return;
        }
        written := i + 1;
        WriteLast(old(ingresses), name, app, ds, i, cfg);
      }
    }

    /** Appends the names of the public entries of the application's SQBDeployments. */
    method AddEntryNames(names: seq<string>, name: string, sds: map<string, SqbDeployment>, cfg: Config)
      returns (all: seq<string>)
      ensures forall n :: n in all <==> n in names || n in EntryKeys(name, sds, cfg)
    {
      all := names;
      var rest := set s | s in sds && HasLabel(sds[s].labels, APP_KEY, name);
      ghost var done: set<string> := {};
      while rest != {}
        invariant done + rest == set s | s in sds && HasLabel(sds[s].labels, APP_KEY, name)
        invariant forall n :: n in all <==>
            n in names || exists s | s in done && PublicEntry(sds[s]) ::
                          n == IngressName(name, SpecialIngress(sds[s], cfg), EntryHost(s, sds[s], cfg))
      {
        var s :| s in rest;
        if Lookup(sds[s].annotations, PUBLIC_ENTRY_KEY) == "true" {
          all := all + [IngressName(name, SpecialIngress(sds[s], cfg), EntryHost(s, sds[s], cfg))];
        }
        rest, done := rest - {s}, done + {s};
      }
    }

    /** Deletes the generated ingresses of the application whose names are not in `names`. */
    method Collect(name: string, names: seq<string>, ghost kept: set<string>) returns (error: bool)
      requires forall n :: n in names <==> n in kept
      modifies this
      ensures !error ==> ingresses == RemoveAuto(old(ingresses), name, kept)
      ensures error ==> exists removed | removed <= Collected(old(ingresses), name, kept) ::
                ingresses == old(ingresses) - removed
    {
      var listed := set key | key in ingresses && HasLabel(ingresses[key].labels, APP_KEY, name);
      ghost var all := listed;
      ghost var removed: set<string> := {};
      error := false;
      while listed != {}
        invariant listed <= all <= old(ingresses).Keys && !error
        invariant removed == set key | key in all - listed && IsAuto(name, key, old(ingresses)[key]) && key !in kept
        invariant ingresses == old(ingresses) - removed
      {
        var key :| key in listed;
        var contained := ContainString(names, key);
        if IsAuto(name, key, ingresses[key]) && !contained {
          error := *;
          if error {
            assert removed <= Collected(old(ingresses), name, kept);
            return;
          }
          ingresses := ingresses - {key};
          removed := removed + {key};
        }
        listed := listed - {key};
      }
    }

    method CreateOrUpdateForApplication(name: string, app: Application, ds: seq<Domain>,
                                        sds: map<string, SqbDeployment>, cfg: Config) returns (error: bool)
      requires Serving(name, app, cfg) && ds == FillHosts(name, app.domains, cfg)
      modifies this
      ensures !error ==> ingresses == ApplicationStep(old(ingresses), name, app, sds, cfg)
      ensures error ==> PartlyStepped(old(ingresses), name, app, sds, cfg, ingresses)
    {
      ghost var before, kept := ingresses, DomainKeys(name, ds) + EntryKeys(name, sds, cfg);
      var names;
      ghost var k;
      names, error, k := PutDomains(name, app, ds, cfg);
      if error {
        PartOf(before, name, app, sds, cfg, k, {}, ingresses);
        return;
      }
      assert ds[..|ds|] == ds;
      names := AddEntryNames(names, name, sds, cfg);
      error := Collect(name, names, kept);
      if error {
        ghost var removed :| removed <= Collected(WriteDomains(before, name, app, ds, cfg), name, kept)
                             && ingresses == WriteDomains(before, name, app, ds, cfg) - removed;
        PartOf(before, name, app, sds, cfg, |ds|, removed, ingresses);
      }
    }

    method DeleteForApplication(name: string, app: Application, ghost sds: map<string, SqbDeployment>, ghost cfg: Config)
      returns (error: bool)
      requires !Serving(name, app, cfg)
      modifies this
      ensures !error ==> ingresses == ApplicationStep(old(ingresses), name, app, sds, cfg)
      ensures error ==> PartlyStepped(old(ingresses), name, app, sds, cfg, ingresses)
    {
      ghost var before := ingresses;
      error := Collect(name, [], {});
      if error {
        ghost var removed :| removed <= Collected(before, name, {}) && ingresses == before - removed;
        PartOf(before, name, app, sds, cfg, 0, removed, ingresses);
      }
    }

    /** `Handle` for an application, after `Operate` has filled in the default hosts. Any request may
        fail; then the error is returned and what was done stays. */
    method HandleApplication(name: string, app: Application, sds: map<string, SqbDeployment>, cfg: Config)
      returns (error: bool)
      modifies this
      ensures !error ==> ingresses == ApplicationStep(old(ingresses), name, app, sds, cfg)
      ensures error ==> PartlyStepped(old(ingresses), name, app, sds, cfg, ingresses)
    {
      var ds := app.domains;
      for i := 0 to |ds|
        invariant |ds| == |app.domains|
        invariant forall j | 0 <= j < |ds| ::
                    ds[j] == if j < i then FillHosts(name, app.domains, cfg)[j] else app.domains[j]
      {
        if ds[i].host == "" {
          ds := ds[i := ds[i].(host := DomainName(cfg, name, ds[i].cls))];
        }
      }
      assert ds == FillHosts(name, app.domains, cfg);
      if MarkOf(name, app.annotations, cfg) == Confirmed || ds == [] {
        error := DeleteForApplication(name, app, sds, cfg);
        return;
      }
      if !IngressOpen(app, cfg) {
        error := DeleteForApplication(name, app, sds, cfg);
        return;
      }
      error := CreateOrUpdateForApplication(name, app, ds, sds, cfg);
    }

    /** `Handle` for an SQBDeployment. */
    method HandleDeployment(sdName: string, sd: SqbDeployment, cfg: Config) returns (error: bool)
      modifies this
      ensures ingresses == if error then old(ingresses) else DeploymentStep(old(ingresses), sdName, sd, cfg)
    {
      error := *;
      if error {
        return;
      }
      var key := IngressName(Lookup(sd.labels, APP_KEY), SpecialIngress(sd, cfg), EntryHost(sdName, sd, cfg));
      if MarkOf(sdName, sd.annotations, cfg) == Confirmed || Lookup(sd.annotations, PUBLIC_ENTRY_KEY) != "true" {
        ingresses := ingresses - {key};
        return;
      }
      var ingress := StoredOr(ingresses, key, EntryAnnotations(sd, cfg));
      var labels := MergeStringMap(ingress.labels, sd.labels);
      ingresses := ingresses[key := Ingress(labels, ingress.annotations,
                                            [IngressRule(EntryHost(sdName, sd, cfg), [GatewayPath(cfg)])])];
    }
  }

  lemma {:induction false} WriteLast(ingresses: IngressMap, name: string, app: Application, ds: seq<Domain>, i: nat,
                                     cfg: Config)
    requires i < |ds|
    ensures WriteDomains(ingresses, name, app, ds[..i + 1], cfg)
         == WriteDomain(WriteDomains(ingresses, name, app, ds[..i], cfg), name, app, ds[i], cfg)
    decreases i
  {
    var next := WriteDomain(ingresses, name, app, ds[0], cfg);
    if i == 0 {
      assert ds[..1][1..] == [];
    } else {
      assert ds[..i + 1][1..] == ds[1..][..i] && ds[..i][1..] == ds[1..][..i - 1];
      WriteLast(next, name, app, ds[1..], i - 1, cfg);
    }
  }

  lemma PartOf(ingresses: IngressMap, name: string, app: Application, sds: map<string, SqbDeployment>, cfg: Config,
               k: nat, removed: set<string>, after: IngressMap)
    requires var ds := if Serving(name, app, cfg) then FillHosts(name, app.domains, cfg) else [];
             var kept := if Serving(name, app, cfg) then DomainKeys(name, ds) + EntryKeys(name, sds, cfg) else {};
             && k <= |ds| && (removed != {} ==> k == |ds|)
             && removed <= Collected(WriteDomains(ingresses, name, app, ds, cfg), name, kept)
             && after == WriteDomains(ingresses, name, app, ds[..k], cfg) - removed
    ensures PartlyStepped(ingresses, name, app, sds, cfg, after)
  {
  }
}
