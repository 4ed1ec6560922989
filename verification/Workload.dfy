/** The Deployment generated from an SQBDeployment, the selector of the generated Service, and
    what any sequence of regenerations keeps. */
module Workload {
  import opened Common
  import opened Objects

  // ----- volumes -----

  function Digits(n: nat): string {
    var digit := [('0' as int + n % 10) as char];
    if n < 10 then digit else Digits(n / 10) + digit
  }

  lemma {:induction false} DigitsInjective(m: nat, n: nat)
    ensures Digits(m) == Digits(n) <==> m == n
    decreases m
  {
    if Digits(m) == Digits(n) {
      var k := |Digits(m)| - 1;
      assert Digits(m)[k] == Digits(n)[k];
      if m >= 10 && n >= 10 {
        assert Digits(m)[..k] == Digits(m / 10) && Digits(n)[..k] == Digits(n / 10);
        DigitsInjective(m / 10, n / 10);
      }
    }
  }

  function VolumeName(i: nat): string {
    "volume-" + Digits(i)
  }

  lemma VolumeNameInjective(i: nat, j: nat)
    ensures VolumeName(i) == VolumeName(j) <==> i == j
  {
    DigitsInjective(i, j);
    assert VolumeName(i)[7..] == Digits(i) && VolumeName(j)[7..] == Digits(j);
  }

  /** The source of a volume: the first one given, in the order in which the handler asks. */
  function SourceOf(v: VolumeSpec): Option<VolumeSource> {
    if v.emptyDir then Some(EmptyDir)
    else if v.hostPath != "" then Some(HostPath(v.hostPath))
    else if v.configMap != "" then Some(ConfigMap(v.configMap))
    else if v.secret != "" then Some(Secret(v.secret))
    else if v.claimName != "" then Some(Claim(v.claimName))
    else if v.downwardAPI.Some? then Some(DownwardAPI(v.downwardAPI.value))
    else None
  }

  /** The volumes of `vs[i..]`. */
  function VolumesFrom(vs: seq<VolumeSpec>, i: nat): seq<Volume>
    requires i <= |vs|
    decreases |vs| - i
  {
    if i == |vs| then []
    else
      (if SourceOf(vs[i]).Some? then [Volume(VolumeName(i), SourceOf(vs[i]).value)] else []) + VolumesFrom(vs, i + 1)
  }

  function MountsOf(vs: seq<VolumeSpec>): seq<Mount> {
    seq(|vs|, i requires 0 <= i < |vs| => Mount(VolumeName(i), vs[i].mountPath))
  }

  lemma MountsStep(vs: seq<VolumeSpec>, i: nat)
    requires i < |vs|
    ensures MountsOf(vs)[..i + 1] == MountsOf(vs)[..i] + [Mount(VolumeName(i), vs[i].mountPath)]
  {
  }

  lemma Regroup<T>(a: seq<T>, b: seq<T>, c: seq<T>)
    ensures a + b + c == a + (b + c)
  {
  }

  lemma VolumesStep(vs: seq<VolumeSpec>, i: nat, before: seq<Volume>)
    requires i < |vs|
    ensures var own := if SourceOf(vs[i]).Some? then [Volume(VolumeName(i), SourceOf(vs[i]).value)] else [];
            before + own + VolumesFrom(vs, i + 1) == before + VolumesFrom(vs, i)
  {
    var own := if SourceOf(vs[i]).Some? then [Volume(VolumeName(i), SourceOf(vs[i]).value)] else [];
    Regroup(before, own, VolumesFrom(vs, i + 1));
  }

  lemma {:induction false} VolumesFromContent(vs: seq<VolumeSpec>, i: nat)
    requires i <= |vs|
    ensures forall v :: v in VolumesFrom(vs, i) <==>
              exists j | i <= j < |vs| :: SourceOf(vs[j]).Some? && v == Volume(VolumeName(j), SourceOf(vs[j]).value)
    decreases |vs| - i
  {
    if i < |vs| {
      VolumesFromContent(vs, i + 1);
    }
  }

  /** A mount has a volume of its name exactly when its volume spec gives a source, and then that
      volume is the only one of the name. */
  lemma MountHasVolumeIff(vs: seq<VolumeSpec>, i: nat)
    requires i < |vs|
    ensures forall v | v in VolumesFrom(vs, 0) && v.name == MountsOf(vs)[i].name :: Some(v.source) == SourceOf(vs[i])
    ensures (exists v | v in VolumesFrom(vs, 0) :: v.name == MountsOf(vs)[i].name) <==> SourceOf(vs[i]).Some?
  {
    VolumesFromContent(vs, 0);
    forall v | v in VolumesFrom(vs, 0) && v.name == MountsOf(vs)[i].name ensures Some(v.source) == SourceOf(vs[i]) {
      var j :| 0 <= j < |vs| && SourceOf(vs[j]).Some? && v == Volume(VolumeName(j), SourceOf(vs[j]).value);
      VolumeNameInjective(i, j);
    }
    if SourceOf(vs[i]).Some? {
      assert Volume(VolumeName(i), SourceOf(vs[i]).value) in VolumesFrom(vs, 0);
    }
  }

  // ----- the generated Deployment -----

  const PODINFO := "/etc/podinfo"

  function WithoutPodinfo(mounts: seq<Mount>): seq<Mount> {
    if mounts == [] then []
    else (if mounts[0].path != PODINFO then [mounts[0]] else []) + WithoutPodinfo(mounts[1..])
  }

  function StartupOf(p: Probe): StartupProbe {
    StartupProbe(p.initialDelay, 10, 1, (if p.initialDelay > 180 then p.initialDelay else 180) / 10, p.timeout, p.action)
  }

  function DecodedOr(sd: SqbDeployment, key: string, cfg: Config): StringMap {
    if key in sd.annotations then cfg.decode(sd.annotations[key]) else map[]
  }

  function ServiceAccount(labels: StringMap): string {
    var group := Lookup(labels, GROUP_KEY);
    if group != "" then "sqb-" + group + "-vault-sa" else "default"
  }

  function InitContainerOf(sd: SqbDeployment, cfg: Config, previous: Option<InitContainer>): Option<InitContainer> {
    if sd.initCommand.Some? || cfg.initImage != "" then
      Some(InitContainer(if cfg.initImage == "" then "busybox:1.32" else cfg.initImage,
                         if sd.initCommand.Some? then sd.initCommand.value else [], MountsOf(sd.volumes)))
    else previous
  }

  function RollingUpdate(strategy: string, maxUnavailable: Option<string>): Option<string> {
    if strategy == "RollingUpdate" && maxUnavailable in {None, Some("25%")} then Some("0") else maxUnavailable
  }

  const NO_POD := PodSpec([], [], "", None, None, None, None, "", None, None)

  /** The value a Deployment has before its first generation. */
  const NO_DEPLOYMENT := Deployment(map[], map[], None, None, Template(map[], map[], NO_POD), "", None, false, false)

  function SelectorOf(stored: Option<StringMap>, sd: SqbDeployment): StringMap {
    if stored.Some? then stored.value else map[APP_KEY := sd.app]
  }

  function PodSpecOf(previous: PodSpec, sd: SqbDeployment, podLabels: StringMap, cfg: Config): PodSpec {
    var probe := if sd.healthCheck.Some? then Some(sd.healthCheck.value.(initialDelay := 10)) else None;
    PodSpec(
      VolumesFrom(sd.volumes, 0), WithoutPodinfo(MountsOf(sd.volumes)), sd.container, probe, probe,
      if sd.healthCheck.Some? then Some(StartupOf(sd.healthCheck.value)) else None,
      InitContainerOf(sd, cfg, previous.initContainer), ServiceAccount(sd.labels), sd.nodeAffinity,
      AntiAffinityOf(previous.antiAffinityApp, podLabels))
  }

  function LabelsOf(stored: StringMap, sd: SqbDeployment): StringMap {
    stored + sd.labels - {JAEGER_INJECTED_KEY}
  }

  function PodLabelsOf(stored: StringMap, sd: SqbDeployment, selector: StringMap): StringMap {
    stored + sd.labels + selector - {JAEGER_INJECTED_KEY}
  }

  function AnnotationsOf(sd: SqbDeployment, cfg: Config): StringMap {
    DecodedOr(sd, DEPLOYMENT_ANNOTATION_KEY, cfg) - {JAEGER_INJECT_KEY}
  }

  function PodAnnotationsOf(sd: SqbDeployment, cfg: Config): StringMap {
    DecodedOr(sd, POD_ANNOTATION_KEY, cfg) + map[SIDECAR_INJECT_KEY := Lookup(sd.annotations, ISTIO_INJECT_KEY)]
  }

  function AntiAffinityOf(stored: Option<string>, podLabels: StringMap): Option<string> {
    if stored.Some? then stored else Some(Lookup(podLabels, APP_KEY))
  }

  /** The Deployment after one reconcile of `sd`, given the stored one (or `NO_DEPLOYMENT`). */
  function Regenerate(previous: Deployment, sd: SqbDeployment, cfg: Config): Deployment {
    var selector := SelectorOf(previous.selector, sd);
    var podLabels := PodLabelsOf(previous.labels, sd, selector);
    Deployment(
      LabelsOf(previous.labels, sd), AnnotationsOf(sd, cfg), sd.replicas, Some(selector),
      Template(podLabels, PodAnnotationsOf(sd, cfg), PodSpecOf(previous.template.spec, sd, podLabels, cfg)),
      previous.strategy, RollingUpdate(previous.strategy, previous.maxUnavailable), true, previous.deleting)
  }

  // ----- the handler: fields assigned one after the other, probes shared by pointer -----

  class HealthCheck {
    var initialDelay: int
    const timeout: int
    const action: string

    constructor (p: Probe)
      ensures Value() == p
    {
      initialDelay, timeout, action := p.initialDelay, p.timeout, p.action;
    }

    function Value(): Probe
      reads this
    {
      Probe(initialDelay, timeout, action)
    }
  }

  function ProbeValue(p: HealthCheck?): Option<Probe>
    reads p
  {
    if p == null then None else Some(p.Value())
  }

  /** The Deployment being built. `pod` holds the pod's fields except the two probes, which are
      pointers. */
  class DeploymentObject {
    var labels: StringMap
    var annotations: StringMap
    var replicas: Option<int>
    var selector: Option<StringMap>
    var podLabels: StringMap
    var podAnnotations: StringMap
    var pod: PodSpec
    var liveness: HealthCheck?
    var readiness: HealthCheck?
    var strategy: string
    var maxUnavailable: Option<string>
    var finalizer: bool
    var deleting: bool

    constructor (d: Deployment)
      ensures Value() == d
    {
      labels, annotations, replicas, selector := d.labels, d.annotations, d.replicas, d.selector;
      podLabels, podAnnotations, pod := d.template.labels, d.template.annotations, d.template.spec;
      strategy, maxUnavailable, finalizer, deleting := d.strategy, d.maxUnavailable, d.finalizer, d.deleting;
      var l: HealthCheck? := null;
      var r: HealthCheck? := null;
      if d.template.spec.liveness.Some? {
        l := new HealthCheck(d.template.spec.liveness.value);
      }
      if d.template.spec.readiness.Some? {
        r := new HealthCheck(d.template.spec.readiness.value);
      }
      liveness, readiness := l, r;
    }

    function Pod(): PodSpec
      reads this, liveness, readiness
    {
      pod.(liveness := ProbeValue(liveness), readiness := ProbeValue(readiness))
    }

    function Value(): Deployment
      reads this, liveness, readiness
    {
      Deployment(labels, annotations, replicas, selector, Template(podLabels, podAnnotations, Pod()),
                 strategy, maxUnavailable, finalizer, deleting)
    }

    /** `getVolumeAndVolumeMounts` */
    method GetVolumes(vs: seq<VolumeSpec>) returns (volumes: seq<Volume>, allMounts: seq<Mount>)
      ensures volumes == VolumesFrom(vs, 0) && allMounts == MountsOf(vs)
    {
      volumes, allMounts := [], [];
      for i := 0 to |vs|
        invariant volumes + VolumesFrom(vs, i) == VolumesFrom(vs, 0)
        invariant allMounts == MountsOf(vs)[..i]
      {
        MountsStep(vs, i);
        volumes := AddVolume(vs, i, volumes);
        allMounts := allMounts + [Mount(VolumeName(i), vs[i].mountPath)];
      }
    }

    method AddVolume(vs: seq<VolumeSpec>, i: nat, before: seq<Volume>) returns (volumes: seq<Volume>)
      requires i < |vs|
      ensures volumes + VolumesFrom(vs, i + 1) == before + VolumesFrom(vs, i)
    {
      volumes := before;
      var source := SourceOf(vs[i]);
      if source.Some? {
        volumes := volumes + [Volume(VolumeName(i), source.value)];
      }
      VolumesStep(vs, i, before);
    }

    /** The containers do not mount the pod information directory. */
    method ContainerMounts(allMounts: seq<Mount>) returns (mounts: seq<Mount>)
      ensures mounts == WithoutPodinfo(allMounts)
    {
      mounts := [];
      for i := 0 to |allMounts|
        invariant mounts + WithoutPodinfo(allMounts[i..]) == WithoutPodinfo(allMounts)
      {
        assert allMounts[i..][1..] == allMounts[i + 1..];
        if allMounts[i].path != PODINFO {
          mounts := mounts + [allMounts[i]];
        }
      }
    }

    method SetLabels(sd: SqbDeployment)
      modifies this`labels, this`selector, this`podLabels
      ensures selector == Some(SelectorOf(old(selector), sd))
      ensures labels == LabelsOf(old(labels), sd) && podLabels == PodLabelsOf(old(labels), sd, selector.value)
    {
      labels := MergeStringMap(labels, sd.labels);
      if selector.None? {
        selector := Some(map[APP_KEY := sd.app]);
      }
      podLabels := MergeStringMap(labels, selector.value);
      labels := labels - {JAEGER_INJECTED_KEY};
      podLabels := podLabels - {JAEGER_INJECTED_KEY};
    }

    method SetAnnotations(sd: SqbDeployment, cfg: Config)
      modifies this`annotations, this`podAnnotations
      ensures annotations == AnnotationsOf(sd, cfg) && podAnnotations == PodAnnotationsOf(sd, cfg)
    {
      podAnnotations := if POD_ANNOTATION_KEY in sd.annotations
          then cfg.decode(sd.annotations[POD_ANNOTATION_KEY]) else map[];
      podAnnotations := MergeStringMap(podAnnotations, map[SIDECAR_INJECT_KEY := Lookup(sd.annotations, ISTIO_INJECT_KEY)]);
      annotations := if DEPLOYMENT_ANNOTATION_KEY in sd.annotations
                     then cfg.decode(sd.annotations[DEPLOYMENT_ANNOTATION_KEY]) else map[];
      annotations := annotations - {JAEGER_INJECT_KEY};
    }

    /** `addStartupProbe`: writes the delay of the shared health check before storing the pointer. */
    method AddStartupProbe(healthCheck: HealthCheck?)
      modifies this`liveness, this`readiness, this`pod, healthCheck
      ensures liveness == healthCheck && readiness == healthCheck
      ensures pod == old(pod).(startup := if healthCheck == null then None else Some(StartupOf(old(healthCheck.Value()))))
      ensures healthCheck != null ==> healthCheck.Value() == old(healthCheck.Value()).(initialDelay := 10)
    {
      if healthCheck != null {
        pod := pod.(startup := Some(StartupOf(healthCheck.Value())));
        healthCheck.initialDelay := 10;
        liveness, readiness := healthCheck, healthCheck;
      } else {
        pod := pod.(startup := None);
        liveness, readiness := null, null;
      }
    }

    method SetInitContainer(sd: SqbDeployment, allMounts: seq<Mount>, cfg: Config)
      requires allMounts == MountsOf(sd.volumes)
      modifies this`pod
      ensures pod == old(pod).(initContainer := InitContainerOf(sd, cfg, old(pod).initContainer))
    {
      if sd.initCommand.Some? || cfg.initImage != "" {
        var image := cfg.initImage;
        if image == "" {
          image := "busybox:1.32";
        }
        pod := pod.(initContainer :=
          Some(InitContainer(image, if sd.initCommand.Some? then sd.initCommand.value else [], allMounts)));
      }
    }

    /** `configRollingUpdate` */
    method ConfigRollingUpdate()
      modifies this`maxUnavailable
      ensures maxUnavailable == RollingUpdate(strategy, old(maxUnavailable))
    {
      if strategy == "RollingUpdate" {
        if maxUnavailable.Some? {
          if maxUnavailable.value == "25%" {
            maxUnavailable := Some("0");
          }
        } else {
          maxUnavailable := Some("0");
        }
      }
    }

    /** The parts of the Deployment around the pod. */
    method SetMeta(sd: SqbDeployment, cfg: Config)
      modifies this`replicas, this`labels, this`selector, this`podLabels, this`annotations, this`podAnnotations
      modifies this`maxUnavailable, this`finalizer
      ensures selector == Some(SelectorOf(old(selector), sd))
      ensures labels == LabelsOf(old(labels), sd) && podLabels == PodLabelsOf(old(labels), sd, selector.value)
      ensures annotations == AnnotationsOf(sd, cfg) && podAnnotations == PodAnnotationsOf(sd, cfg)
      ensures replicas == sd.replicas && maxUnavailable == RollingUpdate(strategy, old(maxUnavailable)) && finalizer
    {
      replicas := sd.replicas;
      SetLabels(sd);
      SetAnnotations(sd, cfg);
      ConfigRollingUpdate();
      finalizer := true;
    }

    /** The pod. `healthCheck` is the pointer inside the fetched SQBDeployment. */
    method SetPod(sd: SqbDeployment, healthCheck: HealthCheck?, cfg: Config)
      requires sd.healthCheck == ProbeValue(healthCheck)
      modifies this`pod, this`liveness, this`readiness, healthCheck
      ensures Pod() == PodSpecOf(old(pod), sd, podLabels, cfg)
      ensures liveness == readiness == healthCheck
      ensures healthCheck != null ==> healthCheck.Value() == old(healthCheck.Value()).(initialDelay := 10)
    {
      var volumes, allMounts := GetVolumes(sd.volumes);
      var mounts := ContainerMounts(allMounts);
      pod := pod.(volumes := volumes, mounts := mounts, container := sd.container);
      SetInitContainer(sd, allMounts, cfg);
      pod := pod.(nodeAffinity := sd.nodeAffinity);
      AddStartupProbe(healthCheck);
      if pod.antiAffinityApp.None? {
        pod := pod.(antiAffinityApp := Some(Lookup(podLabels, APP_KEY)));
      }
      pod := pod.(serviceAccount := ServiceAccount(sd.labels));
    }

    /** `CreateOrUpdate` */
    method Generate(sd: SqbDeployment, healthCheck: HealthCheck?, cfg: Config)
      requires sd.healthCheck == ProbeValue(healthCheck)
      modifies this, healthCheck
      ensures Value() == Regenerate(old(Value()), sd, cfg)
      ensures liveness == readiness == healthCheck
      ensures healthCheck != null ==> healthCheck.Value() == old(healthCheck.Value()).(initialDelay := 10)
    {
      ghost var stored := Pod();
      SetMeta(sd, cfg);
      SetPod(sd, healthCheck, cfg);
      assert Pod() == PodSpecOf(stored, sd, podLabels, cfg);
    }
  }

  // ----- what regenerations keep -----

  predicate Satisfies(labels: StringMap, selector: StringMap) {
    forall k | k in selector :: HasLabel(labels, k, selector[k])
  }

  /** The Deployment after a history of reconciles, each with the SQBDeployment and the settings
      found at the time. */
  function History(previous: Deployment, runs: seq<(SqbDeployment, Config)>): Deployment
    decreases |runs|
  {
    if runs == [] then previous
    else History(Regenerate(previous, runs[0].0, runs[0].1), runs[1..])
  }

  /** One generation: the selector is fixed for good, and the template satisfies it exactly when the
      selector does not ask for the tracing label that is stripped. */
  lemma SelectorKept(previous: Deployment, sd: SqbDeployment, cfg: Config)
    ensures var d := Regenerate(previous, sd, cfg);
            && d.selector == Some(SelectorOf(previous.selector, sd))
            && (Satisfies(d.template.labels, d.selector.value) <==> JAEGER_INJECTED_KEY !in d.selector.value)
  {
  }

  /** Over any history after creation, whatever the SQBDeployment became in the meantime, the
      selector is the one chosen at creation and the template labels satisfy it. */
  lemma {:induction false} SelectorImmutable(first: SqbDeployment, cfg: Config, runs: seq<(SqbDeployment, Config)>)
    ensures var d := History(NO_DEPLOYMENT, [(first, cfg)] + runs);
            d.selector == Some(map[APP_KEY := first.app]) && Satisfies(d.template.labels, d.selector.value)
  {
    var d := Regenerate(NO_DEPLOYMENT, first, cfg);
    SelectorKept(NO_DEPLOYMENT, first, cfg);
    assert APP_KEY != JAEGER_INJECTED_KEY;
    assert ([(first, cfg)] + runs)[1..] == runs;
    SelectorOverRuns(d, runs);
  }

  lemma {:induction false} SelectorOverRuns(d: Deployment, runs: seq<(SqbDeployment, Config)>)
    requires d.selector.Some? && JAEGER_INJECTED_KEY !in d.selector.value
    requires Satisfies(d.template.labels, d.selector.value)
    ensures History(d, runs).selector == d.selector
    ensures Satisfies(History(d, runs).template.labels, d.selector.value)
    decreases |runs|
  {
    if runs != [] {
      SelectorKept(d, runs[0].0, runs[0].1);
      SelectorOverRuns(Regenerate(d, runs[0].0, runs[0].1), runs[1..]);
    }
  }

  lemma MergeAgain(previous: StringMap, labels: StringMap, selector: StringMap, key: string)
    ensures previous + labels - {key} + labels - {key} == previous + labels - {key}
    ensures previous + labels - {key} + labels + selector - {key} == previous + labels + selector - {key}
  {
  }

  /** Running again from the same stored SQBDeployment changes nothing. */
  lemma RegenerateIdempotent(previous: Deployment, sd: SqbDeployment, cfg: Config)
    ensures var d := Regenerate(previous, sd, cfg); Regenerate(d, sd, cfg) == d
  {
    MergeAgain(previous.labels, sd.labels, SelectorOf(previous.selector, sd), JAEGER_INJECTED_KEY);
  }

  /** The health check is changed through a shared pointer, so a run that reuses the in-memory
      SQBDeployment of an earlier run (instead of fetching it again) gives the same Deployment
      only when the configured delay already was 10 seconds. */
  lemma ReusedObjectDiffersIff(previous: Deployment, sd: SqbDeployment, cfg: Config)
    requires sd.healthCheck.Some?
    ensures var reused := sd.(healthCheck := Some(sd.healthCheck.value.(initialDelay := 10)));
            var d := Regenerate(previous, sd, cfg);
            Regenerate(d, reused, cfg) == d <==> sd.healthCheck.value.initialDelay == 10
  {
    var reused := sd.(healthCheck := Some(sd.healthCheck.value.(initialDelay := 10)));
    var d := Regenerate(previous, sd, cfg);
    RegenerateIdempotent(previous, sd, cfg);
    assert Regenerate(d, reused, cfg).template.spec.startup == Some(StartupOf(reused.healthCheck.value));
    if sd.healthCheck.value.initialDelay == 10 {
      assert reused == sd;
    }
  }

  // ----- the Service -----

  /** The selector of the Service after one reconcile of the application `app`. */
  function ServiceSelector(previous: StringMap, app: string): StringMap {
    map[APP_KEY := app] + previous - {PLANE_KEY}
  }

  function ServiceHistory(app: string, runs: nat): StringMap {
    if runs == 0 then map[] else ServiceSelector(ServiceHistory(app, runs - 1), app)
  }

  class ServiceObject {
    var selector: StringMap

    method SetSelector(app: string)
      modifies this
      ensures selector == ServiceSelector(old(selector), app)
    {
      selector := MergeStringMap(map[APP_KEY := app], selector);
      selector := selector - {PLANE_KEY};
    }
  }

  lemma {:induction false} ServiceSelectorStable(app: string, runs: nat)
    requires runs > 0
    ensures ServiceHistory(app, runs) == map[APP_KEY := app]
  {
    assert APP_KEY != PLANE_KEY;
    if runs > 1 {
      ServiceSelectorStable(app, runs - 1);
    }
  }

  /** After any numbers of reconciles, the operator's Service `app` selects a Deployment's pods
      exactly when the application of the SQBDeployment was `app` when the Deployment was created. */
  lemma ServiceSelectsIff(app: string, serviceRuns: nat, first: SqbDeployment, cfg: Config,
                          runs: seq<(SqbDeployment, Config)>)
    requires serviceRuns > 0
    ensures Satisfies(History(NO_DEPLOYMENT, [(first, cfg)] + runs).template.labels, ServiceHistory(app, serviceRuns))
            <==> first.app == app
  {
    SelectorImmutable(first, cfg, runs);
    ServiceSelectorStable(app, serviceRuns);
    var labels := History(NO_DEPLOYMENT, [(first, cfg)] + runs).template.labels;
    assert APP_KEY in map[APP_KEY := first.app] && APP_KEY in map[APP_KEY := app];
    assert HasLabel(labels, APP_KEY, first.app);
  }
}
