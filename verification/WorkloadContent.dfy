/** What is in a generated Deployment, said of the SQBDeployment, the settings and the Deployment stored
    before: volumes and mounts, containers and probes, labels and annotations. */
module WorkloadContent {
  import opened Common
  import opened Objects
  import opened Workload

  // ----- volume names -----

  function DecimalValue(s: string): int {
    if s == "" then 0 else 10 * DecimalValue(s[..|s| - 1]) + (s[|s| - 1] as int - '0' as int)
  }

  /** Volumes are numbered in decimal, without leading zeros. */
  lemma {:induction false} DigitsDecimal(n: nat)
    ensures Digits(n) != "" && DecimalValue(Digits(n)) == n
    ensures forall i | 0 <= i < |Digits(n)| :: '0' <= Digits(n)[i] <= '9'
    ensures n > 0 ==> Digits(n)[0] != '0'
    decreases n
  {
    var k := |Digits(n)| - 1;
    if n < 10 {
      assert Digits(n)[..k] == "";
    } else {
      DigitsDecimal(n / 10);
      assert Digits(n)[..k] == Digits(n / 10);
    }
  }

  // ----- volumes -----

  /** The volume spec gives this source: the first it names, in this order. */
  predicate Gives(v: VolumeSpec, source: VolumeSource) {
    match source
    case EmptyDir => v.emptyDir
    case HostPath(path) => !v.emptyDir && v.hostPath == path && path != ""
    case ConfigMap(name) => !v.emptyDir && v.hostPath == "" && v.configMap == name && name != ""
    case Secret(name) => !v.emptyDir && v.hostPath == "" && v.configMap == "" && v.secret == name && name != ""
    case Claim(name) =>
      !v.emptyDir && v.hostPath == "" && v.configMap == "" && v.secret == "" && v.claimName == name && name != ""
    case DownwardAPI(items) =>
      && !v.emptyDir && v.hostPath == "" && v.configMap == "" && v.secret == "" && v.claimName == ""
      && v.downwardAPI == Some(items)
  }

  lemma SourceIff(v: VolumeSpec)
    ensures forall source :: SourceOf(v) == Some(source) <==> Gives(v, source)
    ensures SourceOf(v).Some? <==>
              || v.emptyDir || v.hostPath != "" || v.configMap != "" || v.secret != "" || v.claimName != ""
              || v.downwardAPI.Some?
  {
  }

  /** The volumes of the pod: those of the specs that give a source, named after their position. */
  lemma GeneratedVolumes(previous: Deployment, sd: SqbDeployment, cfg: Config)
    ensures var volumes := Regenerate(previous, sd, cfg).template.spec.volumes;
            && (forall i, source | 0 <= i < |sd.volumes| ::
                  Volume("volume-" + Digits(i), source) in volumes <==> Gives(sd.volumes[i], source))
            && (forall v | v in volumes ::
                  exists i | 0 <= i < |sd.volumes| :: v.name == "volume-" + Digits(i) && Gives(sd.volumes[i], v.source))
  {
    var volumes := Regenerate(previous, sd, cfg).template.spec.volumes;
    VolumesFromContent(sd.volumes, 0);
    forall i, source | 0 <= i < |sd.volumes|
      ensures Volume("volume-" + Digits(i), source) in volumes <==> Gives(sd.volumes[i], source)
    {
      SourceIff(sd.volumes[i]);
      if Volume(VolumeName(i), source) in volumes {
        var j :| 0 <= j < |sd.volumes| && SourceOf(sd.volumes[j]).Some?
                 && Volume(VolumeName(i), source) == Volume(VolumeName(j), SourceOf(sd.volumes[j]).value);
        VolumeNameInjective(i, j);
      }
    }
    forall v | v in volumes
      ensures exists i | 0 <= i < |sd.volumes| :: v.name == "volume-" + Digits(i) && Gives(sd.volumes[i], v.source)
    {
      var j :| 0 <= j < |sd.volumes| && SourceOf(sd.volumes[j]).Some?
               && v == Volume(VolumeName(j), SourceOf(sd.volumes[j]).value);
      SourceIff(sd.volumes[j]);
      assert v.name == "volume-" + Digits(j);
    }
  }

  // ----- mounts -----

  /** The positions from `i` on of the volumes that the container mounts. */
  function KeptFrom(vs: seq<VolumeSpec>, i: nat): (kept: seq<nat>)
    requires i <= |vs|
    ensures forall k | 0 <= k < |kept| :: i <= kept[k] < |vs| && vs[kept[k]].mountPath != "/etc/podinfo"
    ensures forall k, l | 0 <= k < l < |kept| :: kept[k] < kept[l]
    ensures forall j | i <= j < |vs| && vs[j].mountPath != "/etc/podinfo" :: j in kept
    decreases |vs| - i
  {
    if i == |vs| then []
    else if vs[i].mountPath != "/etc/podinfo" then
      var rest := KeptFrom(vs, i + 1);
      assert forall j | i < j < |vs| && vs[j].mountPath != "/etc/podinfo" :: j in rest;
      [i] + rest
    else KeptFrom(vs, i + 1)
  }

  lemma {:induction false} KeptMounts(vs: seq<VolumeSpec>, i: nat)
    requires i <= |vs|
    ensures var kept, mounts := KeptFrom(vs, i), WithoutPodinfo(MountsOf(vs)[i..]);
            |mounts| == |kept|
            && forall k | 0 <= k < |kept| :: mounts[k] == Mount(VolumeName(kept[k]), vs[kept[k]].mountPath)
    decreases |vs| - i
  {
    if i < |vs| {
      KeptMounts(vs, i + 1);
      assert MountsOf(vs)[i..][1..] == MountsOf(vs)[i + 1..];
    }
  }

  /** The container mounts exactly the volumes that are not for "/etc/podinfo", in their order, each at its path
      under its volume's name; and the pod has a volume of that name exactly when the spec gives a source. */
  lemma GeneratedMounts(previous: Deployment, sd: SqbDeployment, cfg: Config) returns (kept: seq<nat>)
    ensures forall k, l | 0 <= k < l < |kept| :: kept[k] < kept[l]
    ensures forall k | 0 <= k < |kept| :: kept[k] < |sd.volumes| && sd.volumes[kept[k]].mountPath != "/etc/podinfo"
    ensures forall i | 0 <= i < |sd.volumes| && sd.volumes[i].mountPath != "/etc/podinfo" :: i in kept
    ensures var pod := Regenerate(previous, sd, cfg).template.spec;
            && |pod.mounts| == |kept|
            && (forall k | 0 <= k < |kept| ::
                  pod.mounts[k] == Mount("volume-" + Digits(kept[k]), sd.volumes[kept[k]].mountPath))
            && (forall k | 0 <= k < |kept| ::
                  (exists v | v in pod.volumes :: v.name == pod.mounts[k].name)
                  <==> exists source :: Gives(sd.volumes[kept[k]], source))
  {
    kept := KeptFrom(sd.volumes, 0);
    KeptMounts(sd.volumes, 0);
    var pod := Regenerate(previous, sd, cfg).template.spec;
    assert MountsOf(sd.volumes)[0..] == MountsOf(sd.volumes);
    forall k | 0 <= k < |kept|
      ensures (exists v | v in pod.volumes :: v.name == pod.mounts[k].name)
              <==> exists source :: Gives(sd.volumes[kept[k]], source)
    {
      MountHasVolumeIff(sd.volumes, kept[k]);
      SourceIff(sd.volumes[kept[k]]);
    }
  }

  // ----- the rest of the pod -----

  /** The init container, there when one is configured or asked for, mounts every volume. */
  lemma GeneratedInitContainer(previous: Deployment, sd: SqbDeployment, cfg: Config)
    ensures var init := Regenerate(previous, sd, cfg).template.spec.initContainer;
            if sd.initCommand.None? && cfg.initImage == "" then init == previous.template.spec.initContainer
            else
              && init.Some?
              && (if cfg.initImage != "" then init.value.image == cfg.initImage else init.value.image == "busybox:1.32")
              && (if sd.initCommand.Some? then Some(init.value.command) == sd.initCommand else init.value.command == [])
              && |init.value.mounts| == |sd.volumes|
              && forall i | 0 <= i < |sd.volumes| ::
                   init.value.mounts[i] == Mount("volume-" + Digits(i), sd.volumes[i].mountPath)
  {
  }

  /** Without a health check there are no probes. With one, liveness and readiness use it after 10 seconds,
      and the startup probe, which waits as long as configured, gives up after the same time again, but not
      before three minutes, rounded down to ten seconds. */
  lemma GeneratedProbes(previous: Deployment, sd: SqbDeployment, cfg: Config)
    ensures var pod := Regenerate(previous, sd, cfg).template.spec;
            if sd.healthCheck.None? then pod.liveness.None? && pod.readiness.None? && pod.startup.None?
            else
              var check := sd.healthCheck.value;
              && pod.liveness == pod.readiness == Some(Probe(10, check.timeout, check.action))
              && pod.startup.Some?
              && var startup := pod.startup.value;
                 && startup.initialDelay == check.initialDelay
                 && startup.timeout == check.timeout && startup.action == check.action
                 && startup.period == 10 && startup.success == 1
                 && 180 <= startup.failure * startup.period
                 && check.initialDelay < (startup.failure + 1) * startup.period
                 && startup.failure * startup.period in {180, check.initialDelay - check.initialDelay % 10}
  {
  }

  /** What is copied: the container's fields, the node affinity, and the service account of the group. What is
      set once: the anti-affinity to the pods of the application. */
  lemma GeneratedPod(previous: Deployment, sd: SqbDeployment, cfg: Config)
    ensures var d := Regenerate(previous, sd, cfg);
            var pod, group := d.template.spec, if GROUP_KEY in sd.labels then sd.labels[GROUP_KEY] else "";
            && pod.container == sd.container && pod.nodeAffinity == sd.nodeAffinity
            && pod.serviceAccount == (if group != "" then "sqb-" + group + "-vault-sa" else "default")
            && (previous.template.spec.antiAffinityApp.Some? ==>
                  pod.antiAffinityApp == previous.template.spec.antiAffinityApp)
            && (previous.template.spec.antiAffinityApp.None? && APP_KEY in d.template.labels ==>
                  pod.antiAffinityApp == Some(d.template.labels[APP_KEY]))
  {
  }

  // ----- around the pod -----

  /** Labels, key by key: those of the SQBDeployment go on top of the stored ones and, in the pod, the selector
      on top of them; the label of the tracer is stripped. */
  lemma GeneratedLabels(previous: Deployment, sd: SqbDeployment, cfg: Config, k: string, v: string)
    ensures var d := Regenerate(previous, sd, cfg);
            && (HasLabel(d.labels, k, v) <==>
                  && k != JAEGER_INJECTED_KEY
                  && (if k in sd.labels then sd.labels[k] == v else HasLabel(previous.labels, k, v)))
            && d.selector.Some?
            && (HasLabel(d.template.labels, k, v) <==>
                  && k != JAEGER_INJECTED_KEY
                  && if k in d.selector.value then d.selector.value[k] == v
                     else if k in sd.labels then sd.labels[k] == v else HasLabel(previous.labels, k, v))
  {
  }

  /** Annotations, key by key: they come from the passed-through objects; the tracer's is stripped from the
      Deployment, and the pod says whether istio is to be injected. */
  lemma GeneratedAnnotations(previous: Deployment, sd: SqbDeployment, cfg: Config, k: string, v: string)
    ensures var d := Regenerate(previous, sd, cfg);
            && (HasLabel(d.annotations, k, v) <==>
                  && k != JAEGER_INJECT_KEY && DEPLOYMENT_ANNOTATION_KEY in sd.annotations
                  && HasLabel(cfg.decode(sd.annotations[DEPLOYMENT_ANNOTATION_KEY]), k, v))
            && (HasLabel(d.template.annotations, k, v) <==>
                  if k == SIDECAR_INJECT_KEY then
                    v == if ISTIO_INJECT_KEY in sd.annotations then sd.annotations[ISTIO_INJECT_KEY] else ""
                  else POD_ANNOTATION_KEY in sd.annotations
                       && HasLabel(cfg.decode(sd.annotations[POD_ANNOTATION_KEY]), k, v))
  {
    DeploymentAnnotationsAre(sd, cfg, k, v);
    PodAnnotationsAre(sd, cfg, k, v);
  }

  lemma DeploymentAnnotationsAre(sd: SqbDeployment, cfg: Config, k: string, v: string)
    ensures HasLabel(AnnotationsOf(sd, cfg), k, v) <==>
              && k != JAEGER_INJECT_KEY && DEPLOYMENT_ANNOTATION_KEY in sd.annotations
              && HasLabel(cfg.decode(sd.annotations[DEPLOYMENT_ANNOTATION_KEY]), k, v)
  {
  }

  lemma PodAnnotationsAre(sd: SqbDeployment, cfg: Config, k: string, v: string)
    ensures HasLabel(PodAnnotationsOf(sd, cfg), k, v) <==>
              if k == SIDECAR_INJECT_KEY then
                v == if ISTIO_INJECT_KEY in sd.annotations then sd.annotations[ISTIO_INJECT_KEY] else ""
              else POD_ANNOTATION_KEY in sd.annotations && HasLabel(cfg.decode(sd.annotations[POD_ANNOTATION_KEY]), k, v)
  {
  }

  /** A rolling update never takes a quarter of the pods away; other choices are left alone. The Deployment
      has as many replicas as asked for, carries the finalizer, and is no more deleting than before. */
  lemma GeneratedRollout(previous: Deployment, sd: SqbDeployment, cfg: Config)
    ensures var d := Regenerate(previous, sd, cfg);
            && d.replicas == sd.replicas && d.finalizer && d.deleting == previous.deleting
            && d.strategy == previous.strategy
            && (d.strategy == "RollingUpdate"
                && (previous.maxUnavailable.None? || previous.maxUnavailable == Some("25%")) ==>
                  d.maxUnavailable == Some("0"))
            && (d.strategy != "RollingUpdate"
                || (previous.maxUnavailable.Some? && previous.maxUnavailable != Some("25%")) ==>
                  d.maxUnavailable == previous.maxUnavailable)
            && d.selector == if previous.selector.Some? then previous.selector else Some(map[APP_KEY := sd.app])
  {
  }

  // ----- the Service -----

  /** The selector of the Service keeps what it had, but for the plane, and asks at least for an application,
      its own unless it already asked for one. */
  lemma ServiceSelectorIs(previous: StringMap, app: string)
    ensures forall k, v ::
              HasLabel(ServiceSelector(previous, app), k, v) <==>
                && k != PLANE_KEY
                && (HasLabel(previous, k, v) || (k == APP_KEY && v == app && APP_KEY !in previous))
  {
  }
}
