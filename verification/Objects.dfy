/** The stored objects of one namespace. Every Get, List, Create, Update and Delete of the
    handlers uses the namespace of the object being reconciled, so one namespace is enough and
    objects are keyed by name. */
module Objects {
  import opened Common
  import opened Names
  import opened Routing

  datatype Domain = Domain(cls: string, annotation: StringMap, host: string)

  /** `planes` and `mirrors` are the aggregated status. */
  datatype Application = Application(labels: StringMap, annotations: StringMap, domains: seq<Domain>,
                                     subpaths: seq<Subpath>, targetPorts: seq<int>,
                                     planes: map<string, int>, mirrors: map<string, int>, deleting: bool)

  datatype Plane = Plane(annotations: StringMap, mirrors: map<string, int>, deleting: bool)

  datatype Probe = Probe(initialDelay: int, timeout: int, action: string)

  datatype VolumeSpec = VolumeSpec(mountPath: string, hostPath: string, configMap: string, secret: string,
                                   emptyDir: bool, claim: bool, claimName: string,
                                   downwardAPI: Option<seq<(string, string)>>)

  /** `app` and `plane` are the selector; `container` stands for the fields that are copied into
      the container unchanged. */
  datatype SqbDeployment = SqbDeployment(labels: StringMap, annotations: StringMap, created: string,
                                         app: string, plane: string,
                                         replicas: Option<int>, container: string, healthCheck: Option<Probe>,
                                         volumes: seq<VolumeSpec>, nodeAffinity: Option<string>,
                                         initCommand: Option<seq<string>>)

  datatype VolumeSource =
    | EmptyDir
    | HostPath(path: string)
    | ConfigMap(name: string)
    | Secret(name: string)
    | Claim(name: string)
    | DownwardAPI(items: seq<(string, string)>)

  datatype Volume = Volume(name: string, source: VolumeSource)

  datatype Mount = Mount(name: string, path: string)

  datatype StartupProbe = StartupProbe(initialDelay: int, period: int, success: int, failure: int,
                                       timeout: int, action: string)

  datatype InitContainer = InitContainer(image: string, command: seq<string>, mounts: seq<Mount>)

  datatype PodSpec = PodSpec(volumes: seq<Volume>, mounts: seq<Mount>, container: string,
                             liveness: Option<Probe>, readiness: Option<Probe>, startup: Option<StartupProbe>,
                             initContainer: Option<InitContainer>, serviceAccount: string,
                             nodeAffinity: Option<string>, antiAffinityApp: Option<string>)

  datatype Template = Template(labels: StringMap, annotations: StringMap, spec: PodSpec)

  /** `strategy` is the update strategy's type and, when given, the largest number of unavailable pods. */
  datatype Deployment = Deployment(labels: StringMap, annotations: StringMap, replicas: Option<int>,
                                   selector: Option<StringMap>, template: Template,
                                   strategy: string, maxUnavailable: Option<string>,
                                   finalizer: bool, deleting: bool)

  datatype IngressPath = IngressPath(path: string, service: string, port: int)

  datatype IngressRule = IngressRule(host: string, paths: seq<IngressPath>)

  datatype Ingress = Ingress(labels: StringMap, annotations: StringMap, rules: seq<IngressRule>)

  /** The operator settings the handlers read, with the functions whose definition lies outside the
      repository: the checksum of a name, the hash in claim names and the decoding of a JSON object of
      strings. */
  datatype Config = Config(namespace: string, ingressOpen: bool, istioInject: bool, istioEnable: bool,
                           istioGateway: bool, pvcEnable: bool, domainPostfix: StringMap, specialIngress: string,
                           initImage: string, checksum: string -> string, claimHash: string -> string,
                           decode: string -> StringMap)

  // ----- lookups shared by the handlers -----

  /** `GetDomainNameByClass`: the host of `prefix` for an ingress class, empty for an unknown class. */
  function DomainName(cfg: Config, prefix: string, cls: string): string {
    if cls in cfg.domainPostfix then ReplaceStar(cfg.domainPostfix[cls], prefix) else ""
  }

  predicate IstioInject(app: Application, cfg: Config) {
    cfg.istioEnable
    && if ISTIO_INJECT_KEY in app.annotations then app.annotations[ISTIO_INJECT_KEY] == "true" else cfg.istioInject
  }

  /** The annotation value that stands for the application's effective istio setting. */
  function InjectValue(app: Application, cfg: Config): string {
    if IstioInject(app, cfg) then "true" else "false"
  }

  predicate IngressOpen(app: Application, cfg: Config) {
    if INGRESS_OPEN_KEY in app.annotations then app.annotations[INGRESS_OPEN_KEY] == "true" else cfg.ingressOpen
  }

  predicate Initialized(sd: SqbDeployment) {
    Lookup(sd.annotations, INITIALIZE_KEY) == "true"
  }

  predicate PublicEntry(sd: SqbDeployment) {
    Lookup(sd.annotations, PUBLIC_ENTRY_KEY) == "true"
  }

  function SpecialIngress(sd: SqbDeployment, cfg: Config): string {
    if SPECIAL_INGRESS_KEY in sd.annotations then sd.annotations[SPECIAL_INGRESS_KEY] else cfg.specialIngress
  }

  datatype DeleteMark = Unmarked | Confirmed | Wrong

  /** `IsDeleted`: the delete annotation is absent, carries the checksum of the name, or is wrong. */
  function MarkOf(name: string, annotations: StringMap, cfg: Config): DeleteMark {
    if EXPLICIT_DELETE_KEY !in annotations then Unmarked
    else if annotations[EXPLICIT_DELETE_KEY] == cfg.checksum(name) then Confirmed
    else Wrong
  }

  /** The object carries the checksum of its own name. */
  predicate RightChecksum(name: string, annotations: StringMap, cfg: Config) {
    HasLabel(annotations, EXPLICIT_DELETE_KEY, cfg.checksum(name))
  }

  /** It carries something else. */
  predicate WrongChecksum(name: string, annotations: StringMap, cfg: Config) {
    EXPLICIT_DELETE_KEY in annotations && annotations[EXPLICIT_DELETE_KEY] != cfg.checksum(name)
  }

  /** Only the checksum of its own name confirms the deletion of an object; anything else is an error. */
  lemma MarkOfIff(name: string, annotations: StringMap, cfg: Config)
    ensures MarkOf(name, annotations, cfg) == Confirmed <==> RightChecksum(name, annotations, cfg)
    ensures MarkOf(name, annotations, cfg) == Wrong <==> WrongChecksum(name, annotations, cfg)
  {
  }

  /** Whether an application runs under istio: as it asks for, by default as configured, and never without
      istio in the cluster. */
  predicate UnderIstio(app: Application, cfg: Config) {
    && cfg.istioEnable
    && (HasLabel(app.annotations, ISTIO_INJECT_KEY, "true")
        || (ISTIO_INJECT_KEY !in app.annotations && cfg.istioInject))
  }

  /** Whether it may have ingresses: as it asks for, by default as configured. */
  predicate MayServe(app: Application, cfg: Config) {
    || HasLabel(app.annotations, INGRESS_OPEN_KEY, "true")
    || (INGRESS_OPEN_KEY !in app.annotations && cfg.ingressOpen)
  }

  lemma EffectiveSettings(app: Application, cfg: Config)
    ensures IstioInject(app, cfg) <==> UnderIstio(app, cfg)
    ensures InjectValue(app, cfg) == if UnderIstio(app, cfg) then "true" else "false"
    ensures IngressOpen(app, cfg) <==> MayServe(app, cfg)
  {
  }
}
