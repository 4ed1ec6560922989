/** The propagation of the istio setting from application to SQBDeployment to pod template, with the
    application controller, the SQBDeployment controller and the Deployment controller running
    concurrently. Each request to the API server is a step of its own, so users and the other
    controllers can act between a read and the write that depends on it. The Deployments, the
    applications and the Deployment controller are those of the status protocol: its status writes
    are changes of the application, and every change of an application is an event for the
    application controller. */
module IstioProtocol {
  import opened Common
  import opened Objects
  import opened Workload
  import opened Istio
  import Status
  import Aggregation = StatusProtocol

  /** `Reading` has read the application's effective setting; `FanningOut` has listed the
      SQBDeployments and holds, as listed, those it still has to update. */
  datatype ApplicationWorker =
    | NoApplication
    | Reading(app: string, value: string)
    | FanningOut(app: string, value: string, todo: SqbMap)

  /** `Fetched` has read the SQBDeployment; `Deciding` has also read the application in order to
      initialise it; `Deploying` is about to write the Deployment. */
  datatype SqbWorker =
    | NoSqb
    | Fetched(name: string, seen: SqbDeployment)
    | Deciding(name: string, seen: SqbDeployment, value: string)
    | Deploying(name: string, seen: SqbDeployment)

  /** `labels` gives the app and version labels that go with a name; they never change. */
  datatype World = World(labels: string -> StringMap, core: Status.World, sds: SqbMap,
                         appQueue: set<string>, sdQueue: set<string>,
                         appWorker: ApplicationWorker, sdWorker: SqbWorker)
  {
    function Apps(): map<string, Application> {
      core.c.apps
    }

    function Deps(): map<string, Deployment> {
      core.c.deps
    }
  }

  /** `Core` is a step of the status protocol: of users on Deployments, applications and planes, and
      of the Deployment controller. */
  datatype Step =
    | Core(step: Aggregation.Step)
    | CreateSqb(name: string, sd: SqbDeployment)
    | EditSqb(name: string, sd: SqbDeployment, event: bool)
    | RemoveSqb(name: string)
    | StartApplication(app: string)
    | ListSqbs
    | UpdateSqb(name: string)
    | FinishApplication
    | FailApplication
    | StartSqb(name: string)
    | Decide
    | Initialise
    | Deploy
    | FailSqb

  predicate SameTags(a: StringMap, b: StringMap) {
    && (APP_KEY in a <==> APP_KEY in b) && Lookup(a, APP_KEY) == Lookup(b, APP_KEY)
    && (PLANE_KEY in a <==> PLANE_KEY in b) && Lookup(a, PLANE_KEY) == Lookup(b, PLANE_KEY)
  }

  /** The labels of an SQBDeployment are those of its name, and agree with its selector. */
  predicate Tagged(w: World, s: string, sd: SqbDeployment) {
    SameTags(w.labels(s), sd.labels) && HasLabel(sd.labels, APP_KEY, sd.app)
  }

  /** Users never touch the two annotations of the protocol on an SQBDeployment, nor the inject
      annotation of a pod template, and make no Deployment under the name of an SQBDeployment. Errors are
      retried, and no Deployment vanishes without the finalizer. */
  predicate CoreAllowed(w: World, step: Aggregation.Step) {
    match step
    case CreateDeployment(d, obj) => d !in w.sds && SameTags(w.labels(d), obj.labels)
    case EditDeployment(d, obj) => d in w.Deps() && PodInject(obj) == PodInject(w.Deps()[d])
    case Drop => false
    case Vanish(_) => false
    case _ => true
  }

  predicate Enabled(w: World, step: Step) {
    match step
    case Core(c) => Aggregation.Enabled(w.core, c) && CoreAllowed(w, c)
    case CreateSqb(s, sd) =>
      s !in w.sds && Tagged(w, s, sd) && INITIALIZE_KEY !in sd.annotations && ISTIO_INJECT_KEY !in sd.annotations
    case EditSqb(s, sd, event) =>
      && s in w.sds && Tagged(w, s, sd) && sd.app == w.sds[s].app
      && (Initialized(sd) <==> Initialized(w.sds[s])) && InjectOf(sd) == InjectOf(w.sds[s])
    case RemoveSqb(s) => true
    case StartApplication(a) => a in w.appQueue && w.appWorker.NoApplication?
    case ListSqbs => w.appWorker.Reading?
    case UpdateSqb(s) =>
      w.appWorker.FanningOut? && s in w.appWorker.todo && s in w.sds && w.sds[s] == w.appWorker.todo[s]
    case FinishApplication => w.appWorker.FanningOut? && w.appWorker.todo == map[]
    case FailApplication => !w.appWorker.NoApplication?
    case StartSqb(s) => s in w.sdQueue && w.sdWorker.NoSqb?
    case Decide => w.sdWorker.Fetched? && (Initialized(w.sdWorker.seen) || w.sdWorker.seen.app in w.Apps())
    case Initialise => w.sdWorker.Deciding? && w.sdWorker.name in w.sds && w.sds[w.sdWorker.name] == w.sdWorker.seen
    case Deploy => w.sdWorker.Deploying? && w.sdWorker.seen.app in w.Apps()
    case FailSqb => !w.sdWorker.NoSqb?
  }

  /** The applications that are new or changed; the application controller watches them all, and
      status writes are changes too. */
  function Touched(before: map<string, Application>, after: map<string, Application>): set<string> {
    set a | a in after && (a !in before || before[a] != after[a])
  }

  function WithCore(w: World, core: Status.World): World {
    w.(core := core, appQueue := w.appQueue + Touched(w.Apps(), core.c.apps))
  }

  function Generated(w: World, cfg: Config): Deployment
    requires w.sdWorker.Deploying?
  {
    var s := w.sdWorker.name;
    Regenerate(if s in w.Deps() then w.Deps()[s] else NO_DEPLOYMENT, w.sdWorker.seen, cfg)
  }

  /** The write of a Deployment, as a step of the status protocol. */
  function PutStep(c: Status.World, s: string, d: Deployment): Aggregation.Step {
    if s in c.c.deps then Aggregation.EditDeployment(s, d) else Aggregation.CreateDeployment(s, d)
  }

  /** The creation of a Deployment is an event for the Deployment controller, an update is not. */
  function Put(c: Status.World, s: string, d: Deployment): Status.World {
    Status.World(c.c.(deps := c.c.deps[s := d]), if s in c.c.deps then c.queue else c.queue + {s}, c.worker)
  }

  function Next(w: World, step: Step, cfg: Config): World
    requires Enabled(w, step)
  {
    match step
    case Core(c) => WithCore(w, Aggregation.Next(w.core, c))
    case CreateSqb(s, sd) => w.(sds := w.sds[s := sd], sdQueue := w.sdQueue + {s})
    case EditSqb(s, sd, event) =>
      w.(sds := w.sds[s := sd], sdQueue := if event then w.sdQueue + {s} else w.sdQueue)
    case RemoveSqb(s) => w.(sds := w.sds - {s})
    case StartApplication(a) =>
      w.(appQueue := w.appQueue - {a},
         appWorker := if a in w.Apps() then Reading(a, InjectValue(w.Apps()[a], cfg)) else NoApplication)
    case ListSqbs =>
      var a, value := w.appWorker.app, w.appWorker.value;
      w.(appWorker := FanningOut(a, value, map s | s in Stale(w.sds, a, value) :: w.sds[s]))
    case UpdateSqb(s) =>
      w.(sds := w.sds[s := WithInject(w.sds[s], w.appWorker.value)], sdQueue := w.sdQueue + {s},
         appWorker := w.appWorker.(todo := w.appWorker.todo - {s}))
    case FinishApplication => w.(appWorker := NoApplication)
    case FailApplication => w.(appQueue := w.appQueue + {w.appWorker.app}, appWorker := NoApplication)
    case StartSqb(s) =>
      w.(sdQueue := w.sdQueue - {s}, sdWorker := if s in w.sds then Fetched(s, w.sds[s]) else NoSqb)
    case Decide =>
      var s, seen := w.sdWorker.name, w.sdWorker.seen;
      w.(sdWorker := if Initialized(seen) then Deploying(s, seen)
                     else Deciding(s, seen, InjectValue(w.Apps()[seen.app], cfg)))
    case Initialise =>
      var s, after := w.sdWorker.name, WithInit(w.sdWorker.seen, w.sdWorker.value);
      w.(sds := w.sds[s := after], sdQueue := w.sdQueue + {s}, sdWorker := Deploying(s, after))
    case Deploy => w.(core := Put(w.core, w.sdWorker.name, Generated(w, cfg)), sdWorker := NoSqb)
    case FailSqb => w.(sdQueue := w.sdQueue + {w.sdWorker.name}, sdWorker := NoSqb)
  }

  // ----- the invariant -----

  /** The application controller has a change of the application before it, or is reading one. */
  predicate Heard(w: World, app: string, current: string) {
    app in w.appQueue || w.appWorker == Reading(app, current)
  }

  /** The application controller is about to update the SQBDeployment as it was when listed. */
  predicate Updating(w: World, s: string, app: string, current: string) {
    w.appWorker.FanningOut? && w.appWorker.app == app && w.appWorker.value == current && s in w.appWorker.todo
  }

  predicate WorkingOn(w: World, s: string) {
    !w.sdWorker.NoSqb? && w.sdWorker.name == s
  }

  /** The Deployment of the SQBDeployment will be written. */
  predicate Coming(w: World, s: string) {
    s in w.sdQueue || WorkingOn(w, s)
  }

  /** The stored Deployment is not being deleted. */
  predicate Stands(deps: map<string, Deployment>, s: string) {
    s in deps && !deps[s].deleting
  }

  /** The live application's status does not list Deployment `s`. */
  predicate NotListed(c: Status.Cluster, s: string, app: string) {
    var status := Status.StatusOf(c, Status.ApplicationSide, app);
    status.Some? && s !in status.value.mirrors
  }

  /** Deployment `s` stands, is not listed yet, and the Deployment controller is going to list it. */
  ghost predicate ToBeListed(c: Status.World, s: string, app: string) {
    NotListed(c.c, s, app) && Stands(c.c.deps, s) && Aggregation.Fresh(c, Status.ApplicationSide, app)
  }

  /** The Deployment will be listed, or will be created and then listed: the write that adds it to the
      status is an event of the application. */
  ghost predicate Unlisted(w: World, s: string, app: string) {
    || ToBeListed(w.core, s, app)
    || (s !in w.Deps() && NotListed(w.core.c, s, app) && Coming(w, s))
  }

  /** An initialised SQBDeployment has another setting than its application. */
  predicate Differs(w: World, s: string, cfg: Config) {
    && s in w.sds && Initialized(w.sds[s]) && w.sds[s].app in w.Apps()
    && InjectOf(w.sds[s]) != InjectValue(w.Apps()[w.sds[s].app], cfg)
  }

  /** It does, and the application controller is not about to change that. */
  predicate Adrift(w: World, s: string, cfg: Config) {
    && Differs(w, s, cfg)
    && var app := w.sds[s].app;
       var current := InjectValue(w.Apps()[app], cfg);
       !Heard(w, app, current) && !Updating(w, s, app, current)
  }

  /** Application and SQBDeployment agree, or the difference is due to be repaired. */
  ghost predicate Agrees(w: World, s: string, cfg: Config)
    requires s in w.sds
  {
    Adrift(w, s, cfg) ==> Unlisted(w, s, w.sds[s].app)
  }

  /** The SQBDeployment is initialised, or that is pending or being done. */
  predicate InitialisationPending(w: World, s: string)
    requires s in w.sds
  {
    Initialized(w.sds[s]) || s in w.sdQueue || (WorkingOn(w, s) && !w.sdWorker.Deploying?)
  }

  /** SQBDeployment and pod template agree, or an event is pending or being worked on. */
  predicate PodAgrees(w: World, s: string)
    requires s in w.sds
  {
    (s in w.Deps() ==> PodInject(w.Deps()[s]) == InjectOf(w.sds[s])) || Coming(w, s)
  }

  /** What a worker has read is current, or an event tells of the change. */
  predicate ReadsCurrent(w: World, cfg: Config) {
    && (!w.appWorker.NoApplication? && w.appWorker.app in w.Apps() ==>
          w.appWorker.value == InjectValue(w.Apps()[w.appWorker.app], cfg) || w.appWorker.app in w.appQueue)
    && (w.appWorker.FanningOut? ==>
          forall t | t in w.appWorker.todo :: HasLabel(w.appWorker.todo[t].labels, APP_KEY, w.appWorker.app))
    && (!w.sdWorker.NoSqb? ==> Tagged(w, w.sdWorker.name, w.sdWorker.seen))
    && (!w.sdWorker.NoSqb? && w.sdWorker.name in w.sds ==>
          || w.sdWorker.name in w.sdQueue
          || (InjectOf(w.sdWorker.seen) == InjectOf(w.sds[w.sdWorker.name])
              && Initialized(w.sdWorker.seen) == Initialized(w.sds[w.sdWorker.name])))
    && (w.sdWorker.Deciding? ==> !Initialized(w.sdWorker.seen))
    && (w.sdWorker.Deploying? ==> Initialized(w.sdWorker.seen))
  }

  predicate DeploymentsTagged(w: World) {
    AllTagged(w.labels, w.Deps())
  }

  predicate AllTagged(labels: string -> StringMap, deps: map<string, Deployment>) {
    forall d | d in deps :: SameTags(labels(d), deps[d].labels)
  }

  predicate SqbsTagged(w: World) {
    forall s | s in w.sds :: Tagged(w, s, w.sds[s])
  }

  /** Every mirror is a stored Deployment, and so is the one being worked on. */
  ghost predicate CoreSafe(c: Status.World) {
    && Aggregation.WorkerOk(c)
    && (forall name | name != "" :: Aggregation.Safe(c, Status.ApplicationSide, name, {}))
    && (c.worker.Busy? ==> c.worker.name in c.c.deps)
  }

  /** What holds whatever happens to the settings. */
  ghost predicate Sound(w: World, cfg: Config) {
    CoreSafe(w.core) && DeploymentsTagged(w) && SqbsTagged(w) && ReadsCurrent(w, cfg)
  }

  ghost predicate InvAt(w: World, s: string, cfg: Config)
    requires s in w.sds
  {
    Agrees(w, s, cfg) && InitialisationPending(w, s) && PodAgrees(w, s)
  }

  ghost predicate Inv(w: World, cfg: Config) {
    Sound(w, cfg) && forall s | s in w.sds :: InvAt(w, s, cfg)
  }

  // ----- the steps on Deployments and applications -----

  predicate OnCore(step: Step) {
    step.Core? || step.Deploy?
  }

  /** The step of the status protocol that a step is. */
  function CoreStep(w: World, step: Step, cfg: Config): Aggregation.Step
    requires Enabled(w, step) && OnCore(step)
  {
    if step.Core? then step.step else PutStep(w.core, w.sdWorker.name, Generated(w, cfg))
  }

  lemma SameTagsSame(a: Deployment, b: Deployment)
    requires SameTags(a.labels, b.labels)
    ensures Aggregation.SameLabels(a, b)
  {
  }

  /** Generating keeps the labels of the name, the inject annotation and the deletion state. */
  lemma RegenerateTags(previous: Deployment, sd: SqbDeployment, labels: StringMap, cfg: Config)
    requires SameTags(labels, sd.labels)
    requires SameTags(labels, previous.labels) || previous == NO_DEPLOYMENT
    ensures var d := Regenerate(previous, sd, cfg);
            SameTags(labels, d.labels) && d.deleting == previous.deleting && PodInject(d) == InjectOf(sd)
  {
    RegenerateInject(previous, sd, cfg);
    assert APP_KEY != JAEGER_INJECTED_KEY && PLANE_KEY != JAEGER_INJECTED_KEY;
  }

  /** The generated Deployment has the labels of its name and the inject annotation of what was read. */
  lemma GeneratedTags(w: World, cfg: Config)
    requires DeploymentsTagged(w) && ReadsCurrent(w, cfg) && w.sdWorker.Deploying?
    ensures var s, d := w.sdWorker.name, Generated(w, cfg);
            && SameTags(w.labels(s), d.labels) && PodInject(d) == InjectOf(w.sdWorker.seen)
            && d.deleting == (s in w.Deps() && w.Deps()[s].deleting)
            && (s in w.Deps() ==> Aggregation.SameLabels(w.Deps()[s], d))
  {
    var s := w.sdWorker.name;
    var previous := if s in w.Deps() then w.Deps()[s] else NO_DEPLOYMENT;
    RegenerateTags(previous, w.sdWorker.seen, w.labels(s), cfg);
    if s in w.Deps() {
      SameTagsSame(previous, Generated(w, cfg));
    }
  }

  /** Writing a Deployment refines a step of the status protocol. */
  lemma PutRefines(c: Status.World, s: string, d: Deployment)
    requires s in c.c.deps ==> Aggregation.SameLabels(c.c.deps[s], d) && d.deleting == c.c.deps[s].deleting
    requires s !in c.c.deps ==> !d.deleting && !(c.worker.Busy? && c.worker.name == s)
    ensures Aggregation.Enabled(c, PutStep(c, s, d)) && Put(c, s, d) == Aggregation.Next(c, PutStep(c, s, d))
  {
  }

  lemma CoreKeepsTags(labels: string -> StringMap, c: Status.World, step: Aggregation.Step)
    requires AllTagged(labels, c.c.deps) && Aggregation.Enabled(c, step)
    requires step.CreateDeployment? ==> SameTags(labels(step.name), step.deployment.labels)
    ensures AllTagged(labels, Aggregation.Next(c, step).c.deps)
  {
    if step.EditDeployment? {
      SameLabelsTags(labels(step.name), c.c.deps[step.name], step.deployment);
    }
  }

  lemma CoreRefines(w: World, step: Step, cfg: Config)
    requires Sound(w, cfg) && Enabled(w, step) && OnCore(step)
    ensures var c := CoreStep(w, step, cfg);
            && Aggregation.Enabled(w.core, c) && !c.Drop? && !c.Vanish?
            && Next(w, step, cfg).core == Aggregation.Next(w.core, c)
            && (c.CreateDeployment? ==> SameTags(w.labels(c.name), c.deployment.labels))
    ensures DeploymentsTagged(Next(w, step, cfg))
  {
    if step.Deploy? {
      GeneratedTags(w, cfg);
      PutRefines(w.core, w.sdWorker.name, Generated(w, cfg));
    }
    CoreKeepsTags(w.labels, w.core, CoreStep(w, step, cfg));
  }

  lemma SameLabelsTags(labels: StringMap, a: Deployment, b: Deployment)
    requires SameTags(labels, a.labels) && Aggregation.SameLabels(a, b)
    ensures SameTags(labels, b.labels)
  {
    var app, plane: Status.Side := Status.ApplicationSide, Status.PlaneSide;
    assert Status.NameFor(a, app) == Status.NameFor(b, app) && Status.NameFor(a, plane) == Status.NameFor(b, plane);
    assert app.Key() in a.labels <==> app.Key() in b.labels;
    assert plane.Key() in a.labels <==> plane.Key() in b.labels;
  }

  lemma CoreSafeKept(c: Status.World, step: Aggregation.Step)
    requires CoreSafe(c) && Aggregation.Enabled(c, step) && !step.Vanish?
    ensures CoreSafe(Aggregation.Next(c, step))
  {
    var d := Aggregation.Next(c, step);
    Aggregation.WorkerOkKept(c, step);
    forall name | name != "" ensures Aggregation.Safe(d, Status.ApplicationSide, name, {}) {
      assert Aggregation.SafeAt(c, Status.ApplicationSide, name, {});
      Aggregation.StepKeepsSafe(c, step, Status.ApplicationSide, name, {});
      assert {} + Aggregation.Vanishing(step) == {};
    }
    WorkerStoredKept(c, step);
  }

  lemma WorkerStoredKept(c: Status.World, step: Aggregation.Step)
    requires Aggregation.Enabled(c, step) && !step.Vanish? && (c.worker.Busy? ==> c.worker.name in c.c.deps)
    ensures var d := Aggregation.Next(c, step); d.worker.Busy? ==> d.worker.name in d.c.deps
  {
  }

  lemma CoreStands(c: Status.World, step: Aggregation.Step, s: string)
    requires Aggregation.WorkerOk(c) && Aggregation.Enabled(c, step) && !step.Vanish?
    requires step != Aggregation.RequestDelete(s) && (s in c.c.deps ==> !c.c.deps[s].deleting)
    ensures var d := Aggregation.Next(c, step).c.deps; (s in c.c.deps ==> s in d) && (s in d ==> !d[s].deleting)
  {
  }

  /** A Deployment that stands and is to be listed remains so until the application changes or is gone. */
  lemma ToBeListedKept(c: Status.World, step: Aggregation.Step, s: string, app: string)
    requires CoreSafe(c) && Aggregation.Enabled(c, step) && !step.Drop? && !step.Vanish?
    requires ToBeListed(c, s, app) && step != Aggregation.RequestDelete(s)
    ensures var d := Aggregation.Next(c, step);
            ToBeListed(d, s, app) || app !in d.c.apps || app in Touched(c.c.apps, d.c.apps)
  {
    CoreStands(c, step, s);
    Aggregation.StepKeepsInvIff(c, step, Status.ApplicationSide, app);
  }

  /** The creation of a Deployment that no status lists makes it one to be listed. */
  lemma CreatedToBeListed(c: Status.World, s: string, d: Deployment, app: string)
    requires CoreSafe(c) && s !in c.c.deps && Aggregation.Enabled(c, Aggregation.CreateDeployment(s, d))
    requires NotListed(c.c, s, app) && HasLabel(d.labels, APP_KEY, app)
    ensures ToBeListed(Aggregation.Next(c, Aggregation.CreateDeployment(s, d)), s, app)
  {
    Aggregation.ReportRestores(c, Aggregation.CreateDeployment(s, d), Status.ApplicationSide, app);
  }

  // ----- preservation, step by step -----

  predicate ByApplicationController(step: Step) {
    step.StartApplication? || step.ListSqbs? || step.UpdateSqb? || step.FinishApplication? || step.FailApplication?
  }

  lemma TagsKept(w: World, step: Step, cfg: Config)
    requires Sound(w, cfg) && Enabled(w, step)
    ensures SqbsTagged(Next(w, step, cfg)) && DeploymentsTagged(Next(w, step, cfg))
  {
    if OnCore(step) {
      CoreRefines(w, step, cfg);
    }
  }

  lemma ReadsCurrentKept(w: World, step: Step, cfg: Config)
    requires Sound(w, cfg) && Enabled(w, step)
    ensures ReadsCurrent(Next(w, step, cfg), cfg)
  {
    if OnCore(step) {
      CoreKeepsReads(w, step, cfg);
    } else if ByApplicationController(step) {
      ApplicationKeepsReads(w, step, cfg);
    }
  }

  lemma ApplicationKeepsReads(w: World, step: Step, cfg: Config)
    requires ReadsCurrent(w, cfg) && Enabled(w, step) && ByApplicationController(step)
    ensures ReadsCurrent(Next(w, step, cfg), cfg)
  {
  }

  lemma CoreKeepsReads(w: World, step: Step, cfg: Config)
    requires ReadsCurrent(w, cfg) && Enabled(w, step) && OnCore(step)
    ensures ReadsCurrent(Next(w, step, cfg), cfg)
  {
  }

  lemma SoundKept(w: World, step: Step, cfg: Config)
    requires Sound(w, cfg) && Enabled(w, step)
    ensures Sound(Next(w, step, cfg), cfg)
  {
    TagsKept(w, step, cfg);
    ReadsCurrentKept(w, step, cfg);
    if OnCore(step) {
      CoreRefines(w, step, cfg);
      CoreSafeKept(w.core, CoreStep(w, step, cfg));
    }
  }

  // ----- the difference between application and SQBDeployment -----

  /** Steps on Deployments and applications change no SQBDeployment; what they change of the application
      is an event. */
  lemma CoreAdrift(w: World, step: Step, cfg: Config, s: string)
    requires Enabled(w, step) && OnCore(step) && s in w.sds && Adrift(Next(w, step, cfg), s, cfg)
    ensures Adrift(w, s, cfg) && w.sds[s].app in w.Apps()
    ensures w.sds[s].app !in Touched(w.Apps(), Next(w, step, cfg).Apps())
  {
  }

  /** The creation of the Deployment of an SQBDeployment makes it one to be listed. */
  lemma DeployedToBeListed(w: World, cfg: Config, s: string, app: string)
    requires Sound(w, cfg) && Enabled(w, Deploy) && w.sdWorker.name == s && s !in w.Deps()
    requires s in w.sds && w.sds[s].app == app && NotListed(w.core.c, s, app)
    ensures ToBeListed(Next(w, Deploy, cfg).core, s, app)
  {
    CoreRefines(w, Deploy, cfg);
    GeneratedTags(w, cfg);
    assert Tagged(w, s, w.sds[s]);
    CreatedToBeListed(w.core, s, Generated(w, cfg), app);
  }

  lemma ToBeListedStays(w: World, step: Step, cfg: Config, s: string, app: string)
    requires Sound(w, cfg) && Enabled(w, step) && OnCore(step) && step != Core(Aggregation.RequestDelete(s))
    requires ToBeListed(w.core, s, app)
    requires app in Next(w, step, cfg).Apps() && app !in Touched(w.Apps(), Next(w, step, cfg).Apps())
    ensures ToBeListed(Next(w, step, cfg).core, s, app)
  {
    CoreRefines(w, step, cfg);
    ToBeListedKept(w.core, CoreStep(w, step, cfg), s, app);
  }

  lemma NotListedStays(w: World, step: Step, cfg: Config, s: string, app: string)
    requires Enabled(w, step) && OnCore(step) && NotListed(w.core.c, s, app)
    requires app in Next(w, step, cfg).Apps() && app !in Touched(w.Apps(), Next(w, step, cfg).Apps())
    ensures NotListed(Next(w, step, cfg).core.c, s, app)
  {
  }

  /** A Deployment that is to be listed, or to be created, is so until the application has an event or its
      deletion is requested. */
  lemma UnlistedKept(w: World, step: Step, cfg: Config, s: string, app: string)
    requires Sound(w, cfg) && Enabled(w, step) && OnCore(step) && s in w.sds && w.sds[s].app == app
    requires Unlisted(w, s, app) && step != Core(Aggregation.RequestDelete(s))
    requires app in Next(w, step, cfg).Apps() && app !in Touched(w.Apps(), Next(w, step, cfg).Apps())
    ensures Unlisted(Next(w, step, cfg), s, app)
  {
    if ToBeListed(w.core, s, app) {
      ToBeListedStays(w, step, cfg, s, app);
    } else if step.Deploy? && w.sdWorker.name == s {
      DeployedToBeListed(w, cfg, s, app);
    } else {
      ComingStays(w, step, cfg, s);
      NotListedStays(w, step, cfg, s, app);
    }
  }

  /** A Deployment that is still to be created. */
  lemma ComingStays(w: World, step: Step, cfg: Config, s: string)
    requires Enabled(w, step) && OnCore(step) && s in w.sds && s !in w.Deps() && Coming(w, s)
    requires !(step.Deploy? && w.sdWorker.name == s)
    ensures s !in Next(w, step, cfg).Deps() && Coming(Next(w, step, cfg), s)
  {
    if step.Core? {
      CorePods(w, step.step, s);
    }
  }

  /** The steps on Deployments and applications keep agreement, except the request to delete a Deployment
      that is not listed yet. */
  lemma CoreKeepsAgrees(w: World, step: Step, cfg: Config, s: string)
    requires Sound(w, cfg) && Enabled(w, step) && OnCore(step) && s in w.sds && Agrees(w, s, cfg)
    requires step != Core(Aggregation.RequestDelete(s))
    ensures Agrees(Next(w, step, cfg), s, cfg)
  {
    if Adrift(Next(w, step, cfg), s, cfg) {
      CoreAdrift(w, step, cfg, s);
      UnlistedKept(w, step, cfg, s, w.sds[s].app);
    }
  }

  lemma DeletionAgreesIff(w: World, cfg: Config, s: string)
    requires Enabled(w, Core(Aggregation.RequestDelete(s))) && s in w.sds
    ensures Agrees(Next(w, Core(Aggregation.RequestDelete(s)), cfg), s, cfg) <==> !Adrift(w, s, cfg)
  {
  }

  /** Steps on neither Deployments nor applications leave what is unlisted so. */
  lemma UnlistedElsewhere(w: World, step: Step, cfg: Config, s: string, app: string)
    requires Enabled(w, step) && !OnCore(step) && s in w.sds && Unlisted(w, s, app)
    ensures Unlisted(Next(w, step, cfg), s, app)
  {
  }

  lemma UpdateAdrift(w: World, t: string, cfg: Config, s: string)
    requires ReadsCurrent(w, cfg) && Enabled(w, UpdateSqb(t)) && s in w.sds && Tagged(w, s, w.sds[s])
    requires Adrift(Next(w, UpdateSqb(t), cfg), s, cfg)
    ensures Adrift(w, s, cfg)
  {
    WithInitOf(w.sds[t], w.appWorker.value);
  }

  /** The application controller makes no difference, and forgets none. */
  lemma ApplicationAdrift(w: World, step: Step, cfg: Config, s: string)
    requires ReadsCurrent(w, cfg) && SqbsTagged(w) && Enabled(w, step) && ByApplicationController(step) && s in w.sds
    requires Adrift(Next(w, step, cfg), s, cfg)
    ensures Adrift(w, s, cfg)
  {
    assert Tagged(w, s, w.sds[s]);
    if step.UpdateSqb? {
      UpdateAdrift(w, step.name, cfg, s);
    }
  }

  /** Neither do users and the SQBDeployment controller, but for the write of an initialisation. */
  lemma OtherAdrift(w: World, step: Step, cfg: Config, s: string)
    requires Enabled(w, step) && !ByApplicationController(step) && !OnCore(step) && !step.Initialise? && s in w.sds
    requires s in Next(w, step, cfg).sds && Adrift(Next(w, step, cfg), s, cfg)
    ensures Adrift(w, s, cfg) && w.sds[s].app == Next(w, step, cfg).sds[s].app
  {
  }

  lemma InitialiseAdrift(w: World, cfg: Config, s: string)
    requires Enabled(w, Initialise) && s in w.sds && s != w.sdWorker.name && Adrift(Next(w, Initialise, cfg), s, cfg)
    ensures Adrift(w, s, cfg)
  {
  }

  lemma AdriftElsewhere(w: World, step: Step, cfg: Config, s: string)
    requires ReadsCurrent(w, cfg) && SqbsTagged(w) && Enabled(w, step) && !OnCore(step)
    requires s in w.sds && !(step.Initialise? && w.sdWorker.name == s)
    requires s in Next(w, step, cfg).sds && Adrift(Next(w, step, cfg), s, cfg)
    ensures Adrift(w, s, cfg) && w.sds[s].app == Next(w, step, cfg).sds[s].app
  {
    if ByApplicationController(step) {
      ApplicationAdrift(w, step, cfg, s);
    } else if step.Initialise? {
      InitialiseAdrift(w, cfg, s);
    } else {
      OtherAdrift(w, step, cfg, s);
    }
  }

  /** An SQBDeployment that agrees goes on to do so, except under the write of its initialisation and the
      request to delete its Deployment. */
  lemma AgreesKept(w: World, step: Step, cfg: Config, s: string)
    requires Sound(w, cfg) && Enabled(w, step) && s in w.sds && s in Next(w, step, cfg).sds && Agrees(w, s, cfg)
    requires !(step.Initialise? && w.sdWorker.name == s) && step != Core(Aggregation.RequestDelete(s))
    ensures Agrees(Next(w, step, cfg), s, cfg)
  {
    if OnCore(step) {
      CoreKeepsAgrees(w, step, cfg, s);
    } else if Adrift(Next(w, step, cfg), s, cfg) {
      AdriftElsewhere(w, step, cfg, s);
      UnlistedElsewhere(w, step, cfg, s, w.sds[s].app);
    }
  }

  /** A new SQBDeployment is not initialised. */
  lemma CreatedAgrees(w: World, step: Step, cfg: Config, s: string)
    requires Enabled(w, step) && s !in w.sds && s in Next(w, step, cfg).sds
    ensures InvAt(Next(w, step, cfg), s, cfg)
  {
    assert step.CreateSqb?;
  }

  // ----- initialisation and pod template -----

  /** A step of the status protocol changes no pod template of an SQBDeployment. */
  lemma CorePods(w: World, step: Aggregation.Step, s: string)
    requires Aggregation.Enabled(w.core, step) && CoreAllowed(w, step) && s in w.sds
    ensures var d := Aggregation.Next(w.core, step).c.deps;
            s in d ==> s in w.Deps() && PodInject(d[s]) == PodInject(w.Deps()[s])
  {
  }

  predicate PodsAt(w: World, s: string)
    requires s in w.sds
  {
    InitialisationPending(w, s) && PodAgrees(w, s)
  }

  lemma DeployKeepsPods(w: World, cfg: Config, s: string)
    requires Sound(w, cfg) && Enabled(w, Deploy) && s in w.sds && PodsAt(w, s)
    ensures PodsAt(Next(w, Deploy, cfg), s)
  {
    GeneratedTags(w, cfg);
  }

  lemma CoreKeepsPods(w: World, step: Step, cfg: Config, s: string)
    requires Sound(w, cfg) && Enabled(w, step) && OnCore(step) && s in w.sds && PodsAt(w, s)
    ensures PodsAt(Next(w, step, cfg), s)
  {
    if step.Deploy? {
      DeployKeepsPods(w, cfg, s);
    } else {
      CorePods(w, step.step, s);
    }
  }

  lemma OtherKeepsPods(w: World, step: Step, cfg: Config, s: string)
    requires ReadsCurrent(w, cfg) && Enabled(w, step) && !OnCore(step) && s in w.sds && PodsAt(w, s)
    requires s in Next(w, step, cfg).sds
    ensures PodsAt(Next(w, step, cfg), s)
  {
    if ByApplicationController(step) {
      ApplicationKeepsPods(w, step, cfg, s);
    } else if step.Initialise? {
      WithInitOf(w.sdWorker.seen, w.sdWorker.value);
    }
  }

  lemma ApplicationKeepsPods(w: World, step: Step, cfg: Config, s: string)
    requires Enabled(w, step) && ByApplicationController(step) && s in w.sds && PodsAt(w, s)
    ensures PodsAt(Next(w, step, cfg), s)
  {
    if step.UpdateSqb? {
      WithInitOf(w.sds[step.name], w.appWorker.value);
    }
  }

  lemma PodsKept(w: World, step: Step, cfg: Config, s: string)
    requires Sound(w, cfg) && Enabled(w, step) && s in w.sds && PodsAt(w, s) && s in Next(w, step, cfg).sds
    ensures PodsAt(Next(w, step, cfg), s)
  {
    if OnCore(step) {
      CoreKeepsPods(w, step, cfg, s);
    } else {
      OtherKeepsPods(w, step, cfg, s);
    }
  }

  // ----- every step -----

  /** The setting that the initialisation is about to write is still the application's, or the
      application controller has heard of the change, or the Deployment is yet to be listed. */
  ghost predicate FreshDecision(w: World, cfg: Config)
    requires w.sdWorker.Deciding?
  {
    var s, app := w.sdWorker.name, w.sdWorker.seen.app;
    app in w.Apps() ==>
      var current := InjectValue(w.Apps()[app], cfg);
      w.sdWorker.value == current || Heard(w, app, current) || Updating(w, s, app, current) || Unlisted(w, s, app)
  }

  lemma InitialiseAgreesIff(w: World, cfg: Config)
    requires Enabled(w, Initialise)
    ensures Agrees(Next(w, Initialise, cfg), w.sdWorker.name, cfg) <==> FreshDecision(w, cfg)
  {
    WithInitOf(w.sdWorker.seen, w.sdWorker.value);
  }

  /** The step breaks an agreement: it writes an initialisation whose decision is no longer fresh, or
      requests the deletion of a Deployment while the settings differ and the application controller
      has not heard of it, so that only the listing of that Deployment would have brought it back. */
  ghost predicate Breaks(w: World, step: Step, cfg: Config) {
    || (step.Initialise? && w.sdWorker.Deciding? && !FreshDecision(w, cfg))
    || (step.Core? && step.step.RequestDelete? && Adrift(w, step.step.name, cfg))
  }

  lemma AgreesIff(w: World, step: Step, cfg: Config, s: string)
    requires Sound(w, cfg) && Enabled(w, step) && s in w.sds && s in Next(w, step, cfg).sds && Agrees(w, s, cfg)
    ensures (step.Initialise? && w.sdWorker.name == s) || step == Core(Aggregation.RequestDelete(s)) ==>
              (Agrees(Next(w, step, cfg), s, cfg) <==> !Breaks(w, step, cfg))
    ensures !(step.Initialise? && w.sdWorker.name == s) && step != Core(Aggregation.RequestDelete(s)) ==>
              Agrees(Next(w, step, cfg), s, cfg)
  {
    if step.Initialise? && w.sdWorker.name == s {
      InitialiseAgreesIff(w, cfg);
    } else if step == Core(Aggregation.RequestDelete(s)) {
      DeletionAgreesIff(w, cfg, s);
    } else {
      AgreesKept(w, step, cfg, s);
    }
  }

  /** Every step keeps the invariant exactly when it breaks no agreement. */
  lemma StepKeepsInvIff(w: World, step: Step, cfg: Config)
    requires Inv(w, cfg) && Enabled(w, step)
    ensures Inv(Next(w, step, cfg), cfg) <==> !Breaks(w, step, cfg)
  {
    var v := Next(w, step, cfg);
    SoundKept(w, step, cfg);
    forall s | s in v.sds
      ensures PodsAt(v, s)
      ensures !Breaks(w, step, cfg) ==> Agrees(v, s, cfg)
    {
      if s in w.sds {
        assert InvAt(w, s, cfg);
        AgreesIff(w, step, cfg, s);
        PodsKept(w, step, cfg, s);
      } else {
        CreatedAgrees(w, step, cfg, s);
      }
    }
    if Breaks(w, step, cfg) {
      var s := if step.Initialise? then w.sdWorker.name else step.step.name;
      assert InvAt(w, s, cfg);
      AgreesIff(w, step, cfg, s);
    }
  }
}
