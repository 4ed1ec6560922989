/** The propagation of the istio setting over whole runs: the runs in which application, SQBDeployment
    and pod template end up with the same setting, whatever the interleaving, and what becomes of a
    difference in the others. */
module IstioRuns {
  import opened Common
  import opened Objects
  import opened Workload
  import opened Istio
  import opened IstioProtocol
  import Status
  import Aggregation = StatusProtocol

  predicate Initial(w: World) {
    && w.core == Status.World(Status.Cluster(map[], map[], map[]), {}, Status.Idle)
    && w.sds == map[] && w.appQueue == {} && w.sdQueue == {}
    && w.appWorker.NoApplication? && w.sdWorker.NoSqb?
  }

  ghost predicate Executes(w: World, steps: seq<Step>, v: World, cfg: Config)
    decreases |steps|
  {
    if steps == [] then v == w
    else Enabled(w, steps[0]) && Executes(Next(w, steps[0], cfg), steps[1..], v, cfg)
  }

  predicate Quiescent(w: World) {
    Aggregation.Quiescent(w.core) && w.appQueue == {} && w.sdQueue == {} && w.appWorker.NoApplication? && w.sdWorker.NoSqb?
  }

  lemma {:induction false} RunKeepsSound(w: World, steps: seq<Step>, v: World, cfg: Config)
    requires Sound(w, cfg) && Executes(w, steps, v, cfg)
    ensures Sound(v, cfg)
    decreases |steps|
  {
    if steps != [] {
      SoundKept(w, steps[0], cfg);
      RunKeepsSound(Next(w, steps[0], cfg), steps[1..], v, cfg);
    }
  }

  lemma InitialInv(w: World, cfg: Config)
    requires Initial(w)
    ensures Inv(w, cfg)
  {
    forall name | name != "" ensures Aggregation.Safe(w.core, Status.ApplicationSide, name, {}) {
      Aggregation.InitialInv(w.core, Status.ApplicationSide, name);
    }
  }

  /** With nothing pending, nothing is to be listed or created, so nothing is adrift. */
  lemma QuiescentAgrees(w: World, cfg: Config, s: string)
    requires Sound(w, cfg) && Quiescent(w) && s in w.sds && Agrees(w, s, cfg)
    ensures !Differs(w, s, cfg)
  {
    if Differs(w, s, cfg) {
      NothingUnlisted(w, cfg, s);
    }
  }

  lemma NothingUnlisted(w: World, cfg: Config, s: string)
    requires DeploymentsTagged(w) && SqbsTagged(w) && Quiescent(w) && s in w.sds
    ensures !Unlisted(w, s, w.sds[s].app)
  {
    var app := w.sds[s].app;
    if Stands(w.Deps(), s) {
      assert Tagged(w, s, w.sds[s]) && SameTags(w.labels(s), w.Deps()[s].labels);
      assert s in Status.LiveWith(w.Deps(), APP_KEY, app);
      assert s in Status.ViewOf(w.Deps(), Status.ApplicationSide, app).mirrors;
    }
  }

  // ----- orderly runs -----

  /** There is no Deployment of that name yet, and the application, if any, is not being deleted. */
  predicate FirstTime(w: World)
    requires w.sdWorker.Deciding?
  {
    var app := w.sdWorker.seen.app;
    w.sdWorker.name !in w.Deps()
    && (app in w.Apps() ==> Status.StatusOf(w.core.c, Status.ApplicationSide, app).Some?)
  }

  /** Whether the application controller has listed the SQBDeployments of the application since the
      initialisation was decided. */
  predicate ListedAfter(w: World, step: Step, listed: bool) {
    if step.Decide? then false
    else
      || listed
      || (step.ListSqbs? && w.sdWorker.Deciding? && w.appWorker.Reading? && w.appWorker.app == w.sdWorker.seen.app)
  }

  /** The application lists the Deployment of the SQBDeployment of that name, if there are both. */
  predicate Reported(w: World, s: string) {
    s in w.sds && w.sds[s].app in w.Apps() ==> s in w.Apps()[w.sds[s].app].mirrors
  }

  /** An initialisation is written before the application controller lists for that application again,
      or writes the first Deployment of its name; and the deletion of a Deployment is requested only
      after its application lists it. */
  predicate OrderlyStep(w: World, step: Step, listed: bool) {
    && (step.Initialise? && w.sdWorker.Deciding? ==> !listed || FirstTime(w))
    && (step.Core? && step.step.RequestDelete? ==> Reported(w, step.step.name))
  }

  predicate Orderly(w: World, steps: seq<Step>, listed: bool, cfg: Config)
    decreases |steps|
  {
    steps != [] && Enabled(w, steps[0]) ==>
      && OrderlyStep(w, steps[0], listed)
      && Orderly(Next(w, steps[0], cfg), steps[1..], ListedAfter(w, steps[0], listed), cfg)
  }

  /** The setting read for an initialisation is current, or the application controller has heard of
      the change but not listed yet. */
  predicate Undisturbed(w: World, cfg: Config) {
    w.sdWorker.Deciding? && w.sdWorker.seen.app in w.Apps() ==>
      var current := InjectValue(w.Apps()[w.sdWorker.seen.app], cfg);
      w.sdWorker.value == current || Heard(w, w.sdWorker.seen.app, current)
  }

  lemma UndisturbedKept(w: World, step: Step, listed: bool, cfg: Config)
    requires Enabled(w, step) && (listed || Undisturbed(w, cfg)) && !ListedAfter(w, step, listed)
    ensures Undisturbed(Next(w, step, cfg), cfg)
  {
  }

  /** By finalizer safety, no status lists a Deployment that does not exist. */
  lemma FirstTimeFresh(w: World, cfg: Config)
    requires CoreSafe(w.core) && w.sdWorker.Deciding? && FirstTime(w)
    ensures FreshDecision(w, cfg)
  {
    var s, app := w.sdWorker.name, w.sdWorker.seen.app;
    if app in w.Apps() {
      assert Aggregation.Safe(w.core, Status.ApplicationSide, app, {});
      assert NotListed(w.core.c, s, app) && Coming(w, s);
    }
  }

  /** The deletion of a Deployment that is listed already separates nothing. */
  lemma ReportedNotAdrift(w: World, cfg: Config, s: string)
    requires s in w.sds && Agrees(w, s, cfg) && Reported(w, s)
    ensures !Adrift(w, s, cfg)
  {
  }

  lemma OrderlyBreaksNothing(w: World, step: Step, listed: bool, cfg: Config)
    requires Inv(w, cfg) && (listed || Undisturbed(w, cfg)) && Enabled(w, step) && OrderlyStep(w, step, listed)
    ensures !Breaks(w, step, cfg)
  {
    if step.Initialise? {
      if FirstTime(w) {
        FirstTimeFresh(w, cfg);
      }
    } else if step.Core? && step.step.RequestDelete? && step.step.name in w.sds {
      assert InvAt(w, step.step.name, cfg);
      ReportedNotAdrift(w, cfg, step.step.name);
    }
  }

  lemma {:induction false} RunKeepsInv(w: World, steps: seq<Step>, v: World, listed: bool, cfg: Config)
    requires Inv(w, cfg) && (listed || Undisturbed(w, cfg))
    requires Executes(w, steps, v, cfg) && Orderly(w, steps, listed, cfg)
    ensures Inv(v, cfg)
    decreases |steps|
  {
    if steps != [] {
      var step := steps[0];
      OrderlyBreaksNothing(w, step, listed, cfg);
      StepKeepsInvIff(w, step, cfg);
      if !ListedAfter(w, step, listed) {
        UndisturbedKept(w, step, listed, cfg);
      }
      RunKeepsInv(Next(w, step, cfg), steps[1..], v, ListedAfter(w, step, listed), cfg);
    }
  }

  /** The Deployment of the SQBDeployment stands or is coming, and is not being deleted. */
  predicate Standing(w: World, s: string) {
    (s in w.Deps() ==> !w.Deps()[s].deleting) && (s in w.sds ==> s in w.Deps() || Coming(w, s))
  }

  lemma StandingKept(w: World, step: Step, s: string, cfg: Config)
    requires Sound(w, cfg) && Enabled(w, step) && Standing(w, s) && step != Core(Aggregation.RequestDelete(s))
    ensures Standing(Next(w, step, cfg), s)
  {
    if OnCore(step) {
      CoreRefines(w, step, cfg);
      CoreStands(w.core, CoreStep(w, step, cfg), s);
    }
  }

  lemma {:induction false} RunKeepsStanding(w: World, steps: seq<Step>, v: World, s: string, cfg: Config)
    requires Sound(w, cfg) && Standing(w, s) && Executes(w, steps, v, cfg)
    requires Core(Aggregation.RequestDelete(s)) !in steps
    ensures Standing(v, s)
    decreases |steps|
  {
    if steps != [] {
      assert steps[0] in steps;
      SoundKept(w, steps[0], cfg);
      StandingKept(w, steps[0], s, cfg);
      RunKeepsStanding(Next(w, steps[0], cfg), steps[1..], v, s, cfg);
    }
  }

  /** Propagation: in every state reached by an orderly run, under any interleaving of the three
      controllers and the users, each SQBDeployment agrees with its application or the difference is
      due to be repaired, and so do the pod template and the SQBDeployment. When nothing is pending,
      application, SQBDeployment and pod template, if there is one, carry the same setting; and there is
      one if its deletion was never requested. */
  lemma Propagation(start: World, steps: seq<Step>, w: World, cfg: Config, s: string)
    requires Initial(start) && Executes(start, steps, w, cfg) && Orderly(start, steps, false, cfg) && s in w.sds
    ensures Agrees(w, s, cfg) && InitialisationPending(w, s) && PodAgrees(w, s)
    ensures Quiescent(w) ==>
              && Initialized(w.sds[s])
              && (w.sds[s].app in w.Apps() ==> InjectOf(w.sds[s]) == InjectValue(w.Apps()[w.sds[s].app], cfg))
              && (s in w.Deps() ==> PodInject(w.Deps()[s]) == InjectOf(w.sds[s]))
              && (Core(Aggregation.RequestDelete(s)) !in steps ==> Stands(w.Deps(), s))
  {
    InitialInv(start, cfg);
    RunKeepsInv(start, steps, w, false, cfg);
    assert InvAt(w, s, cfg);
    if Quiescent(w) {
      QuiescentAgrees(w, cfg, s);
      if Core(Aggregation.RequestDelete(s)) !in steps {
        RunKeepsStanding(start, steps, w, s, cfg);
      }
    }
  }

  // ----- runs that are orderly whatever the interleaving -----

  /** An SQBDeployment is created under a name that has no Deployment and is not being worked on, no
      application is put into deletion, and no Deployment is deleted before its application lists it. */
  predicate NewName(w: World, step: Step) {
    match step
    case CreateSqb(s, _) => s !in w.Deps() && !WorkingOn(w, s)
    case Core(CreateApplication(a, app)) => a != "" && !app.deleting
    case Core(EditApplication(_, app)) => !app.deleting
    case Core(RequestDelete(d)) => Reported(w, d)
    case _ => true
  }

  predicate NewNames(w: World, steps: seq<Step>, cfg: Config)
    decreases |steps|
  {
    steps != [] && Enabled(w, steps[0]) ==> NewName(w, steps[0]) && NewNames(Next(w, steps[0], cfg), steps[1..], cfg)
  }

  predicate AllLive(apps: map<string, Application>) {
    forall a | a in apps :: a != "" && !apps[a].deleting
  }

  /** If the SQBDeployment is not initialised, it has no Deployment, and the worker has not got to it. */
  predicate NotEarly(w: World, s: string) {
    s in w.sds && !Initialized(w.sds[s]) ==> s !in w.Deps() && (WorkingOn(w, s) ==> !Initialized(w.sdWorker.seen))
  }

  lemma NotEarlyOnCore(w: World, step: Step, cfg: Config, s: string)
    requires ReadsCurrent(w, cfg) && NotEarly(w, s) && Enabled(w, step) && OnCore(step)
    ensures NotEarly(Next(w, step, cfg), s)
  {
    if step.Core? && s in w.sds {
      CorePods(w, step.step, s);
    }
  }

  lemma NotEarlyElsewhere(w: World, step: Step, cfg: Config, s: string)
    requires ReadsCurrent(w, cfg) && NotEarly(w, s) && Enabled(w, step) && !OnCore(step) && NewName(w, step)
    ensures NotEarly(Next(w, step, cfg), s)
  {
    if ByApplicationController(step) {
      ApplicationKeepsInitialized(w, step, cfg, s);
    } else if step.Initialise? {
      WithInitOf(w.sdWorker.seen, w.sdWorker.value);
    }
  }

  lemma ApplicationKeepsInitialized(w: World, step: Step, cfg: Config, s: string)
    requires Enabled(w, step) && ByApplicationController(step)
    ensures var v := Next(w, step, cfg);
            && v.core == w.core && v.sdWorker == w.sdWorker && (s in v.sds <==> s in w.sds)
            && (s in w.sds ==> (Initialized(v.sds[s]) <==> Initialized(w.sds[s])))
  {
    if step.UpdateSqb? {
      WithInitOf(w.sds[step.name], w.appWorker.value);
    }
  }

  lemma AllLiveKept(c: Status.World, step: Aggregation.Step)
    requires AllLive(c.c.apps) && Aggregation.Enabled(c, step)
    requires step.CreateApplication? ==> step.name != "" && !step.app.deleting
    requires step.EditApplication? ==> !step.app.deleting
    ensures AllLive(Aggregation.Next(c, step).c.apps)
  {
  }

  /** What runs under new names keep. */
  ghost predicate Early(w: World, cfg: Config) {
    Sound(w, cfg) && AllLive(w.Apps()) && forall s :: NotEarly(w, s)
  }

  lemma EarlyKept(w: World, step: Step, cfg: Config)
    requires Early(w, cfg) && Enabled(w, step) && NewName(w, step)
    ensures Early(Next(w, step, cfg), cfg)
  {
    SoundKept(w, step, cfg);
    forall s ensures NotEarly(Next(w, step, cfg), s) {
      if OnCore(step) {
        NotEarlyOnCore(w, step, cfg, s);
      } else {
        NotEarlyElsewhere(w, step, cfg, s);
      }
    }
    if step.Core? {
      AllLiveKept(w.core, step.step);
    }
  }

  lemma NewNameOrderly(w: World, step: Step, listed: bool, cfg: Config)
    requires Early(w, cfg) && Enabled(w, step) && NewName(w, step)
    ensures OrderlyStep(w, step, listed)
  {
    if step.Initialise? {
      assert NotEarly(w, w.sdWorker.name);
    }
  }

  lemma {:induction false} NewNamesOrderly(w: World, steps: seq<Step>, listed: bool, cfg: Config)
    requires Early(w, cfg) && NewNames(w, steps, cfg)
    ensures Orderly(w, steps, listed, cfg)
    decreases |steps|
  {
    if steps != [] && Enabled(w, steps[0]) {
      NewNameOrderly(w, steps[0], listed, cfg);
      EarlyKept(w, steps[0], cfg);
      NewNamesOrderly(Next(w, steps[0], cfg), steps[1..], ListedAfter(w, steps[0], listed), cfg);
    }
  }

  /** Propagation without any condition on how users and controllers interleave: when SQBDeployments are
      created under new names and Deployments are not deleted before they are listed, settings come
      together. */
  lemma PropagationUnderNewNames(start: World, steps: seq<Step>, w: World, cfg: Config, s: string)
    requires Initial(start) && Executes(start, steps, w, cfg) && NewNames(start, steps, cfg) && s in w.sds
    ensures Agrees(w, s, cfg) && InitialisationPending(w, s) && PodAgrees(w, s)
    ensures Quiescent(w) ==>
              && Initialized(w.sds[s])
              && (w.sds[s].app in w.Apps() ==> InjectOf(w.sds[s]) == InjectValue(w.Apps()[w.sds[s].app], cfg))
              && (s in w.Deps() ==> PodInject(w.Deps()[s]) == InjectOf(w.sds[s]))
              && (Core(Aggregation.RequestDelete(s)) !in steps ==> Stands(w.Deps(), s))
  {
    InitialInv(start, cfg);
    NewNamesOrderly(start, steps, false, cfg);
    Propagation(start, steps, w, cfg, s);
  }

  // ----- a difference that is adrift -----

  lemma AdriftUntilEvent(w: World, step: Step, s: string, cfg: Config)
    requires ReadsCurrent(w, cfg) && SqbsTagged(w) && Enabled(w, step) && Adrift(w, s, cfg)
    ensures var v := Next(w, step, cfg);
            s in v.sds && w.sds[s].app in v.Apps() && w.sds[s].app !in v.appQueue ==>
              Adrift(v, s, cfg) && v.sds[s].app == w.sds[s].app
  {
    if OnCore(step) {
      AdriftUntilCoreEvent(w, step, s, cfg);
    } else {
      AdriftElsewhereUntilEvent(w, step, s, cfg);
    }
  }

  lemma AdriftUntilCoreEvent(w: World, step: Step, s: string, cfg: Config)
    requires Enabled(w, step) && OnCore(step) && Adrift(w, s, cfg)
    ensures var v, app := Next(w, step, cfg), w.sds[s].app;
            v.sds == w.sds && (app in v.Apps() && app !in v.appQueue ==> Adrift(v, s, cfg))
  {
  }

  lemma AdriftElsewhereUntilEvent(w: World, step: Step, s: string, cfg: Config)
    requires ReadsCurrent(w, cfg) && SqbsTagged(w) && Enabled(w, step) && !OnCore(step) && Adrift(w, s, cfg)
    ensures var v := Next(w, step, cfg);
            s in v.sds && w.sds[s].app !in v.appQueue ==> Adrift(v, s, cfg) && v.sds[s].app == w.sds[s].app
  {
    if ByApplicationController(step) {
      AdriftUntilApplicationEvent(w, step, s, cfg);
    } else if step.Initialise? {
      AdriftOverInitialise(w, s, cfg);
    }
  }

  lemma AdriftOverInitialise(w: World, s: string, cfg: Config)
    requires ReadsCurrent(w, cfg) && Enabled(w, Initialise) && Adrift(w, s, cfg)
    ensures var v := Next(w, Initialise, cfg); s in v.sds && v.sds[s] == w.sds[s] && Adrift(v, s, cfg)
  {
    assert w.sdWorker.name != s;
  }

  lemma AdriftUntilApplicationEvent(w: World, step: Step, s: string, cfg: Config)
    requires ReadsCurrent(w, cfg) && SqbsTagged(w) && Enabled(w, step) && ByApplicationController(step)
    requires Adrift(w, s, cfg)
    ensures var v, app := Next(w, step, cfg), w.sds[s].app;
            s in v.sds && v.sds[s].app == app && (app !in v.appQueue ==> Adrift(v, s, cfg))
  {
    assert Tagged(w, s, w.sds[s]);
    if step.UpdateSqb? {
      WithInitOf(w.sds[step.name], w.appWorker.value);
    }
  }

  /** No event of application `app` all along, and `app` and SQBDeployment `s` stay. */
  predicate Unheard(w: World, steps: seq<Step>, s: string, app: string, cfg: Config)
    decreases |steps|
  {
    && s in w.sds && w.sds[s].app == app && app in w.Apps() && app !in w.appQueue
    && (steps != [] && Enabled(w, steps[0]) ==> Unheard(Next(w, steps[0], cfg), steps[1..], s, app, cfg))
  }

  /** What is adrift stays so, whatever anyone does, until the application has an event or is removed, or
      the SQBDeployment is. (The listing of its Deployment is such an event.) */
  lemma {:induction false} AdriftThroughout(w: World, steps: seq<Step>, v: World, s: string, cfg: Config)
    requires Sound(w, cfg) && Adrift(w, s, cfg)
    requires Executes(w, steps, v, cfg) && Unheard(w, steps, s, w.sds[s].app, cfg)
    ensures Adrift(v, s, cfg)
    decreases |steps|
  {
    if steps != [] {
      SoundKept(w, steps[0], cfg);
      AdriftUntilEvent(w, steps[0], s, cfg);
      AdriftThroughout(Next(w, steps[0], cfg), steps[1..], v, s, cfg);
    }
  }

  // ----- what the controllers reach on their own -----

  predicate ByControllers(step: Step) {
    || step.StartApplication? || step.ListSqbs? || step.UpdateSqb? || step.FinishApplication? || step.FailApplication?
    || step.StartSqb? || step.Decide? || step.Initialise? || step.Deploy? || step.FailSqb?
    || (step.Core? && (step.step.Start? || step.step.Work? || step.step.Fail?))
  }

  lemma ControllersKeepSqb(w: World, step: Step, cfg: Config, s: string)
    requires ReadsCurrent(w, cfg) && Enabled(w, step) && ByControllers(step) && s in w.sds && Initialized(w.sds[s])
    ensures !(step.Initialise? && w.sdWorker.name == s)
    ensures var v := Next(w, step, cfg);
            s in v.sds && Initialized(v.sds[s]) && v.sds[s].app == w.sds[s].app
  {
    if step.UpdateSqb? {
      WithInitOf(w.sds[step.name], w.appWorker.value);
    }
  }

  /** Steps of the controllers; `failing` tells whether the application controller may fail, which brings it
      back to the application. */
  predicate Controlled(steps: seq<Step>, failing: bool) {
    steps != [] ==>
      ByControllers(steps[0]) && (steps[0].FailApplication? ==> failing) && Controlled(steps[1..], failing)
  }

  ghost predicate DueAt(w: World, s: string, cfg: Config) {
    Sound(w, cfg) && s in w.sds && Initialized(w.sds[s]) && Agrees(w, s, cfg)
  }

  lemma DueKept(w: World, step: Step, cfg: Config, s: string)
    requires DueAt(w, s, cfg) && Enabled(w, step) && ByControllers(step)
    ensures DueAt(Next(w, step, cfg), s, cfg)
  {
    ControllersKeepSqb(w, step, cfg, s);
    SoundKept(w, step, cfg);
    AgreesKept(w, step, cfg, s);
  }

  /** What is due is repaired: wherever the controllers alone lead at rest, with or without failures, an
      SQBDeployment that agreed, or whose difference was due, has its application's setting. */
  lemma {:induction false} DueIsRepaired(w: World, steps: seq<Step>, v: World, s: string, cfg: Config)
    requires DueAt(w, s, cfg) && Executes(w, steps, v, cfg) && Controlled(steps, true) && Quiescent(v)
    ensures s in v.sds && !Differs(v, s, cfg)
    decreases |steps|
  {
    if steps == [] {
      QuiescentAgrees(w, cfg, s);
    } else {
      DueKept(w, steps[0], cfg, s);
      DueIsRepaired(Next(w, steps[0], cfg), steps[1..], v, s, cfg);
    }
  }

  /** The status of the application lists exactly its Deployments, and so does a list about to be written. */
  predicate StatusSettled(c: Status.World, app: string) {
    && app in c.c.apps
    && Status.StatusOf(c.c, Status.ApplicationSide, app)
       in {None, Some(Status.ViewOf(c.c.deps, Status.ApplicationSide, app))}
    && (Aggregation.Holding(c.worker, Status.ApplicationSide, app) ==>
          c.worker.listed == Status.ViewOf(c.c.deps, Status.ApplicationSide, app))
  }

  /** If the name goes with the application and is that of an SQBDeployment, its Deployment stands. */
  predicate StandsFor(w: World, app: string, t: string) {
    HasLabel(w.labels(t), APP_KEY, app) && (t in w.sds || WorkingOn(w, t)) ==> Stands(w.Deps(), t)
  }

  /** The application's SQBDeployments all have standing Deployments, and its status lists them. */
  ghost predicate Settled(w: World, app: string) {
    StatusSettled(w.core, app) && forall t :: StandsFor(w, app, t)
  }

  /** The view and the stored application are the same, and the list held is right. */
  predicate CoreSettled(c: Status.World, d: Status.World, app: string) {
    && app in c.c.apps && app in d.c.apps && d.c.apps[app] == c.c.apps[app]
    && Status.ViewOf(d.c.deps, Status.ApplicationSide, app) == Status.ViewOf(c.c.deps, Status.ApplicationSide, app)
    && (Aggregation.Holding(d.worker, Status.ApplicationSide, app) ==>
          d.worker.listed == Status.ViewOf(d.c.deps, Status.ApplicationSide, app))
  }

  lemma WorkSettled(c: Status.World, app: string)
    requires Aggregation.WorkerOk(c) && Aggregation.Enabled(c, Aggregation.Work) && StatusSettled(c, app)
    ensures CoreSettled(c, Aggregation.Next(c, Aggregation.Work), app)
  {
    var d := Aggregation.Next(c, Aggregation.Work);
    if c.worker.phase == 4 && c.worker.seen.deleting {
      Aggregation.ViewIgnores(c.c.deps, d.c.deps, c.worker.name, Status.ApplicationSide, app);
    }
  }

  lemma PutSettled(c: Status.World, s: string, d: Deployment, app: string)
    requires app in c.c.apps
    requires Aggregation.Holding(c.worker, Status.ApplicationSide, app) ==>
               c.worker.listed == Status.ViewOf(c.c.deps, Status.ApplicationSide, app)
    requires s in c.c.deps ==> Aggregation.SameLabels(c.c.deps[s], d) && d.deleting == c.c.deps[s].deleting
    requires s !in c.c.deps ==> !HasLabel(d.labels, APP_KEY, app)
    ensures CoreSettled(c, Put(c, s, d), app)
  {
    if s in c.c.deps {
      Aggregation.ViewUnchanged(c.c.deps, Put(c, s, d).c.deps, Status.ApplicationSide, app);
    } else {
      Aggregation.ViewIgnores(c.c.deps, Put(c, s, d).c.deps, s, Status.ApplicationSide, app);
    }
  }

  lemma DeploySettled(w: World, cfg: Config, app: string)
    requires ReadsCurrent(w, cfg) && DeploymentsTagged(w) && Enabled(w, Deploy)
    requires StatusSettled(w.core, app) && StandsFor(w, app, w.sdWorker.name)
    ensures CoreSettled(w.core, Next(w, Deploy, cfg).core, app)
  {
    GeneratedTags(w, cfg);
    PutSettled(w.core, w.sdWorker.name, Generated(w, cfg), app);
  }

  lemma QuietSettled(c: Status.World, step: Aggregation.Step, app: string)
    requires Aggregation.Enabled(c, step) && (step.Start? || step.Fail?) && StatusSettled(c, app)
    ensures CoreSettled(c, Aggregation.Next(c, step), app)
  {
  }

  lemma ControllersSettled(w: World, step: Step, cfg: Config, app: string)
    requires Sound(w, cfg) && Enabled(w, step) && ByControllers(step) && Settled(w, app)
    ensures CoreSettled(w.core, Next(w, step, cfg).core, app)
  {
    if step == Core(Aggregation.Work) {
      WorkSettled(w.core, app);
    } else if step.Deploy? {
      assert StandsFor(w, app, w.sdWorker.name);
      DeploySettled(w, cfg, app);
    } else if step.Core? {
      QuietSettled(w.core, step.step, app);
    } else {
      assert Next(w, step, cfg).core == w.core;
    }
  }

  lemma ControllersStand(w: World, step: Step, cfg: Config, t: string)
    requires Sound(w, cfg) && Enabled(w, step) && ByControllers(step) && Stands(w.Deps(), t)
    ensures Stands(Next(w, step, cfg).Deps(), t)
  {
    if OnCore(step) {
      CoreRefines(w, step, cfg);
      CoreStands(w.core, CoreStep(w, step, cfg), t);
    }
  }

  lemma ControllersAddNone(w: World, step: Step, cfg: Config, t: string)
    requires Enabled(w, step) && ByControllers(step)
    ensures var v := Next(w, step, cfg);
            v.labels == w.labels && (t in v.sds || WorkingOn(v, t) ==> t in w.sds || WorkingOn(w, t))
  {
  }

  lemma StandsForKept(w: World, step: Step, cfg: Config, app: string, t: string)
    requires Sound(w, cfg) && Enabled(w, step) && ByControllers(step) && StandsFor(w, app, t)
    ensures StandsFor(Next(w, step, cfg), app, t)
  {
    ControllersAddNone(w, step, cfg, t);
    if Stands(w.Deps(), t) {
      ControllersStand(w, step, cfg, t);
    }
  }

  lemma CoreSettledStatus(c: Status.World, d: Status.World, app: string)
    requires StatusSettled(c, app) && CoreSettled(c, d, app)
    ensures StatusSettled(d, app)
  {
  }

  lemma SettledKept(w: World, step: Step, cfg: Config, app: string)
    requires Sound(w, cfg) && Enabled(w, step) && ByControllers(step) && Settled(w, app)
    ensures Settled(Next(w, step, cfg), app) && Next(w, step, cfg).Apps()[app] == w.Apps()[app]
  {
    ControllersSettled(w, step, cfg, app);
    CoreSettledStatus(w.core, Next(w, step, cfg).core, app);
    forall t ensures StandsFor(Next(w, step, cfg), app, t) {
      StandsForKept(w, step, cfg, app, t);
    }
  }

  lemma QueueKept(w: World, step: Step, cfg: Config, app: string)
    requires Enabled(w, step) && ByControllers(step) && !step.FailApplication? && app !in w.appQueue
    requires app in w.Apps() && app in Next(w, step, cfg).Apps() && Next(w, step, cfg).Apps()[app] == w.Apps()[app]
    ensures app !in Next(w, step, cfg).appQueue
  {
  }

  /** The controllers neither create nor end what is adrift while the application is settled. */
  lemma AdriftIffKept(w: World, step: Step, cfg: Config, s: string)
    requires Sound(w, cfg) && Enabled(w, step) && ByControllers(step) && !step.FailApplication?
    requires s in w.sds && Initialized(w.sds[s]) && Settled(w, w.sds[s].app)
    ensures Adrift(Next(w, step, cfg), s, cfg) <==> Adrift(w, s, cfg)
  {
    var app := w.sds[s].app;
    SettledKept(w, step, cfg, app);
    ControllersKeepSqb(w, step, cfg, s);
    if Adrift(w, s, cfg) {
      QueueKept(w, step, cfg, app);
      AdriftUntilEvent(w, step, s, cfg);
    } else if Adrift(Next(w, step, cfg), s, cfg) {
      if OnCore(step) {
        CoreAdrift(w, step, cfg, s);
      } else {
        AdriftElsewhere(w, step, cfg, s);
      }
    }
  }

  ghost predicate SettledAt(w: World, s: string, cfg: Config) {
    Sound(w, cfg) && s in w.sds && Initialized(w.sds[s]) && Settled(w, w.sds[s].app)
  }

  lemma SettledAtKept(w: World, step: Step, cfg: Config, s: string)
    requires SettledAt(w, s, cfg) && Enabled(w, step) && ByControllers(step)
    ensures SettledAt(Next(w, step, cfg), s, cfg)
  {
    SoundKept(w, step, cfg);
    ControllersKeepSqb(w, step, cfg, s);
    SettledKept(w, step, cfg, w.sds[s].app);
  }

  /** While the application is settled, the outcome is decided: wherever the controllers alone lead at rest,
      the settings differ if and only if they were adrift at the start. */
  lemma {:induction false} OutcomeIff(w: World, steps: seq<Step>, v: World, s: string, cfg: Config)
    requires SettledAt(w, s, cfg) && Executes(w, steps, v, cfg) && Controlled(steps, false) && Quiescent(v)
    ensures Differs(v, s, cfg) <==> Adrift(w, s, cfg)
    decreases |steps|
  {
    if steps != [] {
      SettledAtKept(w, steps[0], cfg, s);
      AdriftIffKept(w, steps[0], cfg, s);
      OutcomeIff(Next(w, steps[0], cfg), steps[1..], v, s, cfg);
    }
  }

  lemma InitialiseSettled(w: World, cfg: Config)
    requires Sound(w, cfg) && Enabled(w, Initialise) && Settled(w, w.sdWorker.seen.app)
    ensures SettledAt(Next(w, Initialise, cfg), w.sdWorker.name, cfg)
  {
    WithInitOf(w.sdWorker.seen, w.sdWorker.value);
    SoundKept(w, Initialise, cfg);
    SettledKept(w, Initialise, cfg, w.sdWorker.seen.app);
  }

  lemma InitialiseAdriftIff(w: World, cfg: Config)
    requires Enabled(w, Initialise) && w.sdWorker.seen.app in w.Apps()
    ensures var s, app := w.sdWorker.name, w.sdWorker.seen.app;
            var current := InjectValue(w.Apps()[app], cfg);
            Adrift(Next(w, Initialise, cfg), s, cfg)
            <==> w.sdWorker.value != current && !Heard(w, app, current) && !Updating(w, s, app, current)
  {
    WithInitOf(w.sdWorker.seen, w.sdWorker.value);
  }

  /** So the write of an initialisation over a standing Deployment decides the outcome: wherever the
      controllers alone lead at rest, the SQBDeployment has another setting than its application exactly
      when the application changed its setting since the read, that change was heard and listed in
      between, and no update of the SQBDeployment was left to conflict with the write and be retried. */
  lemma InitialiseOutcomeIff(w: World, steps: seq<Step>, v: World, cfg: Config)
    requires Sound(w, cfg) && Enabled(w, Initialise) && Settled(w, w.sdWorker.seen.app)
    requires Executes(Next(w, Initialise, cfg), steps, v, cfg) && Controlled(steps, false) && Quiescent(v)
    ensures var s, app := w.sdWorker.name, w.sdWorker.seen.app;
            var current := InjectValue(w.Apps()[app], cfg);
            Differs(v, s, cfg)
            <==> w.sdWorker.value != current && !Heard(w, app, current) && !Updating(w, s, app, current)
  {
    InitialiseSettled(w, cfg);
    InitialiseAdriftIff(w, cfg);
    OutcomeIff(Next(w, Initialise, cfg), steps, v, w.sdWorker.name, cfg);
  }

  // ----- the fan-out -----

  /** Left undisturbed, the steps of the application controller have the effect of the handler's
      loop: exactly the stale SQBDeployments get the setting. */
  lemma {:induction false} UndisturbedFanOut(w: World, targets: set<string>, cfg: Config)
      returns (steps: seq<Step>, v: World)
    requires w.appWorker.FanningOut? && targets <= w.sds.Keys
    requires w.appWorker.todo == map s | s in targets :: w.sds[s]
    ensures Executes(w, steps, v, cfg)
    ensures v.sds == Propagated(w.sds, targets, w.appWorker.value) && v.appWorker.NoApplication?
    decreases targets
  {
    if targets == {} {
      v := Next(w, FinishApplication, cfg);
      steps := [FinishApplication];
      assert steps[1..] == [];
      assert v.sds == Propagated(w.sds, {}, w.appWorker.value);
    } else {
      var s :| s in targets;
      var u := Next(w, UpdateSqb(s), cfg);
      var rest;
      assert u.appWorker.todo == map t | t in targets - {s} :: u.sds[t];
      rest, v := UndisturbedFanOut(u, targets - {s}, cfg);
      steps := [UpdateSqb(s)] + rest;
      assert steps[1..] == rest;
      assert v.sds == Propagated(w.sds, targets, w.appWorker.value);
    }
  }
}
