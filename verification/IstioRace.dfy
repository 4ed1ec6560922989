/** How the propagation of the istio setting fails: a run in which an SQBDeployment is created again over
    its Deployment while its application is edited, and one in which a new Deployment is deleted before
    its application lists it. */
module IstioRace {
  import opened Common
  import opened Objects
  import opened Workload
  import opened Istio
  import opened IstioProtocol
  import opened IstioRuns
  import Status
  import Aggregation = StatusProtocol

  lemma {:induction false} Then(start: World, steps: seq<Step>, w: World, step: Step, cfg: Config)
    requires Executes(start, steps, w, cfg) && Enabled(w, step)
    ensures Executes(start, steps + [step], Next(w, step, cfg), cfg)
    decreases |steps|
  {
    if steps == [] {
      assert [step][1..] == [];
    } else {
      assert (steps + [step])[1..] == steps[1..] + [step];
      Then(Next(start, steps[0], cfg), steps[1..], w, step, cfg);
    }
  }

  /** One more step, with what it leads to. */
  lemma Take(start: World, steps: seq<Step>, w: World, step: Step, v: World, cfg: Config) returns (all: seq<Step>)
    requires Executes(start, steps, w, cfg) && Enabled(w, step) && v == Next(w, step, cfg)
    ensures Executes(start, all, v, cfg)
  {
    Then(start, steps, w, step, cfg);
    all := steps + [step];
  }

  function WithApplication(w: World, app: string, value: Application): World {
    w.(core := w.core.(c := w.core.c.(apps := w.Apps()[app := value])))
  }

  /** The application controller takes up the one event it has, while no SQBDeployment is stale. */
  lemma ApplicationRound(start: World, steps: seq<Step>, w: World, app: string, cfg: Config) returns (all: seq<Step>)
    requires Executes(start, steps, w, cfg) && w.appQueue == {app} && w.appWorker.NoApplication? && app in w.Apps()
    requires Stale(w.sds, app, InjectValue(w.Apps()[app], cfg)) == {}
    ensures Executes(start, all, w.(appQueue := {}), cfg)
  {
    var value := InjectValue(w.Apps()[app], cfg);
    var reading := w.(appQueue := {}, appWorker := Reading(app, value));
    all := Take(start, steps, w, StartApplication(app), reading, cfg);
    var listed := reading.(appWorker := FanningOut(app, value, map[]));
    all := Take(start, all, reading, ListSqbs, listed, cfg);
    all := Take(start, all, listed, FinishApplication, w.(appQueue := {}), cfg);
  }

  /** An SQBDeployment is created and its initialisation decided. */
  lemma DecideRound(start: World, steps: seq<Step>, w: World, name: string, sd: SqbDeployment, cfg: Config)
    returns (all: seq<Step>)
    requires Executes(start, steps, w, cfg) && w.sdQueue == {} && w.sdWorker.NoSqb?
    requires Enabled(w, CreateSqb(name, sd)) && sd.app in w.Apps()
    ensures Executes(start, all, w.(sds := w.sds[name := sd],
                                    sdWorker := Deciding(name, sd, InjectValue(w.Apps()[sd.app], cfg))), cfg)
  {
    var created := w.(sds := w.sds[name := sd], sdQueue := {name});
    all := Take(start, steps, w, CreateSqb(name, sd), created, cfg);
    var fetched := created.(sdQueue := {}, sdWorker := Fetched(name, sd));
    all := Take(start, all, created, StartSqb(name), fetched, cfg);
    var deciding := fetched.(sdWorker := Deciding(name, sd, InjectValue(w.Apps()[sd.app], cfg)));
    all := Take(start, all, fetched, Decide, deciding, cfg);
  }

  lemma PutTwice(c: Status.World, s: string, first: Deployment, d: Deployment)
    ensures Put(Put(c, s, first), s, d) == Put(c, s, d)
  {
    assert c.c.deps[s := first][s := d] == c.c.deps[s := d];
  }

  /** The Deployment of what the worker holds is written. */
  lemma DeployOnce(start: World, steps: seq<Step>, w: World, name: string, seen: SqbDeployment, cfg: Config)
    returns (all: seq<Step>, d: Deployment)
    requires Executes(start, steps, w, cfg) && w.sdWorker == Deploying(name, seen) && seen.app in w.Apps()
    requires Tagged(w, name, seen) && DeploymentsTagged(w)
    ensures Executes(start, all, w.(core := Put(w.core, name, d), sdWorker := NoSqb), cfg)
    ensures PodInject(d) == InjectOf(seen) && SameTags(w.labels(name), d.labels) && d.finalizer
    ensures d.deleting == (name in w.Deps() && w.Deps()[name].deleting)
  {
    d := Generated(w, cfg);
    RegenerateTags(if name in w.Deps() then w.Deps()[name] else NO_DEPLOYMENT, seen, w.labels(name), cfg);
    all := Take(start, steps, w, Deploy, w.(core := Put(w.core, name, d), sdWorker := NoSqb), cfg);
  }

  /** The worker takes up an initialised SQBDeployment. */
  lemma FetchRound(start: World, steps: seq<Step>, w: World, name: string, seen: SqbDeployment, cfg: Config)
    returns (all: seq<Step>)
    requires Executes(start, steps, w, cfg) && w.sdQueue == {name} && w.sdWorker.NoSqb?
    requires name in w.sds && w.sds[name] == seen && Initialized(seen)
    ensures Executes(start, all, w.(sdQueue := {}, sdWorker := Deploying(name, seen)), cfg)
  {
    var fetched := w.(sdQueue := {}, sdWorker := Fetched(name, seen));
    all := Take(start, steps, w, StartSqb(name), fetched, cfg);
    all := Take(start, all, fetched, Decide, fetched.(sdWorker := Deploying(name, seen)), cfg);
  }

  /** Putting a Deployment with the right labels keeps all labels right. */
  lemma PutTagged(w: World, name: string, d: Deployment)
    requires DeploymentsTagged(w) && SameTags(w.labels(name), d.labels)
    ensures AllTagged(w.labels, Put(w.core, name, d).c.deps)
  {
  }

  /** A decided initialisation is written, and the Deployment is written twice: in the same
      reconcile, and in the one that the initialisation's own event causes. */
  lemma DeployRound(start: World, steps: seq<Step>, w: World, name: string, sd: SqbDeployment, value: string, cfg: Config)
    returns (all: seq<Step>, d: Deployment, v: World)
    requires Executes(start, steps, w, cfg) && w.sdQueue == {} && w.sdWorker == Deciding(name, sd, value)
    requires name in w.sds && w.sds[name] == sd && sd.app in w.Apps()
    requires Tagged(w, name, sd) && DeploymentsTagged(w)
    ensures Executes(start, all, v, cfg)
    ensures v == w.(sds := w.sds[name := WithInit(sd, value)], sdWorker := NoSqb, core := Put(w.core, name, d))
    ensures PodInject(d) == value && SameTags(w.labels(name), d.labels)
    ensures d.deleting == (name in w.Deps() && w.Deps()[name].deleting) && d.finalizer
  {
    var after := WithInit(sd, value);
    WithInitOf(sd, value);
    var w1 := w.(sds := w.sds[name := after], sdQueue := {name}, sdWorker := Deploying(name, after));
    all := Take(start, steps, w, Initialise, w1, cfg);
    var first;
    all, first := DeployOnce(start, all, w1, name, after, cfg);
    var w2 := w1.(core := Put(w.core, name, first), sdWorker := NoSqb);
    PutTagged(w, name, first);
    all := FetchRound(start, all, w2, name, after, cfg);
    all, d := DeployOnce(start, all, w2.(sdQueue := {}, sdWorker := Deploying(name, after)), name, after, cfg);
    PutTwice(w.core, name, first, d);
    v := w.(sds := w.sds[name := after], sdWorker := NoSqb, core := Put(w.core, name, d));
  }

  // ----- the Deployment controller takes its turn -----

  /** An application after the Deployment controller has written its status. */
  function Listing(app: Application, deps: map<string, Deployment>, name: string): Application {
    var view := Status.ViewOf(deps, Status.ApplicationSide, name);
    app.(planes := view.planes, mirrors := view.mirrors)
  }

  function Listed(c: Status.Cluster, app: string): Status.Cluster
    requires app in c.apps
  {
    c.(apps := c.apps[app := Listing(c.apps[app], c.deps, app)])
  }

  /** The states of the controller during an undisturbed reconcile of `d`, when there are no planes. */
  function Stage(c: Status.Cluster, d: string, app: string, n: nat): Status.World
    requires d in c.deps && app in c.apps
  {
    var seen := c.deps[d];
    var view := Status.ViewOf(c.deps, Status.ApplicationSide, app);
    var other := Status.ViewOf(c.deps, Status.PlaneSide, Status.NameFor(seen, Status.PlaneSide));
    if n == 0 then Status.World(c, {}, Status.Busy(d, seen, 0, Status.View(map[], map[])))
    else if n == 1 then Status.World(c, {}, Status.Busy(d, seen, 1, view))
    else if n == 2 then Status.World(Listed(c, app), {}, Status.Busy(d, seen, 2, view))
    else if n <= 4 then Status.World(Listed(c, app), {}, Status.Busy(d, seen, n, other))
    else Status.World(if seen.deleting then Status.DropFinalizer(Listed(c, app), d) else Listed(c, app), {}, Status.Idle)
  }

  lemma StageNext(c: Status.Cluster, d: string, app: string, n: nat)
    requires d in c.deps && HasLabel(c.deps[d].labels, APP_KEY, app)
    requires c.planes == map[] && app != "" && app in c.apps && !c.apps[app].deleting && n < 5
    ensures Aggregation.Next(Stage(c, d, app, n), Aggregation.Work) == Stage(c, d, app, n + 1)
  {
  }

  lemma StageTouches(c: Status.Cluster, d: string, app: string, n: nat)
    requires d in c.deps && app in c.apps && n < 5
    ensures Touched(Stage(c, d, app, n).c.apps, Stage(c, d, app, n + 1).c.apps)
         == if n == 1 && Listing(c.apps[app], c.deps, app) != c.apps[app] then {app} else {}
  {
  }

  lemma CoreRound(start: World, steps: seq<Step>, w: World, step: Aggregation.Step, core: Status.World, cfg: Config)
    returns (all: seq<Step>)
    requires Executes(start, steps, w, cfg) && Enabled(w, Core(step)) && core == Aggregation.Next(w.core, step)
    ensures Executes(start, all, WithCore(w, core), cfg)
  {
    all := Take(start, steps, w, Core(step), WithCore(w, core), cfg);
  }

  /** A step of the status protocol that leaves the applications alone. */
  lemma QuietRound(start: World, steps: seq<Step>, w: World, step: Aggregation.Step, core: Status.World, cfg: Config)
    returns (all: seq<Step>)
    requires Executes(start, steps, w, cfg) && Enabled(w, Core(step)) && core == Aggregation.Next(w.core, step)
    requires core.c.apps == w.Apps()
    ensures Executes(start, all, w.(core := core), cfg)
  {
    assert WithCore(w, core) == w.(core := core);
    all := CoreRound(start, steps, w, step, core, cfg);
  }

  /** `stages` are consecutive states of the Deployment controller at work. */
  predicate Consecutive(stages: seq<Status.World>) {
    forall i | 0 <= i < |stages| - 1 ::
      stages[i].worker.Busy? && stages[i + 1] == Aggregation.Next(stages[i], Aggregation.Work)
  }

  lemma {:induction false} WorkRounds(start: World, steps: seq<Step>, w: World, stages: seq<Status.World>,
                                      touched: set<string>, cfg: Config) returns (all: seq<Step>, v: World)
    requires Executes(start, steps, w, cfg) && Consecutive(stages) && stages != [] && w.core == stages[0]
    requires forall i | 0 <= i < |stages| - 1 :: Touched(stages[i].c.apps, stages[i + 1].c.apps) <= touched
    ensures Executes(start, all, v, cfg) && v == w.(core := stages[|stages| - 1], appQueue := v.appQueue)
    ensures w.appQueue <= v.appQueue <= w.appQueue + touched
    ensures forall i | 0 <= i < |stages| - 1 :: Touched(stages[i].c.apps, stages[i + 1].c.apps) <= v.appQueue
    decreases |stages|
  {
    all, v := steps, w;
    if |stages| > 1 {
      all := CoreRound(start, steps, w, Aggregation.Work, stages[1], cfg);
      var u, rest := WithCore(w, stages[1]), stages[1..];
      assert forall i | 0 <= i < |rest| :: rest[i] == stages[i + 1];
      all, v := WorkRounds(start, all, u, rest, touched, cfg);
      forall i | 0 <= i < |stages| - 1 ensures Touched(stages[i].c.apps, stages[i + 1].c.apps) <= v.appQueue {
        assert i > 0 ==> stages[i] == rest[i - 1] && stages[i + 1] == rest[i];
      }
    }
  }

  lemma AllStages(c: Status.Cluster, d: string, app: string) returns (stages: seq<Status.World>)
    requires d in c.deps && HasLabel(c.deps[d].labels, APP_KEY, app)
    requires c.planes == map[] && app != "" && app in c.apps && !c.apps[app].deleting
    ensures |stages| == 6 && stages[0] == Stage(c, d, app, 0) && stages[5] == Stage(c, d, app, 5)
    ensures Consecutive(stages)
    ensures var touched := if Listing(c.apps[app], c.deps, app) != c.apps[app] then {app} else {};
            && (forall n | 0 <= n < 5 :: Touched(stages[n].c.apps, stages[n + 1].c.apps) <= touched)
            && Touched(stages[1].c.apps, stages[2].c.apps) == touched
  {
    stages := seq(6, n requires 0 <= n < 6 => Stage(c, d, app, n));
    forall n: nat | n < 5
      ensures stages[n].worker.Busy? && stages[n + 1] == Aggregation.Next(stages[n], Aggregation.Work)
      ensures Touched(stages[n].c.apps, stages[n + 1].c.apps)
           == if n == 1 && Listing(c.apps[app], c.deps, app) != c.apps[app] then {app} else {}
    {
      StageNext(c, d, app, n);
      StageTouches(c, d, app, n);
    }
  }

  /** The Deployment controller works on a Deployment; its application has an event if its status changes. */
  lemma AggregateRound(start: World, steps: seq<Step>, w: World, c: Status.Cluster, d: string, app: string, cfg: Config)
    returns (all: seq<Step>)
    requires d in c.deps && HasLabel(c.deps[d].labels, APP_KEY, app)
    requires c.planes == map[] && app != "" && app in c.apps && !c.apps[app].deleting
    requires w.core == Stage(c, d, app, 0) && w.appQueue == {} && Executes(start, steps, w, cfg)
    ensures var touched := if Listing(c.apps[app], c.deps, app) != c.apps[app] then {app} else {};
            Executes(start, all, w.(core := Stage(c, d, app, 5), appQueue := touched), cfg)
  {
    var touched := if Listing(c.apps[app], c.deps, app) != c.apps[app] then {app} else {};
    var stages := AllStages(c, d, app);
    var v;
    all, v := WorkRounds(start, steps, w, stages, touched, cfg);
    assert v.appQueue == touched;
  }

  // ----- the run -----

  /** A first application is created and reconciled. */
  lemma CreationRound(start: World, app: string, value: Application, cfg: Config) returns (steps: seq<Step>)
    requires Initial(start) && value.planes == map[] && value.mirrors == map[]
    ensures Executes(start, steps, WithApplication(start, app, value), cfg)
  {
    var create := Core(Aggregation.CreateApplication(app, value));
    assert Executes(start, [], start, cfg);
    steps := Take(start, [], start, create, WithApplication(start, app, value).(appQueue := {app}), cfg);
    steps := ApplicationRound(start, steps, WithApplication(start, app, value).(appQueue := {app}), app, cfg);
    assert WithApplication(start, app, value).(appQueue := {app}).(appQueue := {}) == WithApplication(start, app, value);
  }

  /** An application is edited and fully reconciled while no SQBDeployment is stale. */
  lemma EditRound(start: World, steps: seq<Step>, w: World, app: string, value: Application, cfg: Config)
    returns (all: seq<Step>)
    requires Executes(start, steps, w, cfg) && w.appQueue == {} && w.appWorker.NoApplication?
    requires Aggregation.Enabled(w.core, Aggregation.EditApplication(app, value)) && value != w.Apps()[app]
    requires Stale(w.sds, app, InjectValue(value, cfg)) == {}
    ensures Executes(start, all, WithApplication(w, app, value), cfg)
  {
    var edit := Core(Aggregation.EditApplication(app, value));
    var v := WithApplication(w, app, value).(appQueue := {app});
    all := Take(start, steps, w, edit, v, cfg);
    all := ApplicationRound(start, all, v, app, cfg);
    assert v.(appQueue := {}) == WithApplication(w, app, value);
  }

  /** A first SQBDeployment of a reconciled application is created, initialised and deployed. */
  lemma BirthRound(start: World, steps: seq<Step>, w: World, name: string, sd: SqbDeployment, cfg: Config)
    returns (all: seq<Step>, d: Deployment, v: World)
    requires Executes(start, steps, w, cfg) && w.sdQueue == {} && w.sdWorker.NoSqb? && DeploymentsTagged(w)
    requires Enabled(w, CreateSqb(name, sd)) && sd.app in w.Apps()
    ensures var value := InjectValue(w.Apps()[sd.app], cfg);
            && Executes(start, all, v, cfg)
            && v == w.(sds := w.sds[name := WithInit(sd, value)], core := Put(w.core, name, d))
            && PodInject(d) == value && SameTags(w.labels(name), d.labels)
            && d.deleting == (name in w.Deps() && w.Deps()[name].deleting)
  {
    var value := InjectValue(w.Apps()[sd.app], cfg);
    all := DecideRound(start, steps, w, name, sd, cfg);
    var u := w.(sds := w.sds[name := sd], sdWorker := Deciding(name, sd, value));
    all, d, v := DeployRound(start, all, u, name, sd, value, cfg);
    assert w.sds[name := sd][name := WithInit(sd, value)] == w.sds[name := WithInit(sd, value)];
  }

  /** At rest, with the Deployment of the one SQBDeployment listed in its application's status. */
  predicate AtRest(w: World, name: string, app: string) {
    && Quiescent(w) && DeploymentsTagged(w) && w.sds.Keys == {name}
    && app in w.Apps() && name in w.Apps()[app].mirrors && name in w.Deps()
  }

  /** Everything at rest but for the event of one new Deployment, which its application does not list. */
  predicate Unreported(w: World, name: string, app: string) {
    && w.appQueue == {} && w.sdQueue == {} && w.appWorker.NoApplication? && w.sdWorker.NoSqb?
    && DeploymentsTagged(w) && w.sds.Keys == {name}
    && w.core.queue == {name} && w.core.worker.Idle? && w.core.c.planes == map[]
    && name in w.Deps() && !w.Deps()[name].deleting && HasLabel(w.Deps()[name].labels, APP_KEY, app)
    && app != "" && app in w.Apps() && !w.Apps()[app].deleting && w.Apps()[app].mirrors == map[]
  }

  lemma ListingChanges(w: World, name: string, app: string)
    requires Unreported(w, name, app)
    ensures name in Listing(w.Apps()[app], w.Deps(), app).mirrors
  {
    assert name in Status.LiveWith(w.Deps(), APP_KEY, app);
  }

  lemma ReportRound(start: World, steps: seq<Step>, w: World, name: string, app: string, cfg: Config)
    returns (all: seq<Step>)
    requires Executes(start, steps, w, cfg) && Unreported(w, name, app)
    ensures Executes(start, all, w.(core := Status.World(Listed(w.core.c, app), {}, Status.Idle), appQueue := {app}), cfg)
  {
    var c := w.core.c;
    ListingChanges(w, name, app);
    all := QuietRound(start, steps, w, Aggregation.Start(name), Stage(c, name, app, 0), cfg);
    all := AggregateRound(start, all, w.(core := Stage(c, name, app, 0)), c, name, app, cfg);
  }

  /** The Deployment controller lists a first Deployment, and the application controller hears of it. */
  lemma ListingRound(start: World, steps: seq<Step>, w: World, name: string, app: string, cfg: Config)
    returns (all: seq<Step>, v: World)
    requires Executes(start, steps, w, cfg) && Unreported(w, name, app)
    requires Stale(w.sds, app, InjectValue(w.Apps()[app], cfg)) == {}
    ensures Executes(start, all, v, cfg) && AtRest(v, name, app)
    ensures v == w.(core := Status.World(Listed(w.core.c, app), {}, Status.Idle))
  {
    ListingChanges(w, name, app);
    all := ReportRound(start, steps, w, name, app, cfg);
    v := w.(core := Status.World(Listed(w.core.c, app), {}, Status.Idle));
    all := ApplicationRound(start, all, v.(appQueue := {app}), app, cfg);
    assert v.(appQueue := {app}).(appQueue := {}) == v;
  }

  /** A first SQBDeployment of a first application comes to rest. */
  lemma FirstRun(start: World, name: string, app: Application, sd: SqbDeployment, cfg: Config)
    returns (steps: seq<Step>, w: World)
    requires Initial(start) && Enabled(start, CreateSqb(name, sd)) && sd.app != ""
    requires app.planes == map[] && app.mirrors == map[] && !app.deleting
    ensures Executes(start, steps, w, cfg) && AtRest(w, name, sd.app) && w.labels == start.labels
    ensures w.Apps()[sd.app].(planes := map[], mirrors := map[]) == app
  {
    steps := CreationRound(start, sd.app, app, cfg);
    var w1 := WithApplication(start, sd.app, app);
    var d, w2;
    steps, d, w2 := BirthRound(start, steps, w1, name, sd, cfg);
    WithInitOf(sd, InjectValue(app, cfg));
    assert SameTags(sd.labels, d.labels);
    steps, w := ListingRound(start, steps, w2, name, sd.app, cfg);
  }

  /** At rest, the SQBDeployment is removed and created again, and its application is edited and fully
      reconciled between the read and the write of the new initialisation. */
  lemma DisturbedRound(start: World, before: seq<Step>, w: World, name: string, sd: SqbDeployment, off: Application,
                       cfg: Config) returns (steps: seq<Step>)
    requires Executes(start, before, w, cfg) && AtRest(w, name, sd.app)
    requires Enabled(w.(sds := map[]), CreateSqb(name, sd))
    requires Aggregation.Enabled(w.core, Aggregation.EditApplication(sd.app, off)) && off != w.Apps()[sd.app]
    ensures Executes(start, steps, WithApplication(w, sd.app, off).(
                sds := map[name := sd], sdWorker := Deciding(name, sd, InjectValue(w.Apps()[sd.app], cfg))), cfg)
  {
    var w1 := w.(sds := map[]);
    assert w.sds - {name} == map[];
    steps := Take(start, before, w, RemoveSqb(name), w1, cfg);
    steps := DecideRound(start, steps, w1, name, sd, cfg);
    var w2 := w1.(sds := map[name := sd], sdWorker := Deciding(name, sd, InjectValue(w.Apps()[sd.app], cfg)));
    steps := EditRound(start, steps, w2, sd.app, off, cfg);
    assert WithApplication(w2, sd.app, off) == WithApplication(w, sd.app, off).(sds := w2.sds, sdWorker := w2.sdWorker);
  }

  /** What the new initialisation then leaves. */
  lemma RecreatedLost(w: World, name: string, sd: SqbDeployment, off: Application, d: Deployment, v: World, cfg: Config)
    requires AtRest(w, name, sd.app) && off.mirrors == w.Apps()[sd.app].mirrors
    requires InjectValue(w.Apps()[sd.app], cfg) != InjectValue(off, cfg)
    requires PodInject(d) == InjectValue(w.Apps()[sd.app], cfg)
    requires var u := WithApplication(w, sd.app, off);
             v == u.(sds := map[name := WithInit(sd, InjectValue(w.Apps()[sd.app], cfg))], core := Put(u.core, name, d))
    ensures Quiescent(v) && Differs(v, name, cfg)
    ensures name in v.Deps() && PodInject(v.Deps()[name]) == InjectOf(v.sds[name])
  {
    WithInitOf(sd, InjectValue(w.Apps()[sd.app], cfg));
  }

  /** Then everything comes to rest again, but SQBDeployment and pods keep the old setting. */
  lemma RecreationRound(start: World, before: seq<Step>, w: World, name: string, sd: SqbDeployment, off: Application,
                        cfg: Config) returns (steps: seq<Step>, v: World)
    requires Executes(start, before, w, cfg) && AtRest(w, name, sd.app)
    requires Enabled(w.(sds := map[]), CreateSqb(name, sd))
    requires Aggregation.Enabled(w.core, Aggregation.EditApplication(sd.app, off))
    requires InjectValue(w.Apps()[sd.app], cfg) != InjectValue(off, cfg)
    ensures Executes(start, steps, v, cfg) && Quiescent(v) && Differs(v, name, cfg)
    ensures name in v.Deps() && PodInject(v.Deps()[name]) == InjectOf(v.sds[name])
  {
    var value := InjectValue(w.Apps()[sd.app], cfg);
    steps := DisturbedRound(start, before, w, name, sd, off, cfg);
    var u := WithApplication(w, sd.app, off).(sds := map[name := sd], sdWorker := Deciding(name, sd, value));
    var d;
    steps, d, v := DeployRound(start, steps, u, name, sd, value, cfg);
    assert v.sds == map[name := WithInit(sd, value)];
    RecreatedLost(w, name, sd, off, d, v, cfg);
  }

  /** The setting is lost in a run from the beginning. */
  lemma RecreationLosesSetting(start: World, name: string, on: Application, off: Application, sd: SqbDeployment,
                               cfg: Config)
    returns (steps: seq<Step>, v: World)
    requires Initial(start) && Enabled(start, CreateSqb(name, sd)) && sd.app != ""
    requires on.planes == map[] && on.mirrors == map[] && !on.deleting
    requires InjectValue(on, cfg) != InjectValue(off, cfg)
    ensures Executes(start, steps, v, cfg) && Quiescent(v) && Differs(v, name, cfg)
    ensures name in v.Deps() && PodInject(v.Deps()[name]) == InjectOf(v.sds[name])
  {
    var w;
    steps, w := FirstRun(start, name, on, sd, cfg);
    var listed := w.Apps()[sd.app];
    var edited := off.(planes := listed.planes, mirrors := listed.mirrors);
    steps, v := RecreationRound(start, steps, w, name, sd, edited, cfg);
  }

  // ----- a Deployment deleted before it is listed -----

  /** An initialisation is decided, and then the application is edited and fully reconciled. */
  lemma DisturbedDecision(start: World, name: string, on: Application, off: Application, sd: SqbDeployment, cfg: Config)
    returns (steps: seq<Step>)
    requires Initial(start) && Enabled(start, CreateSqb(name, sd))
    requires on.planes == map[] && on.mirrors == map[] && off.planes == map[] && off.mirrors == map[]
    requires !on.deleting && !off.deleting && on != off
    ensures Executes(start, steps, WithApplication(start, sd.app, off).(
                sds := map[name := sd], sdWorker := Deciding(name, sd, InjectValue(on, cfg))), cfg)
  {
    steps := CreationRound(start, sd.app, on, cfg);
    var w1 := WithApplication(start, sd.app, on);
    steps := DecideRound(start, steps, w1, name, sd, cfg);
    var w2 := w1.(sds := map[name := sd], sdWorker := Deciding(name, sd, InjectValue(on, cfg)));
    steps := EditRound(start, steps, w2, sd.app, off, cfg);
    assert start.Apps()[sd.app := on][sd.app := off] == start.Apps()[sd.app := off];
  }

  /** The SQBDeployment is then initialised with the old setting. */
  lemma DisturbedBirth(start: World, name: string, on: Application, off: Application, sd: SqbDeployment, cfg: Config)
    returns (steps: seq<Step>, d: Deployment, v: World)
    requires Initial(start) && Enabled(start, CreateSqb(name, sd))
    requires on.planes == map[] && on.mirrors == map[] && off.planes == map[] && off.mirrors == map[]
    requires !on.deleting && !off.deleting && on != off
    ensures Executes(start, steps, v, cfg)
    ensures v == WithApplication(start, sd.app, off).(sds := map[name := WithInit(sd, InjectValue(on, cfg))],
                                                      core := Put(WithApplication(start, sd.app, off).core, name, d))
    ensures SameTags(start.labels(name), d.labels) && !d.deleting && d.finalizer
  {
    steps := DisturbedDecision(start, name, on, off, sd, cfg);
    var worker := Deciding(name, sd, InjectValue(on, cfg));
    var w := WithApplication(start, sd.app, off).(sds := map[name := sd], sdWorker := worker);
    steps, d, v := DeployRound(start, steps, w, name, sd, InjectValue(on, cfg), cfg);
  }

  /** Nothing is listed of a Deployment that is being deleted. */
  lemma DeletingNotListed(deps: map<string, Deployment>, d: string, app: Application, name: string)
    requires deps.Keys == {d} && deps[d].deleting && app.planes == map[] && app.mirrors == map[]
    ensures Listing(app, deps, name) == app
  {
    assert Status.LiveWith(deps, APP_KEY, name) == {};
    Aggregation.ViewEmptyIff(deps, Status.ApplicationSide, name);
  }

  lemma DeletingStage(c: Status.Cluster, d: string, app: string)
    requires c.deps.Keys == {d} && c.deps[d].deleting && app in c.apps && Listing(c.apps[app], c.deps, app) == c.apps[app]
    ensures Stage(c, d, app, 5) == Status.World(c.(deps := map[]), {}, Status.Idle)
  {
    assert c.apps[app := c.apps[app]] == c.apps;
    assert c.deps - {d} == map[];
  }

  /** Its deletion is requested before the Deployment controller has come to it. */
  lemma DeletionRound(start: World, steps: seq<Step>, w: World, name: string, app: string, cfg: Config)
    returns (all: seq<Step>)
    requires Executes(start, steps, w, cfg) && w.appQueue == {} && w.core.queue == {name} && w.core.worker.Idle?
    requires w.Deps().Keys == {name} && w.Deps()[name].finalizer && HasLabel(w.Deps()[name].labels, APP_KEY, app)
    requires w.core.c.planes == map[] && app != "" && app in w.Apps() && !w.Apps()[app].deleting
    requires w.Apps()[app].planes == map[] && w.Apps()[app].mirrors == map[]
    ensures Executes(start, all, w.(core := Status.World(w.core.c.(deps := map[]), {}, Status.Idle)), cfg)
  {
    var c := w.core.c.(deps := map[name := w.Deps()[name].(deleting := true)]);
    assert w.Deps()[name := w.Deps()[name].(deleting := true)] == c.deps;
    var requested := w.(core := Status.World(c, {name}, Status.Idle));
    all := QuietRound(start, steps, w, Aggregation.RequestDelete(name), requested.core, cfg);
    all := QuietRound(start, all, requested, Aggregation.Start(name), Stage(c, name, app, 0), cfg);
    DeletingNotListed(c.deps, name, w.Apps()[app], app);
    all := AggregateRound(start, all, w.(core := Stage(c, name, app, 0)), c, name, app, cfg);
    DeletingStage(c, name, app);
  }

  /** A run under a new name in which the settings differ for good, because the Deployment is deleted
      before its application lists it: no status write follows, and so no event of the application. */
  lemma DeletionLosesSetting(start: World, name: string, on: Application, off: Application, sd: SqbDeployment, cfg: Config)
    returns (steps: seq<Step>, v: World)
    requires Initial(start) && Enabled(start, CreateSqb(name, sd)) && sd.app != ""
    requires on.planes == map[] && on.mirrors == map[] && off.planes == map[] && off.mirrors == map[]
    requires !on.deleting && !off.deleting && InjectValue(on, cfg) != InjectValue(off, cfg)
    ensures Executes(start, steps, v, cfg) && Quiescent(v) && Differs(v, name, cfg) && name !in v.Deps()
  {
    var d, w;
    steps, d, w := DisturbedBirth(start, name, on, off, sd, cfg);
    WithInitOf(sd, InjectValue(on, cfg));
    assert SameTags(sd.labels, d.labels);
    steps := DeletionRound(start, steps, w, name, sd.app, cfg);
    v := w.(core := Status.World(w.core.c.(deps := map[]), {}, Status.Idle));
  }
}
