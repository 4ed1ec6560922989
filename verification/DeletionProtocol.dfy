/** Explicit deletion with the controllers running concurrently: the reads, lists and writes of a reconcile
    are steps of their own, so users and other controllers can act between what a controller has read and
    what it deletes. Whatever it deletes still traces back to a right checksum that a user put on it, on
    its application or on its plane. */
module DeletionProtocol {
  import opened Common
  import opened Objects
  import opened Workload
  import opened Istio
  import opened Deletion

  datatype Ref = ApplicationRef(name: string) | PlaneRef(name: string) | SqbRef(name: string)

  datatype Store = Store(apps: map<string, Application>, planes: map<string, Plane>, sds: SqbMap,
                         deps: map<string, Deployment>, services: set<string>)

  // ----- users -----

  datatype UserStep =
    | PutApplication(name: string, app: Application)
    | RemoveApplication(name: string)
    | PutPlane(name: string, plane: Plane)
    | RemovePlane(name: string)
    | PutSqb(name: string, sd: SqbDeployment)
    | RemoveSqb(name: string)
    | PutDeployment(name: string, deployment: Deployment)
    | RemoveDeployment(name: string)

  predicate SameOwners(a: SqbDeployment, b: SqbDeployment) {
    && (APP_KEY in a.labels <==> APP_KEY in b.labels) && Lookup(a.labels, APP_KEY) == Lookup(b.labels, APP_KEY)
    && (PLANE_KEY in a.labels <==> PLANE_KEY in b.labels) && Lookup(a.labels, PLANE_KEY) == Lookup(b.labels, PLANE_KEY)
  }

  /** The labels that name the owners of a stored SQBDeployment do not change. */
  predicate UserEnabled(c: Store, u: UserStep) {
    u.PutSqb? && u.name in c.sds ==> SameOwners(u.sd, c.sds[u.name])
  }

  function UserNext(c: Store, u: UserStep): Store {
    match u
    case PutApplication(a, app) => c.(apps := c.apps[a := app])
    case RemoveApplication(a) => c.(apps := c.apps - {a})
    case PutPlane(p, plane) => c.(planes := c.planes[p := plane])
    case RemovePlane(p) => c.(planes := c.planes - {p})
    case PutSqb(s, sd) => c.(sds := c.sds[s := sd])
    case RemoveSqb(s) => c.(sds := c.sds - {s})
    case PutDeployment(n, d) => c.(deps := c.deps[n := d])
    case RemoveDeployment(n) => c.(deps := c.deps - {n})
  }

  /** What a user newly confirms: the object was absent, or not confirmed, before. */
  function NewlyConfirmed(c: Store, u: UserStep, cfg: Config): set<Ref> {
    match u
    case PutApplication(a, app) =>
      if RightChecksum(a, app.annotations, cfg)
         && (a in c.apps ==> !RightChecksum(a, c.apps[a].annotations, cfg))
      then {ApplicationRef(a)} else {}
    case PutPlane(p, plane) =>
      if RightChecksum(p, plane.annotations, cfg)
         && (p in c.planes ==> !RightChecksum(p, c.planes[p].annotations, cfg))
      then {PlaneRef(p)} else {}
    case PutSqb(s, sd) =>
      if RightChecksum(s, sd.annotations, cfg) && (s in c.sds ==> !RightChecksum(s, c.sds[s].annotations, cfg))
      then {SqbRef(s)} else {}
    case _ => {}
  }

  // ----- the application and plane controllers -----

  /** `Read` has found the owner confirmed or not; `Listed` holds the SQBDeployments labelled with it, as
      listed, that are still to be written. */
  datatype OwnerWorker =
    | NoOwner
    | Read(name: string, confirmed: bool)
    | Listed(name: string, confirmed: bool, todo: SqbMap)

  /** A failure at any point is `End`. */
  datatype OwnerStep =
    | ReadOwner(name: string)
    | PutService
    | DeleteService
    | ListSqbs
    | MarkSqb(name: string)
    | SettleSqb(name: string, value: string)
    | DeleteOwner
    | End

  function RefOf(forPlane: bool, name: string): Ref {
    if forPlane then PlaneRef(name) else ApplicationRef(name)
  }

  function KeyOf(forPlane: bool): string {
    if forPlane then PLANE_KEY else APP_KEY
  }

  /** The annotations of each stored application, or plane. */
  function Owners(c: Store, forPlane: bool): map<string, StringMap> {
    if forPlane then map p | p in c.planes :: c.planes[p].annotations else map a | a in c.apps :: c.apps[a].annotations
  }

  /** The worker may update the listed SQBDeployment: it is stored as it was listed. */
  predicate Updatable(c: Store, o: OwnerWorker, s: string) {
    o.Listed? && s in o.todo && s in c.sds && c.sds[s] == o.todo[s]
  }

  /** A wrong checksum ends a reconcile before any step that writes. Marking an SQBDeployment without
      annotations panics. */
  predicate OwnerEnabled(c: Store, forPlane: bool, o: OwnerWorker, step: OwnerStep, cfg: Config) {
    match step
    case ReadOwner(n) =>
      var owners := Owners(c, forPlane); o.NoOwner? && n in owners && MarkOf(n, owners[n], cfg) != Wrong
    case PutService => !forPlane && o.Read? && !o.confirmed
    case DeleteService => !forPlane && o.Read? && o.confirmed
    case ListSqbs => o.Read?
    case MarkSqb(s) => Updatable(c, o, s) && o.confirmed && o.todo[s].annotations != map[]
    case SettleSqb(s, v) => !forPlane && Updatable(c, o, s) && !o.confirmed
    case DeleteOwner => o.Listed? && o.confirmed && o.todo == map[]
    case End => !o.NoOwner?
  }

  function OwnerStore(c: Store, forPlane: bool, o: OwnerWorker, step: OwnerStep, cfg: Config): Store
    requires OwnerEnabled(c, forPlane, o, step, cfg)
  {
    match step
    case PutService => c.(services := c.services + {o.name})
    case DeleteService => c.(services := c.services - {o.name})
    case MarkSqb(s) => c.(sds := c.sds[s := WithMark(s, c.sds[s], cfg)])
    case SettleSqb(s, v) => c.(sds := c.sds[s := WithInject(c.sds[s], v)])
    case DeleteOwner => if forPlane then c.(planes := c.planes - {o.name}) else c.(apps := c.apps - {o.name})
    case _ => c
  }

  function OwnerNext(c: Store, forPlane: bool, o: OwnerWorker, step: OwnerStep, cfg: Config): OwnerWorker
    requires OwnerEnabled(c, forPlane, o, step, cfg)
  {
    match step
    case ReadOwner(n) => Read(n, MarkOf(n, Owners(c, forPlane)[n], cfg) == Confirmed)
    case ListSqbs =>
      Listed(o.name, o.confirmed, map s | s in LabelledWith(c.sds, KeyOf(forPlane), o.name) :: c.sds[s])
    case MarkSqb(s) => o.(todo := o.todo - {s})
    case SettleSqb(s, v) => o.(todo := o.todo - {s})
    case DeleteOwner => NoOwner
    case End => NoOwner
    case _ => o
  }

  // ----- the SQBDeployment controller -----

  /** `Held` has read the SQBDeployment. */
  datatype SqbWorker = NoSqb | Held(name: string, seen: SqbDeployment)

  datatype SqbStep =
    | ReadSqb(name: string)
    | Initialise(value: string)
    | Deploy(deployment: Deployment)
    | DeleteDeployment
    | DeleteSqb
    | EndSqb

  function HeldMark(h: SqbWorker, cfg: Config): DeleteMark
    requires h.Held?
  {
    MarkOf(h.name, h.seen.annotations, cfg)
  }

  predicate SqbEnabled(c: Store, h: SqbWorker, step: SqbStep, cfg: Config) {
    match step
    case ReadSqb(s) => h.NoSqb? && s in c.sds
    case Initialise(v) => h.Held? && !Initialized(h.seen) && h.name in c.sds && c.sds[h.name] == h.seen
    case Deploy(d) =>
      h.Held? && HeldMark(h, cfg) == Unmarked && d.deleting == (h.name in c.deps && c.deps[h.name].deleting)
    case DeleteDeployment => h.Held? && HeldMark(h, cfg) == Confirmed
    case DeleteSqb => h.Held? && HeldMark(h, cfg) == Confirmed
    case EndSqb => h.Held?
  }

  function SqbStore(c: Store, h: SqbWorker, step: SqbStep, cfg: Config): Store
    requires SqbEnabled(c, h, step, cfg)
  {
    match step
    case Initialise(v) => c.(sds := c.sds[h.name := WithInit(h.seen, v)])
    case Deploy(d) => c.(deps := c.deps[h.name := d])
    case DeleteDeployment => c.(deps := Requested(c.deps, h.name))
    case DeleteSqb => c.(sds := c.sds - {h.name})
    case _ => c
  }

  function SqbNext(c: Store, h: SqbWorker, step: SqbStep, cfg: Config): SqbWorker
    requires SqbEnabled(c, h, step, cfg)
  {
    match step
    case ReadSqb(s) => Held(s, c.sds[s])
    case Initialise(v) => Held(h.name, WithInit(h.seen, v))
    case DeleteSqb => NoSqb
    case EndSqb => NoSqb
    case _ => h
  }

  // ----- all together -----

  /** `log` is what users have newly confirmed so far. */
  datatype State = State(c: Store, appWorker: OwnerWorker, planeWorker: OwnerWorker, sdWorker: SqbWorker, log: set<Ref>)
  {
    function Owner(forPlane: bool): OwnerWorker {
      if forPlane then planeWorker else appWorker
    }
  }

  /** `Finish` is the Deployment controller's: it removes a Deployment that is being deleted. */
  datatype Step =
    | ByUser(u: UserStep)
    | ByOwner(forPlane: bool, o: OwnerStep)
    | BySqb(q: SqbStep)
    | Finish(name: string)

  predicate Enabled(st: State, step: Step, cfg: Config) {
    match step
    case ByUser(u) => UserEnabled(st.c, u)
    case ByOwner(p, o) => OwnerEnabled(st.c, p, st.Owner(p), o, cfg)
    case BySqb(q) => SqbEnabled(st.c, st.sdWorker, q, cfg)
    case Finish(n) => n in st.c.deps && st.c.deps[n].deleting
  }

  function WithOwner(st: State, forPlane: bool, o: OwnerWorker): State {
    if forPlane then st.(planeWorker := o) else st.(appWorker := o)
  }

  function Next(st: State, step: Step, cfg: Config): State
    requires Enabled(st, step, cfg)
  {
    match step
    case ByUser(u) => st.(c := UserNext(st.c, u), log := st.log + NewlyConfirmed(st.c, u, cfg))
    case ByOwner(p, o) =>
      WithOwner(st.(c := OwnerStore(st.c, p, st.Owner(p), o, cfg)), p, OwnerNext(st.c, p, st.Owner(p), o, cfg))
    case BySqb(q) => st.(c := SqbStore(st.c, st.sdWorker, q, cfg), sdWorker := SqbNext(st.c, st.sdWorker, q, cfg))
    case Finish(n) => st.(c := st.c.(deps := st.c.deps - {n}))
  }

  // ----- where a mark comes from -----

  /** A user confirmed the SQBDeployment, or the application or plane that its labels name. */
  predicate Traceable(log: set<Ref>, s: string, sd: SqbDeployment) {
    || SqbRef(s) in log
    || (APP_KEY in sd.labels && ApplicationRef(sd.labels[APP_KEY]) in log)
    || (PLANE_KEY in sd.labels && PlaneRef(sd.labels[PLANE_KEY]) in log)
  }

  /** If it carries a confirmed mark, the mark is traceable. */
  predicate SqbTraced(log: set<Ref>, s: string, sd: SqbDeployment, cfg: Config) {
    MarkOf(s, sd.annotations, cfg) == Confirmed ==> Traceable(log, s, sd)
  }

  predicate SqbsTraced(log: set<Ref>, sds: SqbMap, cfg: Config) {
    forall s | s in sds :: SqbTraced(log, s, sds[s], cfg)
  }

  /** Confirmed owners in the store are logged. */
  predicate OwnersTraced(log: set<Ref>, c: Store, cfg: Config) {
    && (forall a | a in c.apps && MarkOf(a, c.apps[a].annotations, cfg) == Confirmed :: ApplicationRef(a) in log)
    && (forall p | p in c.planes && MarkOf(p, c.planes[p].annotations, cfg) == Confirmed :: PlaneRef(p) in log)
  }

  /** A worker that found its owner confirmed found what is logged, and lists what is labelled with it. */
  predicate WorkerTraced(log: set<Ref>, forPlane: bool, o: OwnerWorker) {
    && (!o.NoOwner? && o.confirmed ==> RefOf(forPlane, o.name) in log)
    && (o.Listed? ==> forall s | s in o.todo :: HasLabel(o.todo[s].labels, KeyOf(forPlane), o.name))
  }

  predicate HeldTraced(log: set<Ref>, h: SqbWorker, cfg: Config) {
    h.Held? ==> SqbTraced(log, h.name, h.seen, cfg)
  }

  predicate StoreTraced(log: set<Ref>, c: Store, cfg: Config) {
    OwnersTraced(log, c, cfg) && SqbsTraced(log, c.sds, cfg)
  }

  predicate Inv(st: State, cfg: Config) {
    && StoreTraced(st.log, st.c, cfg) && HeldTraced(st.log, st.sdWorker, cfg)
    && WorkerTraced(st.log, false, st.appWorker) && WorkerTraced(st.log, true, st.planeWorker)
  }

  lemma UserTraced(log: set<Ref>, c: Store, u: UserStep, cfg: Config)
    requires StoreTraced(log, c, cfg) && UserEnabled(c, u)
    ensures StoreTraced(log + NewlyConfirmed(c, u, cfg), UserNext(c, u), cfg)
  {
    var d, more := UserNext(c, u), log + NewlyConfirmed(c, u, cfg);
    forall s | s in d.sds ensures SqbTraced(more, s, d.sds[s], cfg) {
      assert s in c.sds ==> SqbTraced(log, s, c.sds[s], cfg);
    }
  }

  /** What is logged stays logged. */
  lemma LongerLog(log: set<Ref>, more: set<Ref>, st: State, cfg: Config)
    requires log <= more
    ensures HeldTraced(log, st.sdWorker, cfg) ==> HeldTraced(more, st.sdWorker, cfg)
    ensures forall p, o :: WorkerTraced(log, p, o) ==> WorkerTraced(more, p, o)
  {
  }

  /** A mark that a confirmed owner puts on an SQBDeployment labelled with it is traceable. */
  lemma OwnerSqbsTraced(log: set<Ref>, c: Store, forPlane: bool, o: OwnerWorker, step: OwnerStep, cfg: Config)
    requires SqbsTraced(log, c.sds, cfg) && WorkerTraced(log, forPlane, o) && OwnerEnabled(c, forPlane, o, step, cfg)
    ensures SqbsTraced(log, OwnerStore(c, forPlane, o, step, cfg).sds, cfg)
  {
    if step.MarkSqb? {
      assert Traceable(log, step.name, c.sds[step.name]);
    } else if step.SettleSqb? {
      MarkedStays(step.name, c.sds[step.name], cfg);
      assert SqbTraced(log, step.name, c.sds[step.name], cfg);
    }
  }

  lemma OwnerTraced(log: set<Ref>, c: Store, forPlane: bool, o: OwnerWorker, step: OwnerStep, cfg: Config)
    requires OwnersTraced(log, c, cfg) && WorkerTraced(log, forPlane, o) && OwnerEnabled(c, forPlane, o, step, cfg)
    ensures OwnersTraced(log, OwnerStore(c, forPlane, o, step, cfg), cfg)
    ensures WorkerTraced(log, forPlane, OwnerNext(c, forPlane, o, step, cfg))
  {
  }

  lemma SqbStepTraced(log: set<Ref>, c: Store, h: SqbWorker, step: SqbStep, cfg: Config)
    requires StoreTraced(log, c, cfg) && HeldTraced(log, h, cfg) && SqbEnabled(c, h, step, cfg)
    ensures StoreTraced(log, SqbStore(c, h, step, cfg), cfg) && HeldTraced(log, SqbNext(c, h, step, cfg), cfg)
  {
    if step.Initialise? {
      MarkedStays(h.name, h.seen, cfg);
    } else if step.ReadSqb? {
      assert SqbTraced(log, step.name, c.sds[step.name], cfg);
    }
  }

  lemma StepKeepsInv(st: State, step: Step, cfg: Config)
    requires Inv(st, cfg) && Enabled(st, step, cfg)
    ensures Inv(Next(st, step, cfg), cfg)
  {
    match step
    case ByUser(u) =>
      UserTraced(st.log, st.c, u, cfg);
      LongerLog(st.log, st.log + NewlyConfirmed(st.c, u, cfg), st, cfg);
    case ByOwner(p, o) =>
      OwnerSqbsTraced(st.log, st.c, p, st.Owner(p), o, cfg);
      OwnerTraced(st.log, st.c, p, st.Owner(p), o, cfg);
    case BySqb(q) => SqbStepTraced(st.log, st.c, st.sdWorker, q, cfg);
    case Finish(n) =>
  }

  // ----- whole runs -----

  predicate Initial(st: State) {
    st == State(Store(map[], map[], map[], map[], {}), NoOwner, NoOwner, NoSqb, {})
  }

  predicate Executes(st: State, steps: seq<Step>, v: State, cfg: Config)
    decreases |steps|
  {
    if steps == [] then v == st
    else Enabled(st, steps[0], cfg) && Executes(Next(st, steps[0], cfg), steps[1..], v, cfg)
  }

  lemma {:induction false} RunKeepsInv(st: State, steps: seq<Step>, v: State, cfg: Config)
    requires Inv(st, cfg) && Executes(st, steps, v, cfg)
    ensures Inv(v, cfg)
    decreases |steps|
  {
    if steps != [] {
      StepKeepsInv(st, steps[0], cfg);
      RunKeepsInv(Next(st, steps[0], cfg), steps[1..], v, cfg);
    }
  }

  /** Some step of the run is a user's, and newly confirms the object. */
  predicate ConfirmedIn(st: State, steps: seq<Step>, ref: Ref, cfg: Config)
    decreases |steps|
  {
    && steps != [] && Enabled(st, steps[0], cfg)
    && (|| (steps[0].ByUser? && ref in NewlyConfirmed(st.c, steps[0].u, cfg))
        || ConfirmedIn(Next(st, steps[0], cfg), steps[1..], ref, cfg))
  }

  /** The log says exactly what users have newly confirmed in the run. */
  lemma {:induction false} LogIff(st: State, steps: seq<Step>, v: State, ref: Ref, cfg: Config)
    requires Executes(st, steps, v, cfg)
    ensures ref in v.log <==> ref in st.log || ConfirmedIn(st, steps, ref, cfg)
    decreases |steps|
  {
    if steps != [] {
      LogIff(Next(st, steps[0], cfg), steps[1..], v, ref, cfg);
    }
  }

  predicate TracedIn(start: State, steps: seq<Step>, s: string, sd: SqbDeployment, cfg: Config) {
    || ConfirmedIn(start, steps, SqbRef(s), cfg)
    || (APP_KEY in sd.labels && ConfirmedIn(start, steps, ApplicationRef(sd.labels[APP_KEY]), cfg))
    || (PLANE_KEY in sd.labels && ConfirmedIn(start, steps, PlaneRef(sd.labels[PLANE_KEY]), cfg))
  }

  /** Delete provenance, request by request: after any run of users and concurrent, failing controllers,
      if the operator now deletes a Service, an application or a plane, a user has confirmed that
      application or plane; and if it deletes an SQBDeployment or its Deployment, a user has confirmed that
      SQBDeployment, or the application or plane named by its labels as the operator read them. */
  lemma SplitProvenance(start: State, steps: seq<Step>, st: State, step: Step, cfg: Config)
    requires Initial(start) && Executes(start, steps, st, cfg) && Enabled(st, step, cfg)
    ensures step.ByOwner? && (step.o.DeleteService? || step.o.DeleteOwner?) ==>
              ConfirmedIn(start, steps, RefOf(step.forPlane, st.Owner(step.forPlane).name), cfg)
    ensures step.BySqb? && (step.q.DeleteDeployment? || step.q.DeleteSqb?) ==>
              TracedIn(start, steps, st.sdWorker.name, st.sdWorker.seen, cfg)
  {
    RunKeepsInv(start, steps, st, cfg);
    forall ref ensures ref in st.log ==> ConfirmedIn(start, steps, ref, cfg) {
      LogIff(start, steps, st, ref, cfg);
    }
  }

  /** Those are all the deletions there are: every other step of the operator keeps every Service,
      application, plane and SQBDeployment, and every Deployment that is not being deleted already. */
  lemma NoOtherDeletion(st: State, step: Step, cfg: Config)
    requires Enabled(st, step, cfg) && !step.ByUser?
    ensures var c, d := st.c, Next(st, step, cfg).c;
            && (!(step.ByOwner? && step.o.DeleteService?) ==> c.services <= d.services)
            && (!(step.ByOwner? && step.o.DeleteOwner?) ==> c.apps.Keys <= d.apps.Keys && c.planes.Keys <= d.planes.Keys)
            && (!(step.BySqb? && step.q.DeleteSqb?) ==> c.sds.Keys <= d.sds.Keys)
            && (!(step.BySqb? && step.q.DeleteDeployment?) ==> LiveKept(c, d))
  {
    if step.ByOwner? {
      OwnerDeletes(st.c, step.forPlane, st.Owner(step.forPlane), step.o, cfg);
    } else if step.BySqb? {
      SqbDeletes(st.c, st.sdWorker, step.q, cfg);
    }
  }

  /** Every Deployment that is not being deleted stays so. */
  predicate LiveKept(c: Store, d: Store) {
    forall n | n in c.deps && !c.deps[n].deleting :: n in d.deps && !d.deps[n].deleting
  }

  lemma OwnerDeletes(c: Store, forPlane: bool, o: OwnerWorker, step: OwnerStep, cfg: Config)
    requires OwnerEnabled(c, forPlane, o, step, cfg)
    ensures var d := OwnerStore(c, forPlane, o, step, cfg);
            && (!step.DeleteService? ==> c.services <= d.services) && c.sds.Keys <= d.sds.Keys && LiveKept(c, d)
            && (!step.DeleteOwner? ==> c.apps.Keys <= d.apps.Keys && c.planes.Keys <= d.planes.Keys)
  {
  }

  lemma SqbDeletes(c: Store, h: SqbWorker, step: SqbStep, cfg: Config)
    requires SqbEnabled(c, h, step, cfg)
    ensures var d := SqbStore(c, h, step, cfg);
            && d.services == c.services && d.apps == c.apps && d.planes == c.planes
            && (!step.DeleteSqb? ==> c.sds.Keys <= d.sds.Keys) && (!step.DeleteDeployment? ==> LiveKept(c, d))
  {
  }

  // ----- what undisturbed steps do -----

  lemma {:induction false} Then(start: State, steps: seq<Step>, st: State, step: Step, cfg: Config)
    requires Executes(start, steps, st, cfg) && Enabled(st, step, cfg)
    ensures Executes(start, steps + [step], Next(st, step, cfg), cfg)
    decreases |steps|
  {
    if steps == [] {
      assert [step][1..] == [];
    } else {
      assert (steps + [step])[1..] == steps[1..] + [step];
      Then(Next(start, steps[0], cfg), steps[1..], st, step, cfg);
    }
  }

  lemma MarkedRest(sds: SqbMap, names: set<string>, s: string, cfg: Config)
    requires s in names && s in sds
    ensures Marked(sds[s := WithMark(s, sds[s], cfg)], names - {s}, cfg) == Marked(sds, names, cfg)
  {
  }

  function MarkedOne(st: State, forPlane: bool, name: string, names: set<string>, s: string, cfg: Config): State
    requires s in names && names <= st.c.sds.Keys
  {
    var sds := st.c.sds[s := WithMark(s, st.c.sds[s], cfg)];
    WithOwner(st.(c := st.c.(sds := sds)), forPlane, Listed(name, true, map t | t in names - {s} :: sds[t]))
  }

  lemma MarkOne(st: State, forPlane: bool, name: string, names: set<string>, s: string, cfg: Config)
    requires s in names && names <= st.c.sds.Keys && st.c.sds[s].annotations != map[]
    requires st.Owner(forPlane) == Listed(name, true, map t | t in names :: st.c.sds[t])
    ensures Enabled(st, ByOwner(forPlane, MarkSqb(s)), cfg)
    ensures Next(st, ByOwner(forPlane, MarkSqb(s)), cfg) == MarkedOne(st, forPlane, name, names, s, cfg)
  {
    var sds := st.c.sds[s := WithMark(s, st.c.sds[s], cfg)];
    assert st.Owner(forPlane).todo - {s} == map t | t in names - {s} :: sds[t];
  }

  /** Undisturbed, the marking of a confirmed owner has the effect of the handler's loop. */
  lemma {:induction false} MarkRound(start: State, steps: seq<Step>, st: State, forPlane: bool, name: string,
                                     names: set<string>, cfg: Config) returns (all: seq<Step>)
    requires Executes(start, steps, st, cfg) && names <= st.c.sds.Keys && Bare(st.c.sds, names) == {}
    requires st.Owner(forPlane) == Listed(name, true, map s | s in names :: st.c.sds[s])
    ensures Executes(start, all, WithOwner(st.(c := st.c.(sds := Marked(st.c.sds, names, cfg))), forPlane,
                                           Listed(name, true, map[])), cfg)
    decreases names
  {
    if names == {} {
      MarkedNone(st.c.sds, cfg);
      all := steps;
    } else {
      var s :| s in names;
      assert s !in Bare(st.c.sds, names);
      MarkOne(st, forPlane, name, names, s, cfg);
      Then(start, steps, st, ByOwner(forPlane, MarkSqb(s)), cfg);
      var next := MarkedOne(st, forPlane, name, names, s, cfg);
      MarkedRest(st.c.sds, names, s, cfg);
      assert Bare(next.c.sds, names - {s}) <= Bare(st.c.sds, names);
      all := MarkRound(start, steps + [ByOwner(forPlane, MarkSqb(s))], next, forPlane, name, names - {s}, cfg);
    }
  }

  lemma Take(start: State, steps: seq<Step>, st: State, step: Step, next: State, cfg: Config) returns (all: seq<Step>)
    requires Executes(start, steps, st, cfg) && Enabled(st, step, cfg) && Next(st, step, cfg) == next
    ensures Executes(start, all, next, cfg)
  {
    Then(start, steps, st, step, cfg);
    all := steps + [step];
  }

  /** Undisturbed, the requests of the plane controller have the effect of its handler. */
  lemma UndisturbedPlane(st: State, p: string, cfg: Config) returns (steps: seq<Step>)
    requires st.planeWorker.NoOwner? && p in st.c.planes && RightChecksum(p, st.c.planes[p].annotations, cfg)
    requires Bare(st.c.sds, LabelledWith(st.c.sds, PLANE_KEY, p)) == {}
    ensures var names := LabelledWith(st.c.sds, PLANE_KEY, p);
            Executes(st, steps, st.(c := st.c.(sds := Marked(st.c.sds, names, cfg), planes := st.c.planes - {p})), cfg)
  {
    var names := LabelledWith(st.c.sds, PLANE_KEY, p);
    var st1 := st.(planeWorker := Read(p, true));
    var st2 := st.(planeWorker := Listed(p, true, map s | s in names :: st.c.sds[s]));
    assert Executes(st, [], st, cfg);
    steps := Take(st, [], st, ByOwner(true, ReadOwner(p)), st1, cfg);
    steps := Take(st, steps, st1, ByOwner(true, ListSqbs), st2, cfg);
    steps := MarkRound(st, steps, st2, true, p, names, cfg);
    var st3 := st.(c := st.c.(sds := Marked(st.c.sds, names, cfg)), planeWorker := Listed(p, true, map[]));
    steps := Take(st, steps, st3, ByOwner(true, DeleteOwner), st3.(c := st3.c.(planes := st.c.planes - {p}),
                                                                   planeWorker := NoOwner), cfg);
  }

  lemma MarkedApplication(st: State, a: string, cfg: Config) returns (steps: seq<Step>, v: State)
    requires st.appWorker.NoOwner? && a in st.c.apps && RightChecksum(a, st.c.apps[a].annotations, cfg)
    requires Bare(st.c.sds, LabelledWith(st.c.sds, APP_KEY, a)) == {}
    ensures Executes(st, steps, v, cfg)
    ensures var sds := Marked(st.c.sds, LabelledWith(st.c.sds, APP_KEY, a), cfg);
            v == st.(c := st.c.(services := st.c.services - {a}, sds := sds), appWorker := Listed(a, true, map[]))
  {
    var names := LabelledWith(st.c.sds, APP_KEY, a);
    var st1 := st.(appWorker := Read(a, true));
    var st2 := st1.(c := st.c.(services := st.c.services - {a}));
    var st3 := st2.(appWorker := Listed(a, true, map s | s in names :: st.c.sds[s]));
    assert Executes(st, [], st, cfg);
    steps := Take(st, [], st, ByOwner(false, ReadOwner(a)), st1, cfg);
    steps := Take(st, steps, st1, ByOwner(false, DeleteService), st2, cfg);
    steps := Take(st, steps, st2, ByOwner(false, ListSqbs), st3, cfg);
    steps := MarkRound(st, steps, st3, false, a, names, cfg);
    v := WithOwner(st3.(c := st3.c.(sds := Marked(st3.c.sds, names, cfg))), false, Listed(a, true, map[]));
  }

  /** So have those of the application controller. */
  lemma UndisturbedApplication(st: State, a: string, cfg: Config) returns (steps: seq<Step>)
    requires st.appWorker.NoOwner? && a in st.c.apps && RightChecksum(a, st.c.apps[a].annotations, cfg)
    requires Bare(st.c.sds, LabelledWith(st.c.sds, APP_KEY, a)) == {}
    ensures var sds := Marked(st.c.sds, LabelledWith(st.c.sds, APP_KEY, a), cfg);
            Executes(st, steps, st.(c := st.c.(services := st.c.services - {a}, sds := sds, apps := st.c.apps - {a})), cfg)
  {
    var names := LabelledWith(st.c.sds, APP_KEY, a);
    var marked;
    steps, marked := MarkedApplication(st, a, cfg);
    var v := st.(c := st.c.(services := st.c.services - {a}, sds := Marked(st.c.sds, names, cfg), apps := st.c.apps - {a}));
    steps := Take(st, steps, marked, ByOwner(false, DeleteOwner), v, cfg);
  }

  /** And those of the SQBDeployment controller, for one with the right checksum. */
  lemma UndisturbedDeletion(st: State, s: string, cfg: Config) returns (steps: seq<Step>)
    requires st.sdWorker.NoSqb? && s in st.c.sds && RightChecksum(s, st.c.sds[s].annotations, cfg)
    ensures Executes(st, steps, st.(c := st.c.(deps := Requested(st.c.deps, s), sds := st.c.sds - {s})), cfg)
  {
    var st1 := st.(sdWorker := Held(s, st.c.sds[s]));
    var st2 := st1.(c := st.c.(deps := Requested(st.c.deps, s)));
    assert Executes(st, [], st, cfg);
    steps := Take(st, [], st, BySqb(ReadSqb(s)), st1, cfg);
    steps := Take(st, steps, st1, BySqb(DeleteDeployment), st2, cfg);
    steps := Take(st, steps, st2, BySqb(DeleteSqb), st2.(c := st2.c.(sds := st.c.sds - {s}), sdWorker := NoSqb), cfg);
  }
}
