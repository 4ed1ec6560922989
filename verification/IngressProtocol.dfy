/** The two ingress controllers over one store, running concurrently. Each request is a step of its
    own: the application controller writes its domains one by one, lists the ingresses, lists the
    SQBDeployments and deletes what it collects one by one, while users create, edit and remove
    SQBDeployments, open and close their public entries and move them from one ingress class to
    another, and the SQBDeployment controller writes and deletes the entries. */
module IngressProtocol {
  import opened Common
  import opened Names
  import opened Objects
  import opened Ingresses
  import opened IngressLaws

  /** The applications do not change. `owners` gives the application that goes with the name of an
      SQBDeployment, and `classes` are the ingress classes that public entries may use. */
  datatype World = World(apps: map<string, Application>, owners: map<string, string>, classes: set<string>,
                         cfg: Config)

  type SqbMap = map<string, SqbDeployment>

  function Domains(w: World, a: string): seq<Domain>
    requires a in w.apps
  {
    FillHosts(a, w.apps[a].domains, w.cfg)
  }

  predicate DomainOf(w: World, a: string, key: string) {
    a in w.apps && key in DomainKeys(a, Domains(w, a))
  }

  predicate Entry(w: World, s: string, cls: string) {
    s in w.owners && cls in w.classes
  }

  /** The name of the public entry of `s` in a class. */
  function Key(w: World, s: string, cls: string): string
    requires s in w.owners
  {
    IngressName(w.owners[s], cls, DomainName(w.cfg, s, cls))
  }

  /** The SQBDeployment belongs to the application that goes with its name, and uses one of the classes. */
  predicate Fits(w: World, s: string, sd: SqbDeployment) {
    s in w.owners && sd.app == w.owners[s] && HasLabel(sd.labels, APP_KEY, sd.app) && SpecialIngress(sd, w.cfg) in w.classes
  }

  // ----- names that keep apart -----

  /** The hypotheses of non-interference: every application serves; names and classes are dot-free, so
      that ingress names are injective; the host templates of the entry classes have a star, so that
      entry hosts are injective; and no domain uses the entry host of an SQBDeployment of the application
      in the same class. */
  ghost predicate Separated(w: World) {
    && (forall a | a in w.apps ::
          && Serving(a, w.apps[a], w.cfg) && DotFree(a)
          && forall i | 0 <= i < |w.apps[a].domains| :: DotFree(w.apps[a].domains[i].cls))
    && (forall s | s in w.owners :: w.owners[s] in w.apps)
    && (forall c | c in w.classes :: DotFree(c) && c in w.cfg.domainPostfix && '*' in w.cfg.domainPostfix[c])
    && (forall s, c, i | Entry(w, s, c) && 0 <= i < |w.apps[w.owners[s]].domains| ::
          var d := Domains(w, w.owners[s])[i]; !(d.cls == c && d.host == DomainName(w.cfg, s, c)))
  }

  /** What these hypotheses are for: entries and domains have names of their own. */
  ghost predicate Apart(w: World) {
    && (forall s, c, t, d | Entry(w, s, c) && Entry(w, t, d) && Key(w, s, c) == Key(w, t, d) :: s == t && c == d)
    && (forall s, c, a | Entry(w, s, c) && a in w.apps :: !DomainOf(w, a, Key(w, s, c)))
    && (forall a, b, key | DomainOf(w, a, key) && DomainOf(w, b, key) :: a == b)
  }

  lemma EntryKeysDistinct(w: World, s: string, c: string, t: string, d: string)
    requires Separated(w) && Entry(w, s, c) && Entry(w, t, d) && Key(w, s, c) == Key(w, t, d)
    ensures s == t && c == d
  {
    IngressNameInjective(w.owners[s], c, DomainName(w.cfg, s, c), w.owners[t], d, DomainName(w.cfg, t, d));
    ReplaceStarInjective(w.cfg.domainPostfix[c], s, t);
  }

  lemma EntryKeyIsNoDomain(w: World, s: string, c: string, a: string)
    requires Separated(w) && Entry(w, s, c) && a in w.apps
    ensures !DomainOf(w, a, Key(w, s, c))
  {
    var ds := Domains(w, a);
    forall i | 0 <= i < |ds| ensures DomainKey(a, ds[i]) != Key(w, s, c) {
      assert DotFree(w.apps[a].domains[i].cls);
      IngressNameInjective(a, ds[i].cls, ds[i].host, w.owners[s], c, DomainName(w.cfg, s, c));
      if a == w.owners[s] {
        var d := Domains(w, w.owners[s])[i];
        assert !(d.cls == c && d.host == DomainName(w.cfg, s, c));
      }
    }
  }

  lemma DomainKeysDisjoint(w: World, a: string, b: string, key: string)
    requires Separated(w) && DomainOf(w, a, key) && DomainOf(w, b, key)
    ensures a == b
  {
    var ds, es := Domains(w, a), Domains(w, b);
    var i :| 0 <= i < |ds| && DomainKey(a, ds[i]) == key;
    var j :| 0 <= j < |es| && DomainKey(b, es[j]) == key;
    assert DotFree(w.apps[a].domains[i].cls) && DotFree(w.apps[b].domains[j].cls);
    IngressNameInjective(a, ds[i].cls, ds[i].host, b, es[j].cls, es[j].host);
  }

  lemma SeparatedApart(w: World)
    requires Separated(w)
    ensures Apart(w)
  {
    forall s, c, t, d | Entry(w, s, c) && Entry(w, t, d) && Key(w, s, c) == Key(w, t, d) ensures s == t && c == d {
      EntryKeysDistinct(w, s, c, t, d);
    }
    forall s, c, a | Entry(w, s, c) && a in w.apps ensures !DomainOf(w, a, Key(w, s, c)) {
      EntryKeyIsNoDomain(w, s, c, a);
    }
    forall a, b, key | DomainOf(w, a, key) && DomainOf(w, b, key) ensures a == b {
      DomainKeysDisjoint(w, a, b, key);
    }
  }

  // ----- the protocol -----

  /** `Writing` has written the first `next` domains; `Listed` holds the names of the generated ingresses
      it listed; `Deleting` holds those it has decided to delete. */
  datatype ApplicationWorker =
    | NoApplication
    | Writing(app: string, next: nat)
    | Listed(app: string, names: set<string>)
    | Deleting(app: string, todo: set<string>)

  /** `Holding` has read the SQBDeployment and is about to write or delete its entry. */
  datatype SqbWorker = NoSqb | Holding(name: string, seen: SqbDeployment)

  datatype State = State(w: World, sds: SqbMap, ingresses: IngressMap, appQueue: set<string>, sdQueue: set<string>,
                         appWorker: ApplicationWorker, sdWorker: SqbWorker)
  {
    function ClassOf(s: string): string
      requires s in sds
    {
      SpecialIngress(sds[s], w.cfg)
    }
  }

  /** `PutSqb` creates or edits. */
  datatype Step =
    | PutSqb(name: string, sd: SqbDeployment)
    | RemoveSqb(name: string)
    | Resync(app: string)
    | StartApplication(app: string)
    | PutDomain
    | ListIngresses
    | ListSqbs
    | DeleteOne(key: string)
    | FinishApplication
    | FailApplication
    | StartSqb(name: string)
    | ApplySqb
    | FailSqb

  predicate Enabled(st: State, step: Step) {
    match step
    case PutSqb(s, sd) => Fits(st.w, s, sd)
    case RemoveSqb(s) => true
    case Resync(a) => a in st.w.apps
    case StartApplication(a) => a in st.appQueue && a in st.w.apps && st.appWorker.NoApplication?
    case PutDomain =>
      st.appWorker.Writing? && st.appWorker.app in st.w.apps && st.appWorker.next < |Domains(st.w, st.appWorker.app)|
    case ListIngresses =>
      st.appWorker.Writing? && st.appWorker.app in st.w.apps && st.appWorker.next == |Domains(st.w, st.appWorker.app)|
    case ListSqbs => st.appWorker.Listed? && st.appWorker.app in st.w.apps
    case DeleteOne(key) => st.appWorker.Deleting? && key in st.appWorker.todo
    case FinishApplication => st.appWorker.Deleting? && st.appWorker.todo == {}
    case FailApplication => !st.appWorker.NoApplication?
    case StartSqb(s) => s in st.sdQueue && st.sdWorker.NoSqb?
    case ApplySqb => st.sdWorker.Holding?
    case FailSqb => st.sdWorker.Holding?
  }

  /** What the application controller deletes: generated ingresses it listed that are neither its
      domains nor, at the later list, public entries. */
  function Decided(w: World, sds: SqbMap, a: string, names: set<string>): set<string>
    requires a in w.apps
  {
    names - DomainKeys(a, Domains(w, a)) - EntryKeys(a, sds, w.cfg)
  }

  function Next(st: State, step: Step): State
    requires Enabled(st, step)
  {
    match step
    case PutSqb(s, sd) => st.(sds := st.sds[s := sd], sdQueue := st.sdQueue + {s})
    case RemoveSqb(s) => st.(sds := st.sds - {s})
    case Resync(a) => st.(appQueue := st.appQueue + {a})
    case StartApplication(a) => st.(appQueue := st.appQueue - {a}, appWorker := Writing(a, 0))
    case PutDomain =>
      var a, i := st.appWorker.app, st.appWorker.next;
      st.(ingresses := WriteDomain(st.ingresses, a, st.w.apps[a], Domains(st.w, a)[i], st.w.cfg),
          appWorker := Writing(a, i + 1))
    case ListIngresses =>
      var a := st.appWorker.app;
      st.(appWorker := Listed(a, Collected(st.ingresses, a, {})))
    case ListSqbs =>
      var a := st.appWorker.app;
      st.(appWorker := Deleting(a, Decided(st.w, st.sds, a, st.appWorker.names)))
    case DeleteOne(key) =>
      st.(ingresses := st.ingresses - {key}, appWorker := Deleting(st.appWorker.app, st.appWorker.todo - {key}))
    case FinishApplication => st.(appWorker := NoApplication)
    case FailApplication => st.(appQueue := st.appQueue + {st.appWorker.app}, appWorker := NoApplication)
    case StartSqb(s) =>
      st.(sdQueue := st.sdQueue - {s}, sdWorker := if s in st.sds then Holding(s, st.sds[s]) else NoSqb)
    case ApplySqb =>
      st.(ingresses := DeploymentStep(st.ingresses, st.sdWorker.name, st.sdWorker.seen, st.w.cfg), sdWorker := NoSqb)
    case FailSqb => st.(sdQueue := st.sdQueue + {st.sdWorker.name}, sdWorker := NoSqb)
  }

  // ----- the invariant -----

  /** If the ingress belongs to any application, it is `a`. */
  predicate OwnedOrFree(ingresses: IngressMap, key: string, a: string) {
    key in ingresses && APP_KEY in ingresses[key].labels ==> ingresses[key].labels[APP_KEY] == a
  }

  /** No ingress under the name of an entry or domain belongs to another application. */
  ghost predicate NamesFree(w: World, ingresses: IngressMap) {
    && (forall s, c | Entry(w, s, c) :: OwnedOrFree(ingresses, Key(w, s, c), w.owners[s]))
    && (forall a, key | DomainOf(w, a, key) :: OwnedOrFree(ingresses, key, a))
  }

  /** The names that the application controller has listed or is about to delete. */
  function Candidates(worker: ApplicationWorker): set<string> {
    match worker
    case Listed(_, names) => names
    case Deleting(_, todo) => todo
    case _ => {}
  }

  /** The candidates are nobody else's entries, and no domains that could be deleted. */
  ghost predicate CandidatesOk(w: World, worker: ApplicationWorker) {
    !worker.NoApplication? ==>
      && worker.app in w.apps
      && (forall s, c | Entry(w, s, c) && Key(w, s, c) in Candidates(worker) :: w.owners[s] == worker.app)
      && (forall a, key | DomainOf(w, a, key) && key in Candidates(worker) :: a == worker.app && worker.Listed?)
  }

  /** What the SQBDeployment worker holds is what is stored, as far as the entry goes, or is queued again. */
  predicate HeldOk(st: State) {
    st.sdWorker.Holding? ==>
      var s, seen := st.sdWorker.name, st.sdWorker.seen;
      && Fits(st.w, s, seen)
      && (s in st.sds && s !in st.sdQueue ==>
            && (Entering(s, seen, st.w.cfg) <==> Entering(s, st.sds[s], st.w.cfg))
            && SpecialIngress(seen, st.w.cfg) == st.ClassOf(s))
  }

  predicate SdsFit(w: World, sds: SqbMap) {
    forall s | s in sds :: Fits(w, s, sds[s])
  }

  ghost predicate Sound(st: State) {
    && Apart(st.w) && SdsFit(st.w, st.sds) && NamesFree(st.w, st.ingresses)
    && CandidatesOk(st.w, st.appWorker) && HeldOk(st)
    && (st.appWorker.Writing? && st.appWorker.app in st.w.apps ==>
          st.appWorker.next <= |Domains(st.w, st.appWorker.app)|)
  }

  /** The application controller has decided to delete the ingress. */
  predicate Doomed(worker: ApplicationWorker, key: string) {
    worker.Deleting? && key in worker.todo
  }

  predicate Open(st: State, s: string) {
    s in st.sds && s in st.w.owners && Entering(s, st.sds[s], st.w.cfg)
  }

  function EntryOf(st: State, s: string): string
    requires Open(st, s)
  {
    Key(st.w, s, st.ClassOf(s))
  }

  /** The open entry will be written again. */
  predicate Coming(st: State, s: string)
    requires Open(st, s)
  {
    || s in st.sdQueue
    || (st.sdWorker.Holding? && st.sdWorker.name == s && Entering(s, st.sdWorker.seen, st.w.cfg)
        && SpecialIngress(st.sdWorker.seen, st.w.cfg) == st.ClassOf(s))
  }

  /** The entry has its ingress and keeps it. */
  predicate Kept(ingresses: IngressMap, worker: ApplicationWorker, key: string, owner: string) {
    Owned(ingresses, key, owner) && !Doomed(worker, key)
  }

  /** An open entry has its ingress and keeps it, or the ingress will be written. */
  predicate EntryOk(st: State, s: string) {
    Open(st, s) ==> Kept(st.ingresses, st.appWorker, EntryOf(st, s), st.w.owners[s]) || Coming(st, s)
  }

  /** A domain has its ingress, or it will be written. */
  predicate DomainOk(st: State, a: string, key: string)
    requires a in st.w.apps
  {
    || Owned(st.ingresses, key, a)
    || a in st.appQueue
    || (st.appWorker.Writing? && st.appWorker.app == a && st.appWorker.next <= |Domains(st.w, a)|
        && key in DomainKeys(a, Domains(st.w, a)[st.appWorker.next..]))
  }

  ghost predicate Inv(st: State) {
    && Sound(st)
    && (forall s :: EntryOk(st, s))
    && (forall a, key | DomainOf(st.w, a, key) :: DomainOk(st, a, key))
  }

  // ----- what a step does to one ingress -----

  /** The ingress is the same in both stores. */
  predicate SameAt(a: IngressMap, b: IngressMap, key: string) {
    (key in a <==> key in b) && (key in a ==> a[key] == b[key])
  }

  lemma WriteDomainFrame(ingresses: IngressMap, a: string, app: Application, d: Domain, cfg: Config, key: string)
    ensures var after := WriteDomain(ingresses, a, app, d, cfg);
            if key == DomainKey(a, d) then Owned(after, key, a) else SameAt(after, ingresses, key)
  {
    assert APP_KEY != GROUP_KEY;
  }

  lemma DeploymentStepAt(w: World, ingresses: IngressMap, s: string, sd: SqbDeployment, key: string)
    requires Fits(w, s, sd)
    ensures var after := DeploymentStep(ingresses, s, sd, w.cfg);
            if key != Key(w, s, SpecialIngress(sd, w.cfg)) then SameAt(after, ingresses, key)
            else if Entering(s, sd, w.cfg) then Owned(after, key, w.owners[s])
            else key !in after
  {
  }

  /** The entry of `s` in a class is touched only by a deletion and by the controller of `s`. */
  lemma EntryFrame(st: State, step: Step, s: string, c: string)
    requires Apart(st.w) && HeldOk(st) && Enabled(st, step) && Entry(st.w, s, c)
    requires step != DeleteOne(Key(st.w, s, c))
    requires step.ApplySqb? ==> st.sdWorker.name != s || SpecialIngress(st.sdWorker.seen, st.w.cfg) != c
    ensures SameAt(Next(st, step).ingresses, st.ingresses, Key(st.w, s, c))
  {
    if step.PutDomain? {
      var a := st.appWorker.app;
      var d := Domains(st.w, a)[st.appWorker.next];
      WriteDomainFrame(st.ingresses, a, st.w.apps[a], d, st.w.cfg, Key(st.w, s, c));
      assert DomainOf(st.w, a, DomainKey(a, d));
    } else if step.ApplySqb? {
      DeploymentStepAt(st.w, st.ingresses, st.sdWorker.name, st.sdWorker.seen, Key(st.w, s, c));
      assert Entry(st.w, st.sdWorker.name, SpecialIngress(st.sdWorker.seen, st.w.cfg));
    }
  }

  /** The ingress of a domain of `a` is touched only by a deletion and by the writes of `a`. */
  lemma DomainFrame(st: State, step: Step, a: string, key: string)
    requires Apart(st.w) && HeldOk(st) && Enabled(st, step) && DomainOf(st.w, a, key)
    requires step != DeleteOne(key)
    ensures SameAt(Next(st, step).ingresses, st.ingresses, key) || Owned(Next(st, step).ingresses, key, a)
    ensures step.PutDomain? && st.appWorker.app == a && key == DomainKey(a, Domains(st.w, a)[st.appWorker.next]) ==>
              Owned(Next(st, step).ingresses, key, a)
  {
    if step.PutDomain? {
      var b := st.appWorker.app;
      var d := Domains(st.w, b)[st.appWorker.next];
      WriteDomainFrame(st.ingresses, b, st.w.apps[b], d, st.w.cfg, key);
      assert DomainOf(st.w, b, DomainKey(b, d));
    } else if step.ApplySqb? {
      DeploymentStepAt(st.w, st.ingresses, st.sdWorker.name, st.sdWorker.seen, key);
      assert Entry(st.w, st.sdWorker.name, SpecialIngress(st.sdWorker.seen, st.w.cfg));
    }
  }

  // ----- soundness, kept by every step -----

  lemma EntryStaysFree(st: State, step: Step, s: string, c: string)
    requires Sound(st) && Enabled(st, step) && Entry(st.w, s, c)
    ensures OwnedOrFree(Next(st, step).ingresses, Key(st.w, s, c), st.w.owners[s])
  {
    assert OwnedOrFree(st.ingresses, Key(st.w, s, c), st.w.owners[s]);
    if step.ApplySqb? && st.sdWorker.name == s && SpecialIngress(st.sdWorker.seen, st.w.cfg) == c {
      DeploymentStepAt(st.w, st.ingresses, s, st.sdWorker.seen, Key(st.w, s, c));
    } else if step != DeleteOne(Key(st.w, s, c)) {
      EntryFrame(st, step, s, c);
    }
  }

  lemma DomainStaysFree(st: State, step: Step, a: string, key: string)
    requires Sound(st) && Enabled(st, step) && DomainOf(st.w, a, key)
    ensures OwnedOrFree(Next(st, step).ingresses, key, a)
  {
    assert OwnedOrFree(st.ingresses, key, a);
    if step != DeleteOne(key) {
      DomainFrame(st, step, a, key);
    }
  }

  lemma NamesFreeKept(st: State, step: Step)
    requires Sound(st) && Enabled(st, step)
    ensures NamesFree(st.w, Next(st, step).ingresses)
  {
    forall s, c | Entry(st.w, s, c) ensures OwnedOrFree(Next(st, step).ingresses, Key(st.w, s, c), st.w.owners[s]) {
      EntryStaysFree(st, step, s, c);
    }
    forall a, key | DomainOf(st.w, a, key) ensures OwnedOrFree(Next(st, step).ingresses, key, a) {
      DomainStaysFree(st, step, a, key);
    }
  }

  lemma ListedOk(w: World, ingresses: IngressMap, a: string)
    requires NamesFree(w, ingresses) && a in w.apps
    ensures CandidatesOk(w, Listed(a, Collected(ingresses, a, {})))
  {
    forall s, c | Entry(w, s, c) && Key(w, s, c) in Collected(ingresses, a, {}) ensures w.owners[s] == a {
      assert OwnedOrFree(ingresses, Key(w, s, c), w.owners[s]);
    }
    forall b, key | DomainOf(w, b, key) && key in Collected(ingresses, a, {}) ensures a == b {
      assert OwnedOrFree(ingresses, key, b);
    }
  }

  lemma CandidatesKept(st: State, step: Step)
    requires Sound(st) && Enabled(st, step)
    ensures CandidatesOk(st.w, Next(st, step).appWorker)
  {
    if step.ListIngresses? {
      ListedOk(st.w, st.ingresses, st.appWorker.app);
    } else {
      assert Candidates(Next(st, step).appWorker) <= Candidates(st.appWorker);
    }
  }

  lemma HeldKept(st: State, step: Step)
    requires SdsFit(st.w, st.sds) && HeldOk(st) && Enabled(st, step)
    ensures HeldOk(Next(st, step)) && SdsFit(st.w, Next(st, step).sds)
  {
  }

  lemma SoundKept(st: State, step: Step)
    requires Sound(st) && Enabled(st, step)
    ensures Sound(Next(st, step))
  {
    NamesFreeKept(st, step);
    CandidatesKept(st, step);
    HeldKept(st, step);
  }

  // ----- entries and domains, step by step -----

  /** The write of an entry that the application controller is about to delete, with no other event
      of the SQBDeployment to make up for it. */
  predicate WritesDoomed(st: State, step: Step, s: string) {
    && step.ApplySqb? && st.sdWorker.Holding? && st.sdWorker.name == s && Open(st, s)
    && s !in st.sdQueue && Doomed(st.appWorker, EntryOf(st, s))
  }

  lemma DecidedSpares(st: State, a: string, names: set<string>, s: string)
    requires SdsFit(st.w, st.sds) && Open(st, s) && a in st.w.apps && (EntryOf(st, s) in names ==> st.w.owners[s] == a)
    ensures EntryOf(st, s) !in Decided(st.w, st.sds, a, names)
  {
    if EntryOf(st, s) in names {
      assert Fits(st.w, s, st.sds[s]);
      assert EntryOf(st, s) in EntryKeys(a, st.sds, st.w.cfg);
    }
  }

  lemma ListKeepsEntry(st: State, s: string)
    requires CandidatesOk(st.w, st.appWorker) && SdsFit(st.w, st.sds) && Enabled(st, ListSqbs) && Open(st, s)
    ensures !Doomed(Next(st, ListSqbs).appWorker, EntryOf(st, s))
  {
    assert Fits(st.w, s, st.sds[s]);
    assert Entry(st.w, s, st.ClassOf(s));
    DecidedSpares(st, st.appWorker.app, st.appWorker.names, s);
  }

  /** The controller of `s` writes its open entry, unless what it holds is outdated. */
  lemma OwnApplyIff(st: State, s: string)
    requires st.sdWorker.Holding? && st.sdWorker.name == s && HeldOk(st)
    requires EntryOk(st, s)
    ensures EntryOk(Next(st, ApplySqb), s) <==> !WritesDoomed(st, ApplySqb, s)
  {
    if Open(st, s) && s !in st.sdQueue {
      DeploymentStepAt(st.w, st.ingresses, s, st.sdWorker.seen, EntryOf(st, s));
    }
  }

  /** An open entry whose ingress is not touched, and of which nothing is forgotten. */
  lemma EntryFramed(st: State, v: State, s: string)
    requires EntryOk(st, s) && v.w == st.w && v.sds == st.sds
    requires Open(st, s) ==>
               && SameAt(v.ingresses, st.ingresses, EntryOf(st, s))
               && (Doomed(v.appWorker, EntryOf(st, s)) ==> Doomed(st.appWorker, EntryOf(st, s)))
               && (Coming(st, s) ==> Coming(v, s))
    ensures EntryOk(v, s)
  {
  }

  predicate ByUser(step: Step) {
    step.PutSqb? || step.RemoveSqb?
  }

  lemma ComingKept(st: State, step: Step, s: string)
    requires Enabled(st, step) && Open(st, s) && !ByUser(step) && !(step.ApplySqb? && st.sdWorker.name == s)
    ensures Coming(st, s) ==> Coming(Next(st, step), s)
  {
  }

  lemma DoomedKept(st: State, step: Step, key: string)
    requires Enabled(st, step) && !step.ListSqbs?
    ensures Doomed(Next(st, step).appWorker, key) ==> Doomed(st.appWorker, key)
  {
  }

  lemma EntryOkKept(st: State, step: Step, s: string)
    requires Sound(st) && Enabled(st, step) && EntryOk(st, s) && !ByUser(step) && !(step.ApplySqb? && st.sdWorker.name == s)
    requires Open(st, s) && step != DeleteOne(EntryOf(st, s))
    ensures EntryOk(Next(st, step), s)
  {
    assert Fits(st.w, s, st.sds[s]);
    EntryFrame(st, step, s, st.ClassOf(s));
    ComingKept(st, step, s);
    if step.ListSqbs? {
      ListKeepsEntry(st, s);
    } else {
      DoomedKept(st, step, EntryOf(st, s));
    }
    EntryFramed(st, Next(st, step), s);
  }

  lemma DeletedEntryOk(st: State, s: string)
    requires EntryOk(st, s) && Open(st, s) && Enabled(st, DeleteOne(EntryOf(st, s)))
    ensures EntryOk(Next(st, DeleteOne(EntryOf(st, s))), s)
  {
    assert Coming(st, s);
  }

  lemma UserEntryOk(st: State, step: Step, s: string)
    requires Enabled(st, step) && EntryOk(st, s) && ByUser(step)
    ensures EntryOk(Next(st, step), s)
  {
  }

  lemma EntryOkIff(st: State, step: Step, s: string)
    requires Sound(st) && Enabled(st, step) && EntryOk(st, s)
    ensures EntryOk(Next(st, step), s) <==> !WritesDoomed(st, step, s)
  {
    if ByUser(step) {
      UserEntryOk(st, step, s);
    } else if step.ApplySqb? && st.sdWorker.name == s {
      OwnApplyIff(st, s);
    } else if Open(st, s) {
      if step == DeleteOne(EntryOf(st, s)) {
        DeletedEntryOk(st, s);
      } else {
        EntryOkKept(st, step, s);
      }
    }
  }

  lemma PutKeepsDomain(st: State, a: string, key: string)
    requires Sound(st) && Enabled(st, PutDomain) && DomainOf(st.w, a, key) && DomainOk(st, a, key)
    ensures DomainOk(Next(st, PutDomain), a, key)
  {
    DomainFrame(st, PutDomain, a, key);
    if a == st.appWorker.app {
      var rest := Domains(st.w, a)[st.appWorker.next..];
      assert rest[1..] == Domains(st.w, a)[st.appWorker.next + 1..];
      DomainKeysStep(a, rest, key);
    }
  }

  lemma DomainOkKept(st: State, step: Step, a: string, key: string)
    requires Sound(st) && Enabled(st, step) && DomainOf(st.w, a, key) && DomainOk(st, a, key)
    ensures DomainOk(Next(st, step), a, key)
  {
    if step.PutDomain? {
      PutKeepsDomain(st, a, key);
    } else {
      assert Domains(st.w, a)[0..] == Domains(st.w, a);
      DomainFrame(st, step, a, key);
    }
  }

  /** Every step keeps the invariant, except exactly the write of an entry that was closed when the
      application controller listed the SQBDeployments and that it is about to delete. */
  lemma StepKeepsInvIff(st: State, step: Step)
    requires Inv(st) && Enabled(st, step)
    ensures Inv(Next(st, step)) <==> !exists s :: WritesDoomed(st, step, s)
  {
    var v := Next(st, step);
    SoundKept(st, step);
    forall a, key | DomainOf(v.w, a, key) ensures DomainOk(v, a, key) {
      assert DomainOf(st.w, a, key);
      DomainOkKept(st, step, a, key);
    }
    forall s ensures EntryOk(v, s) <==> !WritesDoomed(st, step, s) {
      EntryOkIff(st, step, s);
    }
  }

  // ----- whole runs -----

  ghost predicate Executes(st: State, steps: seq<Step>, v: State)
    decreases |steps|
  {
    if steps == [] then v == st
    else Enabled(st, steps[0]) && Executes(Next(st, steps[0]), steps[1..], v)
  }

  /** No user opens an entry, or moves one to another class, while the application controller is about to
      delete the ingress of that name. */
  predicate OrderlyStep(st: State, step: Step) {
    step.PutSqb? && Fits(st.w, step.name, step.sd) && Entering(step.name, step.sd, st.w.cfg)
    && Doomed(st.appWorker, Key(st.w, step.name, SpecialIngress(step.sd, st.w.cfg))) ==>
      Open(st, step.name) && st.ClassOf(step.name) == SpecialIngress(step.sd, st.w.cfg)
  }

  predicate Orderly(st: State, steps: seq<Step>)
    decreases |steps|
  {
    steps != [] && Enabled(st, steps[0]) ==> OrderlyStep(st, steps[0]) && Orderly(Next(st, steps[0]), steps[1..])
  }

  /** No open entry is about to be deleted. */
  predicate Spared(st: State, s: string) {
    Open(st, s) ==> !Doomed(st.appWorker, EntryOf(st, s))
  }

  lemma SparedKept(st: State, step: Step, s: string)
    requires Sound(st) && Spared(st, s) && Enabled(st, step) && OrderlyStep(st, step)
    ensures Spared(Next(st, step), s)
  {
    if step.ListSqbs? {
      if Open(st, s) {
        ListKeepsEntry(st, s);
      }
    } else if Open(Next(st, step), s) {
      DoomedKept(st, step, EntryOf(Next(st, step), s));
    }
  }

  ghost predicate AllSpared(st: State) {
    forall s :: Spared(st, s)
  }

  lemma AllSparedKept(st: State, step: Step)
    requires Sound(st) && AllSpared(st) && Enabled(st, step) && OrderlyStep(st, step)
    ensures AllSpared(Next(st, step))
  {
    forall s ensures Spared(Next(st, step), s) {
      SparedKept(st, step, s);
    }
  }

  lemma SparedWritesNoDoomed(st: State, step: Step)
    requires AllSpared(st)
    ensures !exists s :: WritesDoomed(st, step, s)
  {
    forall s ensures !WritesDoomed(st, step, s) {
      assert Spared(st, s);
    }
  }

  lemma {:induction false} RunKeepsInv(st: State, steps: seq<Step>, v: State)
    requires Inv(st) && AllSpared(st) && Executes(st, steps, v) && Orderly(st, steps)
    ensures Inv(v)
    decreases |steps|
  {
    if steps != [] {
      SparedWritesNoDoomed(st, steps[0]);
      StepKeepsInvIff(st, steps[0]);
      AllSparedKept(st, steps[0]);
      RunKeepsInv(Next(st, steps[0]), steps[1..], v);
    }
  }

  /** The operator has started: every application and SQBDeployment is queued. */
  ghost predicate Initial(st: State) {
    && Separated(st.w) && SdsFit(st.w, st.sds) && NamesFree(st.w, st.ingresses)
    && st.appQueue == st.w.apps.Keys && st.sdQueue == st.sds.Keys
    && st.appWorker.NoApplication? && st.sdWorker.NoSqb?
  }

  predicate Quiescent(st: State) {
    st.appQueue == {} && st.sdQueue == {} && st.appWorker.NoApplication? && st.sdWorker.NoSqb?
  }

  lemma InitialInv(st: State)
    requires Initial(st)
    ensures Inv(st) && AllSpared(st)
  {
    SeparatedApart(st.w);
  }

  /** Non-interference: in every state reached by an orderly run, under any interleaving of the two
      controllers and of users who create, edit and remove SQBDeployments, every open entry and every
      domain has its ingress and keeps it, or it will be written. With nothing pending, they all have it. */
  lemma NonInterference(start: State, steps: seq<Step>, st: State)
    requires Initial(start) && Executes(start, steps, st) && Orderly(start, steps)
    ensures forall s :: EntryOk(st, s)
    ensures forall a, key | DomainOf(st.w, a, key) :: DomainOk(st, a, key)
    ensures Quiescent(st) ==>
              && (forall s | Open(st, s) :: Owned(st.ingresses, EntryOf(st, s), st.w.owners[s]))
              && (forall a, key | DomainOf(st.w, a, key) :: Owned(st.ingresses, key, a))
  {
    InitialInv(start);
    RunKeepsInv(start, steps, st);
    if Quiescent(st) {
      forall s | Open(st, s) ensures Owned(st.ingresses, EntryOf(st, s), st.w.owners[s]) {
        assert EntryOk(st, s);
      }
      forall a, key | DomainOf(st.w, a, key) ensures Owned(st.ingresses, key, a) {
        assert DomainOk(st, a, key);
      }
    }
  }

  // ----- the runs that are not orderly -----

  /** An open entry has no ingress, and none will be written. */
  predicate Lost(st: State, s: string) {
    Open(st, s) && EntryOf(st, s) !in st.ingresses && !Coming(st, s)
  }

  /** Nothing but a user makes the controller come back to an SQBDeployment. */
  lemma NotComingKept(st: State, step: Step, s: string)
    requires HeldOk(st) && Enabled(st, step) && Open(st, s) && !Coming(st, s)
    requires !(ByUser(step) && step.name == s)
    ensures Open(Next(st, step), s) && !Coming(Next(st, step), s) && EntryOf(Next(st, step), s) == EntryOf(st, s)
    ensures !(step.ApplySqb? && st.sdWorker.name == s)
  {
  }

  /** It stays so under every step of anyone, until a user edits or removes that SQBDeployment. */
  lemma LostUntilEdit(st: State, step: Step, s: string)
    requires Sound(st) && Enabled(st, step) && Lost(st, s) && !(ByUser(step) && step.name == s)
    ensures Lost(Next(st, step), s)
  {
    NotComingKept(st, step, s);
    if step != DeleteOne(EntryOf(st, s)) {
      assert Fits(st.w, s, st.sds[s]);
      EntryFrame(st, step, s, st.ClassOf(s));
    }
  }

  // ----- what undisturbed steps do -----

  lemma {:induction false} Then(start: State, steps: seq<Step>, st: State, step: Step)
    requires Executes(start, steps, st) && Enabled(st, step)
    ensures Executes(start, steps + [step], Next(st, step))
    decreases |steps|
  {
    if steps == [] {
      assert [step][1..] == [];
    } else {
      assert (steps + [step])[1..] == steps[1..] + [step];
      Then(Next(start, steps[0]), steps[1..], st, step);
    }
  }

  /** One more step, with what it leads to. */
  lemma Take(start: State, steps: seq<Step>, st: State, step: Step, v: State) returns (all: seq<Step>)
    requires Executes(start, steps, st) && Enabled(st, step) && v == Next(st, step)
    ensures Executes(start, all, v)
  {
    Then(start, steps, st, step);
    all := steps + [step];
  }

  lemma WriteNext(ingresses: IngressMap, a: string, app: Application, ds: seq<Domain>, i: nat, cfg: Config)
    requires i < |ds|
    ensures WriteDomains(ingresses, a, app, ds[i..], cfg)
         == WriteDomains(WriteDomain(ingresses, a, app, ds[i], cfg), a, app, ds[i + 1..], cfg)
  {
    assert ds[i..][1..] == ds[i + 1..] && ds[i..][0] == ds[i];
  }

  lemma PutNext(st: State, a: string, ds: seq<Domain>, i: nat, next: State)
    requires st.appWorker == Writing(a, i) && a in st.w.apps && ds == Domains(st.w, a) && i < |ds|
    requires next == st.(appWorker := Writing(a, i + 1),
                         ingresses := WriteDomain(st.ingresses, a, st.w.apps[a], ds[i], st.w.cfg))
    ensures Enabled(st, PutDomain) && Next(st, PutDomain) == next
  {
  }

  /** The application controller writes its remaining domains. */
  lemma {:induction false} WriteRound(start: State, steps: seq<Step>, st: State, a: string, ds: seq<Domain>, i: nat)
    returns (all: seq<Step>)
    requires Executes(start, steps, st) && st.appWorker == Writing(a, i) && a in st.w.apps
    requires ds == Domains(st.w, a) && i <= |ds|
    ensures Executes(start, all, st.(appWorker := Writing(a, |ds|),
                ingresses := WriteDomains(st.ingresses, a, st.w.apps[a], ds[i..], st.w.cfg)))
    decreases |ds| - i
  {
    if i == |ds| {
      all := steps;
      assert ds[i..] == [];
    } else {
      var next := st.(appWorker := Writing(a, i + 1),
                      ingresses := WriteDomain(st.ingresses, a, st.w.apps[a], ds[i], st.w.cfg));
      PutNext(st, a, ds, i, next);
      all := Take(start, steps, st, PutDomain, next);
      WriteNext(st.ingresses, a, st.w.apps[a], ds, i, st.w.cfg);
      all := WriteRound(start, all, next, a, ds, i + 1);
    }
  }

  /** It deletes what it has decided to delete. */
  lemma {:induction false} DeleteRound(start: State, steps: seq<Step>, st: State) returns (all: seq<Step>)
    requires Executes(start, steps, st) && st.appWorker.Deleting?
    ensures Executes(start, all, st.(appWorker := NoApplication, ingresses := st.ingresses - st.appWorker.todo))
    decreases st.appWorker.todo
  {
    var todo := st.appWorker.todo;
    if todo == {} {
      assert st.ingresses - {} == st.ingresses;
      all := Take(start, steps, st, FinishApplication, st.(appWorker := NoApplication));
    } else {
      var key :| key in todo;
      var next := st.(ingresses := st.ingresses - {key}, appWorker := Deleting(st.appWorker.app, todo - {key}));
      all := Take(start, steps, st, DeleteOne(key), next);
      assert st.ingresses - {key} - (todo - {key}) == st.ingresses - todo;
      all := DeleteRound(start, all, next);
    }
  }

  /** It lists, decides and deletes. */
  lemma CollectRound(start: State, steps: seq<Step>, st: State, a: string) returns (all: seq<Step>)
    requires Executes(start, steps, st) && a in st.w.apps && st.appWorker == Writing(a, |Domains(st.w, a)|)
    ensures Executes(start, all, st.(appWorker := NoApplication,
                ingresses := st.ingresses - Decided(st.w, st.sds, a, Collected(st.ingresses, a, {}))))
  {
    var names := Collected(st.ingresses, a, {});
    var st1 := st.(appWorker := Listed(a, names));
    all := Take(start, steps, st, ListIngresses, st1);
    var st2 := st.(appWorker := Deleting(a, Decided(st.w, st.sds, a, names)));
    all := Take(start, all, st1, ListSqbs, st2);
    all := DeleteRound(start, all, st2);
  }

  lemma DecidedIsCollected(w: World, sds: SqbMap, ingresses: IngressMap, a: string)
    requires a in w.apps && Serving(a, w.apps[a], w.cfg)
    ensures var written := WriteDomains(ingresses, a, w.apps[a], Domains(w, a), w.cfg);
            written - Decided(w, sds, a, Collected(written, a, {})) == ApplicationStep(ingresses, a, w.apps[a], sds, w.cfg)
  {
  }

  /** The application controller takes up an event and writes its domains. */
  lemma StartRound(start: State, steps: seq<Step>, st: State, a: string) returns (all: seq<Step>)
    requires Executes(start, steps, st) && a in st.appQueue && a in st.w.apps && st.appWorker.NoApplication?
    ensures Executes(start, all, st.(appQueue := st.appQueue - {a}, appWorker := Writing(a, |Domains(st.w, a)|),
                ingresses := WriteDomains(st.ingresses, a, st.w.apps[a], Domains(st.w, a), st.w.cfg)))
  {
    var ds := Domains(st.w, a);
    var started := st.(appQueue := st.appQueue - {a}, appWorker := Writing(a, 0));
    all := Take(start, steps, st, StartApplication(a), started);
    all := WriteRound(start, all, started, a, ds, 0);
    assert ds[0..] == ds;
  }

  /** Undisturbed, the steps of the application controller have the effect of its handler. */
  lemma UndisturbedApplication(start: State, steps: seq<Step>, st: State, a: string) returns (all: seq<Step>)
    requires Executes(start, steps, st) && a in st.appQueue && a in st.w.apps && st.appWorker.NoApplication?
    requires Serving(a, st.w.apps[a], st.w.cfg)
    ensures Executes(start, all, st.(appQueue := st.appQueue - {a},
                ingresses := ApplicationStep(st.ingresses, a, st.w.apps[a], st.sds, st.w.cfg)))
  {
    var written := st.(appQueue := st.appQueue - {a}, appWorker := Writing(a, |Domains(st.w, a)|),
                       ingresses := WriteDomains(st.ingresses, a, st.w.apps[a], Domains(st.w, a), st.w.cfg));
    all := StartRound(start, steps, st, a);
    all := CollectRound(start, all, written, a);
    DecidedIsCollected(st.w, st.sds, st.ingresses, a);
  }

  /** The SQBDeployment controller takes up an event. */
  lemma UndisturbedSqb(start: State, steps: seq<Step>, st: State, s: string) returns (all: seq<Step>)
    requires Executes(start, steps, st) && s in st.sdQueue && s in st.sds && st.sdWorker.NoSqb?
    ensures Executes(start, all, st.(sdQueue := st.sdQueue - {s},
                ingresses := DeploymentStep(st.ingresses, s, st.sds[s], st.w.cfg)))
  {
    var held := st.(sdQueue := st.sdQueue - {s}, sdWorker := Holding(s, st.sds[s]));
    all := Take(start, steps, st, StartSqb(s), held);
    all := Take(start, all, held, ApplySqb,
                held.(sdWorker := NoSqb, ingresses := DeploymentStep(st.ingresses, s, st.sds[s], st.w.cfg)));
  }

  // ----- a run that is not orderly -----

  /** The entry of the one SQBDeployment `s` is a generated ingress, and no domain names it. */
  predicate Exposed(st: State, s: string) {
    && SdsFit(st.w, st.sds) && Open(st, s) && st.sds.Keys == {s} && st.w.owners[s] in st.w.apps
    && AutoOf(st.ingresses, st.w.owners[s], EntryOf(st, s)) && !DomainOf(st.w, st.w.owners[s], EntryOf(st, s))
  }

  /** The application controller has listed the ingresses. */
  lemma ListRound(start: State, steps: seq<Step>, st: State, s: string) returns (all: seq<Step>, v: State)
    requires Executes(start, steps, st) && Quiescent(st) && Exposed(st, s)
    ensures Executes(start, all, v)
    ensures v == st.(appWorker := v.appWorker, ingresses := v.ingresses) && v.appWorker.Listed?
    ensures v.appWorker.app == st.w.owners[s] && EntryOf(st, s) in v.appWorker.names
  {
    var a, key := st.w.owners[s], EntryOf(st, s);
    var ds := Domains(st.w, a);
    var written := WriteDomains(st.ingresses, a, st.w.apps[a], ds, st.w.cfg);
    all := Take(start, steps, st, Resync(a), st.(appQueue := {a}));
    all := StartRound(start, all, st.(appQueue := {a}), a);
    LastAtInside(a, ds, key);
    WriteDomainsAt(st.ingresses, a, st.w.apps[a], ds, st.w.cfg, key);
    var names := Collected(written, a, {});
    v := st.(appWorker := Listed(a, names), ingresses := written);
    var st3 := st.(appWorker := Writing(a, |ds|), ingresses := written);
    assert st.(appQueue := {a}).(appQueue := {a} - {a}, appWorker := Writing(a, |ds|), ingresses := written) == st3;
    all := Take(start, all, st3, ListIngresses, v);
  }

  /** When the only SQBDeployment is closed, its former entry is decided upon. */
  lemma ClosedIsDecided(w: World, s: string, closed: SqbDeployment, a: string, names: set<string>, key: string)
    requires a in w.apps && key in names && !DomainOf(w, a, key) && !PublicEntry(closed)
    ensures key in Decided(w, map[s := closed], a, names)
  {
    assert EntryKeys(a, map[s := closed], w.cfg) == {};
  }

  /** The SQBDeployments are listed while the entry is closed, and it is opened again afterwards. */
  lemma ReopenRound(start: State, steps: seq<Step>, st: State, s: string, sd: SqbDeployment, closed: SqbDeployment)
    returns (all: seq<Step>, v: State)
    requires Executes(start, steps, st) && st.appWorker.Listed? && st.sdQueue == {} && st.appWorker.app in st.w.apps
    requires st.sds == map[s := sd] && Fits(st.w, s, sd) && Fits(st.w, s, closed)
    ensures Executes(start, all, v)
    ensures v == st.(sdQueue := {s}, appWorker := Deleting(st.appWorker.app,
                         Decided(st.w, map[s := closed], st.appWorker.app, st.appWorker.names)))
  {
    var a, sds := st.appWorker.app, map[s := closed];
    var st1 := st.(sds := sds, sdQueue := {s});
    assert st.sds[s := closed] == sds && sds[s := sd] == st.sds;
    all := Take(start, steps, st, PutSqb(s, closed), st1);
    var st2 := st1.(appWorker := Deleting(a, Decided(st.w, sds, a, st.appWorker.names)));
    all := Take(start, all, st1, ListSqbs, st2);
    v := st2.(sds := st.sds);
    all := Take(start, all, st2, PutSqb(s, sd), v);
  }

  /** The entry is written again, and then deleted. */
  lemma LoseRound(start: State, steps: seq<Step>, st: State, s: string) returns (all: seq<Step>, v: State)
    requires Executes(start, steps, st) && st.appQueue == {} && st.sdQueue == {s} && st.sdWorker.NoSqb?
    requires Open(st, s) && Doomed(st.appWorker, EntryOf(st, s))
    ensures Executes(start, all, v) && Quiescent(v) && v.w == st.w && v.sds == st.sds && Lost(v, s)
  {
    all := UndisturbedSqb(start, steps, st, s);
    var st2 := st.(sdQueue := {}, ingresses := DeploymentStep(st.ingresses, s, st.sds[s], st.w.cfg));
    assert st.sdQueue - {s} == {};
    all := DeleteRound(start, all, st2);
    v := st2.(appWorker := NoApplication, ingresses := st2.ingresses - st2.appWorker.todo);
  }

  /** An entry that is closed and opened again while its application is being reconciled is lost: it is
      closed when the SQBDeployments are listed, and written again before the deletion decided then. */
  lemma ReopenedEntryLost(start: State, steps: seq<Step>, st: State, s: string, closed: SqbDeployment)
    returns (all: seq<Step>, v: State)
    requires Executes(start, steps, st) && Quiescent(st) && Exposed(st, s)
    requires Fits(st.w, s, closed) && !PublicEntry(closed)
    ensures Executes(start, all, v) && Quiescent(v) && v.w == st.w && v.sds == st.sds && Lost(v, s)
  {
    var listed, reopened;
    all, listed := ListRound(start, steps, st, s);
    assert st.sds == map[s := st.sds[s]] && Fits(st.w, s, st.sds[s]);
    all, reopened := ReopenRound(start, all, listed, s, st.sds[s], closed);
    ClosedIsDecided(st.w, s, closed, st.w.owners[s], listed.appWorker.names, EntryOf(st, s));
    all, v := LoseRound(start, all, reopened, s);
  }

  /** An entry written to an empty store looks generated. */
  lemma NewEntryAuto(w: World, s: string, sd: SqbDeployment)
    requires Fits(w, s, sd) && Entering(s, sd, w.cfg) && SpecialIngress(sd, w.cfg) != ""
    ensures AutoOf(DeploymentStep(map[], s, sd, w.cfg), w.owners[s], Key(w, s, SpecialIngress(sd, w.cfg)))
  {
    assert INGRESS_CLASS_KEY != SERVER_SNIPPET_KEY by { assert |INGRESS_CLASS_KEY| != |SERVER_SNIPPET_KEY|; }
  }

  /** The step of the application leaves its one public entry, which is no domain of it, as it was. */
  lemma EntryStays(w: World, sds: SqbMap, ingresses: IngressMap, s: string)
    requires SdsFit(w, sds) && s in sds && PublicEntry(sds[s]) && w.owners[s] in w.apps
    requires Serving(w.owners[s], w.apps[w.owners[s]], w.cfg)
    requires var key := Key(w, s, SpecialIngress(sds[s], w.cfg));
             AutoOf(ingresses, w.owners[s], key) && !DomainOf(w, w.owners[s], key)
    ensures AutoOf(ApplicationStep(ingresses, w.owners[s], w.apps[w.owners[s]], sds, w.cfg), w.owners[s],
                   Key(w, s, SpecialIngress(sds[s], w.cfg)))
  {
    var a, key := w.owners[s], Key(w, s, SpecialIngress(sds[s], w.cfg));
    assert Fits(w, s, sds[s]);
    StepAt(ingresses, a, w.apps[a], sds, w.cfg, key);
    assert key in EntryKeys(a, sds, w.cfg);
  }

  /** An empty store with one application, which serves, and one SQBDeployment, whose entry is open. */
  ghost predicate Fresh(start: State, s: string) {
    && Initial(start) && start.ingresses == map[] && start.sds.Keys == {s} && Open(start, s)
    && start.w.apps.Keys == {start.w.owners[s]} && start.ClassOf(s) != ""
  }

  lemma FirstExposed(start: State, st: State, s: string)
    requires Fresh(start, s) && st.w == start.w && st.sds == start.sds
    requires var a := start.w.owners[s];
             var entered := DeploymentStep(map[], s, start.sds[s], start.w.cfg);
             st.ingresses == ApplicationStep(entered, a, start.w.apps[a], start.sds, start.w.cfg)
    ensures Exposed(st, s)
  {
    var a := start.w.owners[s];
    assert Fits(start.w, s, start.sds[s]) && Entry(start.w, s, start.ClassOf(s));
    EntryKeyIsNoDomain(start.w, s, start.ClassOf(s), a);
    NewEntryAuto(start.w, s, start.sds[s]);
    EntryStays(start.w, start.sds, DeploymentStep(map[], s, start.sds[s], start.w.cfg), s);
  }

  /** The first application and SQBDeployment come to rest. */
  lemma FirstRest(start: State, s: string) returns (steps: seq<Step>, st: State)
    requires Fresh(start, s)
    ensures Executes(start, steps, st) && Quiescent(st) && st.w == start.w && st.sds == start.sds && Exposed(st, s)
  {
    var a := start.w.owners[s];
    var entered := start.(sdQueue := {}, ingresses := DeploymentStep(map[], s, start.sds[s], start.w.cfg));
    assert Executes(start, [], start);
    assert start.sdQueue - {s} == {} && start.appQueue - {a} == {};
    steps := UndisturbedSqb(start, [], start, s);
    steps := UndisturbedApplication(start, steps, entered, a);
    st := entered.(appQueue := {},
                   ingresses := ApplicationStep(entered.ingresses, a, start.w.apps[a], start.sds, start.w.cfg));
    FirstExposed(start, st, s);
  }

  /** So entries can be lost from the beginning. */
  lemma EntryLostFromStart(start: State, s: string, closed: SqbDeployment) returns (steps: seq<Step>, v: State)
    requires Fresh(start, s) && Fits(start.w, s, closed) && !PublicEntry(closed)
    ensures Executes(start, steps, v) && Quiescent(v) && v.sds == start.sds && Lost(v, s)
  {
    var st;
    steps, st := FirstRest(start, s);
    steps, v := ReopenedEntryLost(start, steps, st, s, closed);
  }
}
