/** The operator's configuration entity, the history of maps it was loaded from, and the gate that
    keeps reconciles out until the entity is ready. */
module Settings {
  import opened Common
  import opened Names

  /** The parsing done by Go's standard library. */
  datatype Parsers = Parsers(atoi: string -> Option<int>, decodeMap: string -> StringMap,
                             decodeList: string -> seq<string>)

  datatype Switches = Switches(ingressOpen: bool, istioInject: bool, istioEnable: bool, istioIngressGateway: bool,
                               serviceMonitorEnable: bool, victoriaMetricsEnable: bool, pvcEnable: bool)

  datatype Texts = Texts(imagePullSecrets: string, specialVirtualServiceIngress: string, deploymentSpec: string,
                         operatorDelay: int, initContainerImage: string, baseFlag: string, env: string)

  /** The data, its fields grouped. */
  datatype Data = Data(switches: Switches, texts: Texts, istioTimeout: int, istioGateways: seq<string>,
                       domainPostfix: StringMap)

  /** The zero value of the data. */
  const ZERO := Data(Switches(false, false, false, false, false, false, false), Texts("", "", "", 0, "", "", ""),
                     0, [], map[])

  function NumberOr(p: Parsers, s: string, default: int): int {
    if p.atoi(s).Some? then p.atoi(s).value else default
  }

  function GatewaysOr(gateways: seq<string>): seq<string> {
    if gateways == [] then ["mesh"] else gateways
  }

  function SwitchesOf(m: StringMap): Switches {
    Switches(
      Lookup(m, "ingressOpen") == "true",
      Lookup(m, "istioInject") == "true",
      Lookup(m, "istioEnable") == "true",
      Lookup(m, "istioIngressGateway") != "false",
      Lookup(m, "serviceMonitorEnable") == "true",
      Lookup(m, "victoriaMetricsEnable") == "true" && Lookup(m, "serviceMonitorEnable") != "true",
      Lookup(m, "pvcEnable") == "true")
  }

  function TextsOf(m: StringMap, p: Parsers): Texts {
    Texts(
      Lookup(m, "imagePullSecrets"),
      if "specialVirtualServiceIngress" in m then m["specialVirtualServiceIngress"] else "nginx",
      Lookup(m, "deploymentSpec"),
      NumberOr(p, Lookup(m, "operatorDelay"), 30),
      Lookup(m, "initContainerImage"),
      if Lookup(m, "baseFlag") == "" then "base" else Lookup(m, "baseFlag"),
      Lookup(m, "env"))
  }

  /** The data after loading `m` over `previous`. */
  function Loaded(previous: Data, m: StringMap, p: Parsers): Data {
    Data(
      SwitchesOf(m), TextsOf(m, p),
      if "istioTimeout" in m then NumberOr(p, m["istioTimeout"], 30) else 30,
      GatewaysOr(if "istioGateways" in m then p.decodeList(m["istioGateways"]) else previous.istioGateways),
      if "domainPostfix" in m then p.decodeMap(m["domainPostfix"]) else previous.domainPostfix)
  }

  class ConfigEntity {
    var switches: Switches
    var texts: Texts
    var istioTimeout: int
    var istioGateways: seq<string>
    var domainPostfix: StringMap
    var initialized: bool
    var ready: bool
    /** The goroutines waiting for their delay to pass. */
    var timers: nat

    constructor ()
      ensures Value() == ZERO && State() == Gate(false, false, 0)
    {
      switches, texts, istioTimeout, istioGateways, domainPostfix := ZERO.switches, ZERO.texts, 0, [], map[];
      initialized, ready, timers := false, false, 0;
    }

    function Value(): Data
      reads this
    {
      Data(switches, texts, istioTimeout, istioGateways, domainPostfix)
    }

    function State(): Gate
      reads this
    {
      Gate(initialized, ready, timers)
    }

    method FromMap(m: StringMap, p: Parsers)
      modifies this
      ensures Value() == Loaded(old(Value()), m, p)
      ensures State() == AfterLoad(old(State()))
    {
      LoadSwitches(m);
      LoadIstio(m, p);
      LoadTexts(m, p);
      if !initialized {
        initialized := true;
      }
      if !ready {
        timers := timers + 1;
      }
    }

    method LoadSwitches(m: StringMap)
      modifies this`switches
      ensures switches == SwitchesOf(m)
    {
      var monitor := Lookup(m, "serviceMonitorEnable") == "true";
      var metrics := Lookup(m, "victoriaMetricsEnable") == "true";
      if monitor && metrics {
        metrics := false;
      }
      switches := Switches(
        Lookup(m, "ingressOpen") == "true", Lookup(m, "istioInject") == "true", Lookup(m, "istioEnable") == "true",
        Lookup(m, "istioIngressGateway") != "false", monitor, metrics, Lookup(m, "pvcEnable") == "true");
    }

    method LoadIstio(m: StringMap, p: Parsers)
      modifies this`istioTimeout, this`domainPostfix, this`istioGateways
      ensures istioTimeout == if "istioTimeout" in m then NumberOr(p, m["istioTimeout"], 30) else 30
      ensures domainPostfix == if "domainPostfix" in m then p.decodeMap(m["domainPostfix"]) else old(domainPostfix)
      ensures istioGateways
           == GatewaysOr(if "istioGateways" in m then p.decodeList(m["istioGateways"]) else old(istioGateways))
    {
      istioTimeout := 30;
      if "istioTimeout" in m {
        var timeout := p.atoi(m["istioTimeout"]);
        if timeout.Some? {
          istioTimeout := timeout.value;
        }
      }
      if "domainPostfix" in m {
        domainPostfix := p.decodeMap(m["domainPostfix"]);
      }
      if "istioGateways" in m {
        istioGateways := p.decodeList(m["istioGateways"]);
      }
      if istioGateways == [] {
        istioGateways := ["mesh"];
      }
    }

    method LoadTexts(m: StringMap, p: Parsers)
      modifies this`texts
      ensures texts == TextsOf(m, p)
    {
      var special := "nginx";
      if "specialVirtualServiceIngress" in m {
        special := m["specialVirtualServiceIngress"];
      }
      var delay := p.atoi(Lookup(m, "operatorDelay"));
      var base := Lookup(m, "baseFlag");
      if base == "" {
        base := "base";
      }
      texts := Texts(Lookup(m, "imagePullSecrets"), special, Lookup(m, "deploymentSpec"),
                     if delay.None? then 30 else delay.value, Lookup(m, "initContainerImage"), base, Lookup(m, "env"));
    }

    /** One of the waiting goroutines finishes. */
    method TimerFires()
      requires timers > 0
      modifies this`ready, this`timers
      ensures State() == AfterFire(old(State()))
    {
      timers := timers - 1;
      ready := true;
    }

    /** `GetDomainNames`: the host of `prefix` for every ingress class. */
    method GetDomainNames(prefix: string) returns (domains: StringMap)
      ensures domains == map cls | cls in domainPostfix :: ReplaceStar(domainPostfix[cls], prefix)
    {
      domains := map[];
      var rest := domainPostfix.Keys;
      while rest != {}
        invariant rest <= domainPostfix.Keys
        invariant domains == map cls | cls in domainPostfix.Keys - rest :: ReplaceStar(domainPostfix[cls], prefix)
      {
        var cls :| cls in rest;
        domains := domains[cls := ReplaceStar(domainPostfix[cls], prefix)];
        rest := rest - {cls};
      }
    }

    /** `HandleReconcile`: the calls it makes to the reconciler that behaves as `r`, and its result. */
    method HandleReconcile(r: Reconciler) returns (o: Outcome)
      ensures o == Handled(State(), r)
    {
      if !initialized {
        return Outcome([], true, false);
      }
      if !ready {
        return Outcome([], false, false);
      }
      var calls := [GetInstance];
      if r.fetch != Ok {
        if r.fetch == Missing {
          return Outcome(calls, false, false);
        }
        calls := calls + [ReconcileFail];
        return Outcome(calls, false, !IsInvalid(r.fetch));
      }
      calls := calls + [IsInitialized];
      if !r.initialized {
        if r.initialize != Ok {
          calls := calls + [ReconcileFail];
          return Outcome(calls, false, !IsInvalid(r.initialize));
        }
        if r.generationChanged {
          return Outcome(calls, false, false);
        }
      }
      calls := calls + [Operate];
      if r.operate != Ok {
        calls := calls + [ReconcileFail];
        return Outcome(calls, false, !IsInvalid(r.operate));
      }
      return Outcome(calls, false, false);
    }
  }

  // ----- history -----

  function LoadAll(history: seq<StringMap>, p: Parsers): Data {
    if history == [] then ZERO
    else Loaded(LoadAll(history[..|history| - 1], p), history[|history| - 1], p)
  }

  /** The value of `key` in the last map of the history that has it. */
  function LastWith(history: seq<StringMap>, key: string): Option<string> {
    if history == [] then None
    else
      var last := history[|history| - 1];
      if key in last then Some(last[key]) else LastWith(history[..|history| - 1], key)
  }

  /** After any history, every field is the one the last map alone gives, except the host templates
      and the gateways, which follow the last map that has their key. */
  lemma {:induction false} HistoryOfLoads(history: seq<StringMap>, p: Parsers)
    requires history != []
    ensures var postfix := LastWith(history, "domainPostfix");
            var gateways := LastWith(history, "istioGateways");
            LoadAll(history, p) == Loaded(ZERO, history[|history| - 1], p).(
              domainPostfix := if postfix.Some? then p.decodeMap(postfix.value) else map[],
              istioGateways := GatewaysOr(if gateways.Some? then p.decodeList(gateways.value) else []))
  {
    if |history| > 1 {
      HistoryOfLoads(history[..|history| - 1], p);
    } else {
      assert history[..0] == [];
    }
  }

  /** The value of a key of the last map, or a default. */
  function ValueOr(m: StringMap, key: string, default: string): string {
    if key in m then m[key] else default
  }

  /** A number given by a key: by default, and when it does not parse, 30. */
  predicate NumberIs(p: Parsers, text: string, n: int) {
    if p.atoi(text).Some? then n == p.atoi(text).value else n == 30
  }

  /** The switches after any history, each from its own key of the last map: off unless "true", the gateway on
      unless "false", and one monitor rather than the other. */
  lemma SwitchesAre(history: seq<StringMap>, p: Parsers)
    requires history != []
    ensures var s, m := LoadAll(history, p).switches, history[|history| - 1];
            && (s.ingressOpen <==> HasLabel(m, "ingressOpen", "true"))
            && (s.istioInject <==> HasLabel(m, "istioInject", "true"))
            && (s.istioEnable <==> HasLabel(m, "istioEnable", "true"))
            && (s.istioIngressGateway <==> !HasLabel(m, "istioIngressGateway", "false"))
            && (s.serviceMonitorEnable <==> HasLabel(m, "serviceMonitorEnable", "true"))
            && (s.victoriaMetricsEnable <==>
                  HasLabel(m, "victoriaMetricsEnable", "true") && !HasLabel(m, "serviceMonitorEnable", "true"))
            && (s.pvcEnable <==> HasLabel(m, "pvcEnable", "true"))
  {
  }

  /** The texts and numbers after any history, each from its own key of the last map. */
  lemma TextsAre(history: seq<StringMap>, p: Parsers)
    requires history != []
    ensures var d, m := LoadAll(history, p), history[|history| - 1];
            && d.texts.imagePullSecrets == ValueOr(m, "imagePullSecrets", "")
            && d.texts.specialVirtualServiceIngress == ValueOr(m, "specialVirtualServiceIngress", "nginx")
            && d.texts.deploymentSpec == ValueOr(m, "deploymentSpec", "")
            && d.texts.initContainerImage == ValueOr(m, "initContainerImage", "")
            && d.texts.env == ValueOr(m, "env", "")
            && d.texts.baseFlag != "" && d.texts.baseFlag in {"base", ValueOr(m, "baseFlag", "")}
            && (ValueOr(m, "baseFlag", "") != "" ==> d.texts.baseFlag == m["baseFlag"])
            && NumberIs(p, ValueOr(m, "operatorDelay", ""), d.texts.operatorDelay)
            && (if "istioTimeout" in m then NumberIs(p, m["istioTimeout"], d.istioTimeout) else d.istioTimeout == 30)
  {
  }

  /** Map `i` of the history is the last that has the key. */
  predicate LastToHave(history: seq<StringMap>, key: string, i: nat) {
    i < |history| && key in history[i] && forall j | i < j < |history| :: key !in history[j]
  }

  lemma {:induction false} LastWithIs(history: seq<StringMap>, key: string, i: nat)
    ensures LastToHave(history, key, i) ==> LastWith(history, key) == Some(history[i][key])
    ensures (forall j | 0 <= j < |history| :: key !in history[j]) ==> LastWith(history, key) == None
  {
    if history != [] && key !in history[|history| - 1] {
      LastWithIs(history[..|history| - 1], key, i);
    }
  }

  /** The two sticky fields follow the last map that has their key; without gateways there is the mesh. */
  lemma StickyFieldsAre(history: seq<StringMap>, p: Parsers, i: nat)
    requires history != []
    ensures LastToHave(history, "domainPostfix", i) ==>
              LoadAll(history, p).domainPostfix == p.decodeMap(history[i]["domainPostfix"])
    ensures LastToHave(history, "istioGateways", i) ==>
              var gateways := p.decodeList(history[i]["istioGateways"]);
              LoadAll(history, p).istioGateways == if gateways == [] then ["mesh"] else gateways
    ensures (forall j | 0 <= j < |history| :: "domainPostfix" !in history[j]) ==>
              LoadAll(history, p).domainPostfix == map[]
    ensures (forall j | 0 <= j < |history| :: "istioGateways" !in history[j]) ==>
              LoadAll(history, p).istioGateways == ["mesh"]
  {
    HistoryOfLoads(history, p);
    LastWithIs(history, "domainPostfix", i);
    LastWithIs(history, "istioGateways", i);
  }

  /** After any load the two monitors are never both on, and gateways and base flag are not empty. */
  lemma LoadInvariant(history: seq<StringMap>, p: Parsers)
    requires history != []
    ensures var d := LoadAll(history, p);
            !(d.switches.serviceMonitorEnable && d.switches.victoriaMetricsEnable) && d.istioGateways != []
            && d.texts.baseFlag != ""
  {
  }

  /** A load forgets everything before it exactly when the map has both sticky keys. */
  lemma LoadForgetsIff(m: StringMap, p: Parsers)
    ensures (forall previous :: Loaded(previous, m, p) == Loaded(ZERO, m, p))
            <==> "domainPostfix" in m && "istioGateways" in m
  {
    var other := ZERO.(domainPostfix := map["nginx" := "*.x.com"], istioGateways := ["gateway"]);
    if "domainPostfix" !in m || "istioGateways" !in m {
      assert "nginx" in other.domainPostfix;
      assert "gateway" != "mesh";
      assert Loaded(other, m, p) != Loaded(ZERO, m, p);
    }
  }

  // ----- the gate -----

  datatype Gate = Gate(initialized: bool, ready: bool, timers: nat)

  function AfterLoad(g: Gate): Gate {
    Gate(true, g.ready, if g.ready then g.timers else g.timers + 1)
  }

  function AfterFire(g: Gate): Gate
    requires g.timers > 0
  {
    Gate(g.initialized, true, g.timers - 1)
  }

  /** How a call of the reconciler ends: an error is invalid when its text says so. */
  datatype Ending = Ok | Missing | Failed | Invalid

  /** `IgnoreInvalidError` drops such an error, so the event is not retried. */
  predicate IsInvalid(e: Ending) {
    e == Invalid
  }

  datatype Reconciler = Reconciler(fetch: Ending, initialized: bool, initialize: Ending, generationChanged: bool,
                                   operate: Ending)

  datatype ReconcilerCall = GetInstance | IsInitialized | Operate | ReconcileFail

  datatype Outcome = Outcome(calls: seq<ReconcilerCall>, requeued: bool, retried: bool)

  function Handled(g: Gate, r: Reconciler): Outcome {
    if !g.initialized then Outcome([], true, false)
    else if !g.ready then Outcome([], false, false)
    else if r.fetch == Missing then Outcome([GetInstance], false, false)
    else if r.fetch != Ok then Outcome([GetInstance, ReconcileFail], false, !IsInvalid(r.fetch))
    else if !r.initialized && r.initialize != Ok then
      Outcome([GetInstance, IsInitialized, ReconcileFail], false, !IsInvalid(r.initialize))
    else if !r.initialized && r.generationChanged then Outcome([GetInstance, IsInitialized], false, false)
    else if r.operate != Ok then
      Outcome([GetInstance, IsInitialized, Operate, ReconcileFail], false, !IsInvalid(r.operate))
    else Outcome([GetInstance, IsInitialized, Operate], false, false)
  }

  /** The failures a reconcile meets before or in `Operate`, the first one counting. */
  function FirstFailure(r: Reconciler): Ending {
    if r.fetch != Ok then r.fetch
    else if !r.initialized && r.initialize != Ok then r.initialize
    else if !r.initialized && r.generationChanged then Ok
    else r.operate
  }

  /** An event is consumed without its `Operate` having succeeded and without being tried again in
      exactly four cases: it came between loading and readiness, its object is gone, its first
      failure is an invalid one, or initialisation changed the object's generation. */
  lemma EventDroppedIff(g: Gate, r: Reconciler)
    ensures var o := Handled(g, r);
            var succeeded := o.calls != [] && o.calls[|o.calls| - 1] == Operate;
            !succeeded && !o.requeued && !o.retried
            <==> || (g.initialized && !g.ready)
                 || (g.initialized && g.ready && r.fetch == Missing)
                 || (g.initialized && g.ready && FirstFailure(r) == Invalid)
                 || (g.initialized && g.ready && r.fetch == Ok && !r.initialized && r.initialize == Ok
                     && r.generationChanged)
  {
  }

  /** The reconciler reports a failure, and which: of fetching, unless the object is missing, of initialising,
      or of operating. */
  predicate Reports(r: Reconciler, e: Ending) {
    && e != Ok
    && (|| (r.fetch == e && e != Missing)
        || (r.fetch == Ok && !r.initialized && r.initialize == e)
        || (r.fetch == Ok && Operates(r) && r.operate == e))
  }

  /** A fetched object is operated on unless its initialisation fails or changes its generation. */
  predicate Operates(r: Reconciler) {
    r.initialized || (r.initialize == Ok && !r.generationChanged)
  }

  /** What the gate lets through: nothing before it is ready, and then the calls in their order, a failure
      being reported last and retried unless it is an invalid one; before it is initialised, the event
      comes again. */
  lemma CallsAre(g: Gate, r: Reconciler)
    ensures var o := Handled(g, r);
            && (o.requeued <==> !g.initialized)
            && (if !g.initialized || !g.ready then o.calls == [] && !o.retried
                else
                  && o.calls[..1] == [GetInstance]
                  && (IsInitialized in o.calls <==> r.fetch == Ok)
                  && (Operate in o.calls <==> r.fetch == Ok && Operates(r))
                  && (ReconcileFail in o.calls <==> exists e :: Reports(r, e))
                  && (o.retried <==> exists e :: Reports(r, e) && e != Invalid)
                  && (forall i, j | 0 <= i < j < |o.calls| :: CallOrder(o.calls[i]) < CallOrder(o.calls[j])))
  {
    assert forall e :: Reports(r, e) ==> e == FirstFailure(r);
    assert Reports(r, FirstFailure(r)) <==> exists e :: Reports(r, e);
  }

  function CallOrder(c: ReconcilerCall): nat {
    match c
    case GetInstance => 0
    case IsInitialized => 1
    case Operate => 2
    case ReconcileFail => 3
  }

  datatype Event = Load(m: StringMap) | Fire | Reconcile(r: Reconciler)

  predicate Possible(g: Gate, e: Event) {
    e.Fire? ==> g.timers > 0
  }

  function After(g: Gate, e: Event): Gate
    requires Possible(g, e)
  {
    match e
    case Load(_) => AfterLoad(g)
    case Fire => AfterFire(g)
    case Reconcile(_) => g
  }

  function CallsOf(g: Gate, e: Event): seq<ReconcilerCall> {
    if e.Reconcile? then Handled(g, e.r).calls else []
  }

  /** A run of the gate: `states[i]` is the gate before event `i`. */
  predicate IsRun(events: seq<Event>, states: seq<Gate>) {
    && |states| == |events| + 1
    && states[0] == Gate(false, false, 0)
    && forall i | 0 <= i < |events| :: Possible(states[i], events[i]) && states[i + 1] == After(states[i], events[i])
  }

  lemma {:induction false} GateInvariant(events: seq<Event>, states: seq<Gate>, n: nat)
    requires IsRun(events, states) && n < |states|
    ensures states[n].ready || states[n].timers > 0 ==> states[n].initialized
    ensures states[n].initialized && !states[n].ready ==> states[n].timers > 0
    ensures states[n].initialized <==> exists i | 0 <= i < n :: events[i].Load?
    ensures states[n].ready <==> exists i | 0 <= i < n :: events[i].Fire?
  {
    if n > 0 {
      GateInvariant(events, states, n - 1);
      assert Possible(states[n - 1], events[n - 1]) && states[n] == After(states[n - 1], events[n - 1]);
      if events[n - 1].Load? || events[n - 1].Fire? {
        assert states[n].initialized == (states[n - 1].initialized || events[n - 1].Load?);
      }
    }
  }

  /** In every run, under every interleaving of loads and timers: a flag that is set stays set, ready
      implies initialised, once initialised a timer is waiting until ready, and a reconcile calls its
      reconciler (the only way it touches the store) only after a configuration was loaded and, later, a timer fired. */
  lemma NothingBeforeReady(events: seq<Event>, states: seq<Gate>, i: nat)
    requires IsRun(events, states) && i < |events|
    ensures states[i].initialized ==> states[i + 1].initialized
    ensures states[i].ready ==> states[i + 1].ready
    ensures states[i].ready ==> states[i].initialized
    ensures states[i].initialized && !states[i].ready ==> Possible(states[i], Fire)
    ensures CallsOf(states[i], events[i]) != [] ==>
              exists j, k | 0 <= j < k < i :: events[j].Load? && events[k].Fire?
  {
    GateInvariant(events, states, i);
    GateInvariant(events, states, i + 1);
    if CallsOf(states[i], events[i]) != [] {
      var k :| 0 <= k < i && events[k].Fire?;
      GateInvariant(events, states, k);
      assert Possible(states[k], events[k]);
      var j :| 0 <= j < k && events[j].Load?;
    }
  }
}
