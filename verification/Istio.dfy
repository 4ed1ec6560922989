/** Istio injection: the initialisation of an SQBDeployment, the fan-out of an application's setting
    to its SQBDeployments, and the annotation that reaches the pod template. */
module Istio {
  import opened Common
  import opened Objects
  import opened Workload

  type SqbMap = map<string, SqbDeployment>

  /** The inject annotation of an SQBDeployment. */
  function InjectOf(sd: SqbDeployment): string {
    Lookup(sd.annotations, ISTIO_INJECT_KEY)
  }

  /** The inject annotation of the pod template of a Deployment. */
  function PodInject(d: Deployment): string {
    Lookup(d.template.annotations, SIDECAR_INJECT_KEY)
  }

  function WithInject(sd: SqbDeployment, value: string): SqbDeployment {
    sd.(annotations := sd.annotations[ISTIO_INJECT_KEY := value])
  }

  function WithInit(sd: SqbDeployment, value: string): SqbDeployment {
    sd.(annotations := sd.annotations[INITIALIZE_KEY := "true"][ISTIO_INJECT_KEY := value])
  }

  lemma WithInitOf(sd: SqbDeployment, value: string)
    ensures Initialized(WithInit(sd, value)) && InjectOf(WithInit(sd, value)) == value
    ensures Initialized(WithInject(sd, value)) <==> Initialized(sd)
    ensures InjectOf(WithInject(sd, value)) == value
  {
  }

  /** The generated pod template carries the SQBDeployment's annotation. */
  lemma RegenerateInject(previous: Deployment, sd: SqbDeployment, cfg: Config)
    ensures PodInject(Regenerate(previous, sd, cfg)) == InjectOf(sd)
  {
  }

  /** The initialised SQBDeployments labelled with the application whose annotation is not `value`. */
  function Stale(sds: SqbMap, app: string, value: string): set<string> {
    set s | s in sds && HasLabel(sds[s].labels, APP_KEY, app) && Initialized(sds[s]) && InjectOf(sds[s]) != value
  }

  function Propagated(sds: SqbMap, done: set<string>, value: string): SqbMap {
    map s | s in sds :: if s in done then WithInject(sds[s], value) else sds[s]
  }

  /** The fan-out gives exactly the initialised SQBDeployments labelled with the application its setting, and
      changes nothing else about them. */
  lemma FanOutIs(sds: SqbMap, name: string, app: Application, cfg: Config)
    ensures var value := InjectValue(app, cfg);
            var after := Propagated(sds, Stale(sds, name, value), value);
            && after.Keys == sds.Keys
            && forall s | s in sds ::
                 after[s] == if HasLabel(sds[s].labels, APP_KEY, name)
                                && HasLabel(sds[s].annotations, INITIALIZE_KEY, "true")
                             then sds[s].(annotations := sds[s].annotations[
                               ISTIO_INJECT_KEY := if UnderIstio(app, cfg) then "true" else "false"])
                             else sds[s]
  {
    EffectiveSettings(app, cfg);
    forall s | s in sds && InjectOf(sds[s]) == InjectValue(app, cfg)
      ensures sds[s].annotations[ISTIO_INJECT_KEY := InjectValue(app, cfg)] == sds[s].annotations
    {
    }
  }

  class SqbStore {
    var apps: map<string, Application>
    var sds: SqbMap

    constructor (apps: map<string, Application>, sds: SqbMap)
      ensures this.apps == apps && this.sds == sds
    {
      this.apps, this.sds := apps, sds;
    }

    /** `CreateOrUpdateForSqbapplication`: an update that fails ends the loop with an error. */
    method PropagateIstio(name: string, app: Application, cfg: Config) returns (error: bool)
      modifies this`sds
      ensures var value := InjectValue(app, cfg);
              && (!error ==> sds == Propagated(old(sds), Stale(old(sds), name, value), value))
              && (error ==> exists done | done <= Stale(old(sds), name, value) :: sds == Propagated(old(sds), done, value))
    {
      ghost var value, before := InjectValue(app, cfg), sds;
      ghost var done: set<string> := {};
      var items := set s | s in sds && HasLabel(sds[s].labels, APP_KEY, name);
      ghost var all := items;
      while items != {}
        invariant items <= all
        invariant done == Stale(before, name, value) - items
        invariant sds == Propagated(before, done, value)
      {
        var s :| s in items;
        var sd, changed := HandleIstio(app, sds[s], cfg);
        if changed {
          var fails: bool := *;
          if fails {
            assert done <= Stale(before, name, value);
            return true;
          }
          sds := sds[s := sd];
          done := done + {s};
        }
        items := items - {s};
      }
      assert done == Stale(before, name, value);
      return false;
    }

    /** `handleIstio`: the possibly changed SQBDeployment. */
    method HandleIstio(app: Application, sd: SqbDeployment, cfg: Config) returns (after: SqbDeployment, changed: bool)
      ensures changed <==> Initialized(sd) && InjectOf(sd) != InjectValue(app, cfg)
      ensures after == if changed then WithInject(sd, InjectValue(app, cfg)) else sd
    {
      after, changed := sd, false;
      if Lookup(sd.annotations, INITIALIZE_KEY) != "true" {
        return;
      }
      if IstioInject(app, cfg) {
        if Lookup(sd.annotations, ISTIO_INJECT_KEY) == "true" {
          return;
        }
        after, changed := sd.(annotations := sd.annotations[ISTIO_INJECT_KEY := "true"]), true;
      } else {
        if Lookup(sd.annotations, ISTIO_INJECT_KEY) == "false" {
          return;
        }
        after, changed := sd.(annotations := sd.annotations[ISTIO_INJECT_KEY := "false"]), true;
      }
    }

    /** `IsInitialized` on the fetched SQBDeployment `seen`; it fails without the application. */
    method IsInitialized(name: string, seen: SqbDeployment, cfg: Config)
      returns (yes: bool, error: bool, after: SqbDeployment)
      requires name in sds && sds[name] == seen
      modifies this`sds
      ensures yes <==> Initialized(seen)
      ensures yes ==> after == seen && sds == old(sds) && !error
      ensures !yes && error ==> sds == old(sds)
      ensures seen.app !in apps && !Initialized(seen) ==> error
      ensures !yes && !error ==>
                && seen.app in apps
                && after == WithInit(seen, InjectValue(apps[seen.app], cfg))
                && sds == old(sds)[name := after]
    {
      after := seen;
      if Lookup(seen.annotations, INITIALIZE_KEY) == "true" {
        return true, false, seen;
      }
      if seen.app !in apps {
        return false, true, seen;
      }
      var annotations := seen.annotations[INITIALIZE_KEY := "true"];
      if IstioInject(apps[seen.app], cfg) {
        annotations := annotations[ISTIO_INJECT_KEY := "true"];
      } else {
        annotations := annotations[ISTIO_INJECT_KEY := "false"];
      }
      after := seen.(annotations := annotations);
      yes, error := false, *;
      if !error {
        sds := sds[name := after];
      }
    }
  }
}
