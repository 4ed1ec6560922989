# Verification of the elastic environment operator

A Dafny model of the operator's reconcile logic, with proofs about it. The operator turns
SQBApplications, SQBPlanes and SQBDeployments into Services, Ingresses, Deployments,
PersistentVolumeClaims and istio objects. Run `dafny verify dfyconfig.toml`.

## Structure

| file | content |
|---|---|
| `Common.dfy`, `Names.dfy`, `Objects.dfy` | maps, annotation keys, names built by concatenation, the stored objects of one namespace |
| `Routing.dfy`, `VirtualService.dfy`, `Colouring.dfy` | the route compiler, istio's meaning of a route list, the two generators, call chains |
| `Status.dfy`, `StatusProtocol.dfy` | status aggregation with its finalizer, as a concurrent protocol |
| `Istio.dfy`, `IstioProtocol.dfy`, `IstioRuns.dfy`, `IstioRace.dfy` | propagation of istio injection between three kinds of object, on top of the status protocol: its steps, its runs, and the two runs in which it fails |
| `Deletion.dfy`, `ReconcileOutcome.dfy`, `Provenance.dfy`, `DeletionProtocol.dfy`, `Cascade.dfy` | explicit deletion: handlers, what one reconcile does, where deletions come from, reconcile by reconcile and request by request, and what is left in the end |
| `Ingresses.dfy`, `IngressLaws.dfy`, `IngressContent.dfy`, `IngressProtocol.dfy` | the two ingress handlers, their laws, what the ingresses contain, and their controllers running concurrently |
| `Claims.dfy`, `Workload.dfy`, `WorkloadContent.dfy` | PersistentVolumeClaims, the generated Deployment and Service selector, and what they contain |
| `Settings.dfy`, `Merging.dfy` | the configuration entity and reconcile gate, merging of updates |

Objects that handlers change field by field are classes, and their methods are proved against
functions on values; the laws are lemmas about these functions. What an operation achieves is then said of its
inputs alone, without these functions (`...Is`, `...Are`, `...Iff`, `...Outcome`, `...Decides`). Iteration over a Go map or over
listed items takes elements in an arbitrary order. A request that may fail is a nondeterministic
choice. The protocols are state machines: a state, a datatype of steps, and theorems about every
sequence of steps.

## Assumptions

- Reads are consistent, and the configuration does not change during a run of a protocol.
- Labels `app` and `version` of an SQBDeployment agree with `spec.selector`, and neither its labels nor those
  of its Deployment change. In the propagation and ingress protocols they also stay with the name when an
  object is removed and created again.
- Every change of a stored application, a status write included, is an event for its controller
  (`controllers/sqbapplication_controller.go:43-46` sets no predicate).
- No object carries the KubeVela label, which makes updates and deletes silently do nothing.
- Other parties put no finalizers on Deployments and do not remove the operator's. A Deployment that lacks
  the operator's finalizer, because someone else created it, vanishes when it is deleted. That is a step of
  the status protocol (`StatusProtocol.VanishIff`, `StatusProtocol.VanishDanglesIff`) and of the deletion
  protocol; the propagation protocol has no such step.
- A request that fails leaves the store as it was; its error is retried unless its text says
  "invalid" (`Settings.EventDroppedIff` says which events are lost, `StatusProtocol.StepKeepsInvIff` exactly
  when that loses a status update, `StatusProtocol.StatusAccurateOrPending` what it means for a run). In the
  propagation and ingress protocols errors are always retried.
- The operator is ready during a run of the protocols: events before readiness are dropped on purpose.
- md5 checksums and claim-name hashes, `strconv.Atoi` and JSON decoding are function parameters.

## What the proofs found

- `VirtualService.RegenerationKeepsDefaultIff`: a subpath served by the application itself is taken for
  the default route by the next generation, which loses the catch-all.
- `Colouring.SubpathHopLost`: a plane route to a subpath service names a subset that the service's own
  DestinationRule lacks when the service is not deployed in that plane.
- An SQBDeployment can keep an old istio setting, with nothing pending, until its application's next event
  (`IstioRuns.AdriftThroughout`). An initialisation copies the setting as it was read, and when the application
  is edited and reconciled before the copy is written, only the status write that lists a new Deployment
  brings the application controller back. That write does not come in two cases:
  `IstioRace.RecreationLosesSetting`, where the SQBDeployment is removed and created again over a Deployment that is
  already listed, and `IstioRace.DeletionLosesSetting`, where the new Deployment is deleted before it is listed.
  `IstioProtocol.StepKeepsInvIff` says exactly which steps do it. Without them the settings come together:
  `IstioRuns.PropagationUnderNewNames` under every interleaving when SQBDeployments get names without a
  Deployment, no Deployment is deleted before it is listed and no application is put into deletion,
  `IstioRuns.Propagation` also under old names when
  the application controller does not list between the read and the write.
- `StatusProtocol.StepKeepsInvIff`: an error dropped before its reconcile wrote a status that was wrong loses the
  update, unless another Deployment of the application or plane is queued. `StatusProtocol.OutcomeIff`:
  the controller alone then never repairs it.
- `IngressProtocol.EntryLostFromStart`: a public entry closed and opened again while its application is being
  reconciled loses its ingress until the next edit of the SQBDeployment.
- `StatusProtocol.VanishDanglesIff`: a Deployment deleted without the operator's finalizer stays listed in the
  status that lists it, until another Deployment of that application or plane has an event.
- `Cascade.CascadeIff`: an SQBDeployment that was marked before it was initialised is never deleted
  once its application is gone, and neither is a live Deployment without its SQBDeployment.
- `Claims.UnflaggedClaimDeleted`: a volume that names a claim without the claim flag can lose it.
- `IngressLaws.EntrySurvivesIff`: closing an application's ingress also removes the ingress of a public
  entry that is still wanted.
- `IngressLaws.CreateDeleteRoundTripIff`: an ingress for a domain with an empty class is never collected.
- `Deletion.OperatorStore.MarkByLabel`: marking an SQBDeployment without annotations writes to a nil map.
- `ReconcileOutcome.SqbDeletionOutcome`: a confirmed SQBDeployment that is not initialised is not deleted while its
  application is missing.

The code and its documentation disagree in places; the model follows the code. The README of the
repository says that an SQBDeployment inherits the application's deploy settings and that its plane
defaults to base; the handlers do neither. The end-to-end tests expect ingress names of the older form
`app-class`; the handlers write `app.class.host` and only recognise the older form. The VirtualService
and DestinationRule handlers are complete but commented out of the application's handler list
(`domain/handler/sqbapplication_handler.go:46-47`); they are modelled as they stand.

## Model

| member | source | states |
|---|---|---|
| Routing.RoutingRefinement | domain/handler/virtualservice_handler.go:75-116 | for every plane set, iteration order, subpath list, default route and request: first-match evaluation picks a named feature plane if there is one, else base, and there the first matching subpath, else the application |
| Routing.OrderIndependenceIff | domain/handler/virtualservice_handler.go:81-97 | the chosen route is the same for all map iteration orders if and only if the request's signals name at most one feature plane |
| Routing.PlaneRulesDecide | domain/handler/virtualservice_handler.go:166-204 | the routes of one plane match exactly the requests that signal it by header, query or source label, at the first matching path |
| Routing.BaseRulesDecide | domain/handler/virtualservice_handler.go:206-227 | the base routes decide by path alone and fall through to the default route |
| VirtualService.HttpDecides | domain/handler/virtualservice_handler.go:75-116 | for every request and stored list, the first matching generated route leads, with its timeout, to the service of the first matching subpath, else the application, in the named feature plane, with the flag set, else in base; there a stored base default is used as it is, and without one nothing is lost |
| VirtualService.SqbApplication.GetOrGenerateHttpRoutes | domain/handler/virtualservice_handler.go:75-116 | the loops produce a list that sends every request where `HttpDecides` says, and put the base entry back into the shared plane map |
| VirtualService.SqbApplication.GetOrGenerateTcpRoutes | domain/handler/virtualservice_handler.go:118-164 | the same for TCP: every connection goes where `TcpDecides` says |
| VirtualService.SqbApplication.TcpRoutesForPorts | domain/handler/virtualservice_handler.go:40-47 | stored TCP routes are considered only when the first port is a stream port, dropped when no port is, left alone when there is no port |
| VirtualService.StreamPortIff | domain/handler/virtualservice_handler.go:40-47 | a port is a stream port if and only if its name up to the first dash is tcp, mongo, mysql or redis in any case |
| VirtualService.FindHttpRoute | domain/handler/virtualservice_handler.go:259-291 | the search returns the first route whose first destination is the host in the plane's subset |
| VirtualService.TcpRefinement | domain/handler/virtualservice_handler.go:126-162 | a connection from a pod of a deployed feature plane stays in it, any other goes to the base default if that matches it, for every iteration order |
| VirtualService.TcpDecides | domain/handler/virtualservice_handler.go:126-162 | for every source label and stored list, the first matching generated route leads to the application in the source's plane, if that is a deployed feature plane, and otherwise, base being deployed, to base: by the first stored route to it as far as that matches, or unconditionally |
| VirtualService.RegenerationKeepsDefaultIff | domain/handler/virtualservice_handler.go:98-114 | a hand-edited base default survives regeneration if and only if no subpath is served by the application itself, or the first such route equals it |
| VirtualService.RegenerationLosesCatchAll | domain/handler/virtualservice_handler.go:101-114 | the concrete input on which the catch-all is lost |
| VirtualService.RegenerationIdempotent | domain/handler/virtualservice_handler.go:75-116 | otherwise a second generation gives the same multiset of routes for any two iteration orders |
| VirtualService.SqbApplication.GenerateSubsets | domain/handler/destinationrule_handler.go:33-43 | one subset per plane of the status |
| VirtualService.SubsetNamesDistinct | domain/util/util.go:42-45 | subset names are pairwise distinct and name exactly the deployed planes |
| VirtualService.SubsetSelects | domain/handler/destinationrule_handler.go:33-43 | a subset selects exactly the pods whose version label is its plane |
| Names.SubsetNameParts | domain/util/util.go:42-45 | a subset is named after the service without its domain, a dash and the plane |
| VirtualService.HttpSubsetClosure | domain/handler/virtualservice_handler.go:87-114 | HTTP routes to the application use declared subsets only, and every subset is used |
| VirtualService.TcpSubsetClosure | domain/handler/virtualservice_handler.go:127-162 | the same for TCP routes |
| VirtualService.BaseResetUnchangedIff | domain/handler/virtualservice_handler.go:81-100 | the detour of the base entry leaves the plane map unchanged if and only if its value was 1 |
| Colouring.ColouredHop | domain/handler/virtualservice_handler.go:186-203 | one hop of a coloured request, exactly: service, plane, forwarded flag, and when it finds no pods |
| Colouring.ColouringOfChains | domain/handler/virtualservice_handler.go:186-227 | over chains of any length every visit is in the plane where the called application has it, in base otherwise, with the flag unchanged |
| Colouring.ChainsComplete | domain/handler/destinationrule_handler.go:33-43 | no hop is lost when subpath services have the planes of the applications listing them |
| Colouring.SubpathHopLost | domain/handler/virtualservice_handler.go:89-93 | without that, a hop can be lost |
| Status.StatusStore.Operate | domain/handler/deployment_handler.go:426-507 | a successful reconcile gives exactly the live application and plane that the labels name the aggregated maps, removes a Deployment being deleted and changes nothing else; a failed one is a proper prefix of the five small steps |
| Status.StatusStore.Aggregate | domain/handler/deployment_handler.go:441-450 | a name is a mirror if and only if it is that of a stored, not deleting, labelled Deployment, and a plane is listed if and only if such a Deployment has it as version label; values are 1 |
| Status.StepsAggregate | domain/handler/deployment_handler.go:426-507 | the five steps that the protocol interleaves have, undisturbed, that effect |
| StatusProtocol.StepKeepsInvIff | domain/handler/deployment_handler.go:426-507 | every step of users, worker and failures keeps the invariant "accurate, or pending", except exactly a dropped error, a late creation, or a Deployment vanishing without the finalizer, with nothing to make up for them |
| StatusProtocol.StatusAccurateOrPending | controllers/deployment_controller.go:46-66 | in every reachable state every live status lists exactly the live labelled Deployments and the planes in their version labels, or a labelled Deployment has a pending event, or the worker holds the list it is about to write, or an update was lost and no labelled Deployment has had an event since; without dropped errors, late applications and vanishing Deployments none is lost |
| StatusProtocol.OutcomeIff | domain/handler/deployment_handler.go:426-507 | wherever the controller alone leads once nothing is pending, a status is accurate if and only if the invariant held of it at the start |
| StatusProtocol.FinalizerSafety | domain/handler/deployment_handler.go:500-505 | in every reachable state, whatever updates were lost, every mirror of a live application or plane is a stored Deployment with that label, or one that vanished without the operator's finalizer |
| StatusProtocol.VanishDanglesIff | domain/handler/deployment_handler.go:500-505 | a Deployment that vanishes leaves a mirror of nothing if and only if the status lists it or the worker is about to write that it does |
| StatusProtocol.VanishIff | controllers/deployment_controller.go:49-64 | the status stays accurate or pending if and only if the view does not change for it or a list, an event or work of another labelled Deployment makes up for it |
| StatusProtocol.Converges | domain/handler/deployment_handler.go:426-507 | from every reachable state the controller alone reaches one with nothing pending, in which exactly the statuses that were accurate or pending are accurate |
| StatusProtocol.LateCreationIff | domain/handler/deployment_handler.go:451-466 | an application or plane created after its Deployments is covered if and only if none is live, or one is pending or in work |
| StatusProtocol.InvalidErrorLosesUpdate | domain/util/util.go:47-56 | a run in which a dropped error leaves a wrong status with nothing pending |
| Istio.SqbStore.PropagateIstio | domain/handler/sqbdeploymentlist_handler.go:27-45 | exactly the initialised SQBDeployments with another setting are changed; after a failed request, a subset of them |
| Istio.FanOutIs | domain/handler/sqbdeploymentlist_handler.go:27-45 | the fan-out sets the annotation of exactly the initialised SQBDeployments labelled with the application, to whether istio is enabled and asked for or the default |
| Istio.SqbStore.HandleIstio | domain/handler/sqbdeploymentlist_handler.go:102-119 | the decision for one SQBDeployment |
| Istio.SqbStore.IsInitialized | domain/handler/sqbdeployment_handler.go:27-49 | initialisation copies the application's effective setting and fails without the application |
| IstioProtocol.StepKeepsInvIff | domain/handler/sqbdeployment_handler.go:33-48 | every step of users and of three controllers keeps the invariant "settings agree, or a pending step is due to bring them together", except exactly the write of an initialisation whose setting has changed and been listed since the read, with no listing of its Deployment to come, and the deletion of a Deployment whose listing was all that was due |
| IstioRuns.Propagation | controllers/controllers.go:11-26 | in every run in which each initialisation is written before the application controller lists for its application again, or is the first of its name, and no Deployment is deleted before its application lists it, settings agree or the difference is due; at quiescence application, SQBDeployment and pod template, if there is one, agree, and there is one unless its deletion was requested |
| IstioRuns.PropagationUnderNewNames | controllers/sqbapplication_controller.go:43-46 | the same under every interleaving of reads and writes, when SQBDeployments are created under names without a Deployment, no application is put into deletion, and no Deployment is deleted before its application lists it |
| IstioRuns.DueIsRepaired | domain/handler/deployment_handler.go:441-466 | what the invariant calls due is repaired: wherever the controllers alone lead at rest, failures included, the settings agree |
| IstioRuns.OutcomeIff | domain/handler/sqbdeploymentlist_handler.go:27-45 | once the application's status is settled, the settings differ wherever the controllers alone lead at rest if and only if they differed at the start with no event, read or update before the application controller |
| IstioProtocol.CoreRefines | domain/handler/deployment_handler.go:106-164 | the propagation protocol refines the status protocol: writing a Deployment is one of its steps, with an event only for a creation |
| IstioRuns.InitialiseOutcomeIff | domain/handler/sqbdeployment_handler.go:33-48 | when an initialisation is written with the application's status settled, the settings differ wherever the controllers alone lead at rest if and only if the application changed its setting since the read, the change was heard and listed, and no update is left to conflict with the write |
| IstioRuns.AdriftThroughout | domain/handler/sqbdeploymentlist_handler.go:27-45 | a difference before nobody stays, whatever anyone does, until the application has an event, such as the listing of a Deployment |
| IstioRace.RecreationLosesSetting | domain/handler/sqbdeployment_handler.go:33-48 | a run from the beginning to a state at rest in which the settings disagree over an existing Deployment |
| IstioRace.DeletionLosesSetting | domain/handler/deployment_handler.go:441-459 | a run from the beginning, under a new name, to a state at rest in which the settings disagree, because the Deployment was deleted before it was listed |
| IstioRuns.UndisturbedFanOut | domain/handler/sqbdeploymentlist_handler.go:34-43 | the protocol's fan-out steps, undisturbed, have the effect of the handler's loop |
| Deletion.OperatorStore.MarkByLabel | domain/handler/sqbdeploymentlist_handler.go:73-85 | the listed SQBDeployments are marked with their own checksums; one without annotations makes it panic |
| Deletion.OperatorStore.OperateApplication | domain/handler/sqbapplication_handler.go:29-66 | success and panic have the effect specified; failure leaves the handlers up to some point done, ingresses and marks in part; a wrong checksum leaves nothing |
| Deletion.OperatorStore.OperatePlane | domain/handler/sqbplane_handler.go:30-54 | the same for planes |
| Deletion.OperatorStore.OperateSqb | domain/handler/sqbdeployment_handler.go:52-81 | claims, Deployment, entry and special VirtualService: success has the effect specified, failure that of the handlers up to some point, a wrong checksum none |
| Deletion.OperatorStore.ReconcileSqb | domain/handler/handler.go:55-90 | initialisation and operation together are one reconcile, whole or in part |
| Deletion.DeletionNeedsNoApplication | domain/handler/sqbdeployment_handler.go:52-81 | a confirmed, initialised SQBDeployment goes at its next successful reconcile, with its entry and its Deployment deleting, however often reconciles failed before and whatever applications there are |
| Deletion.WrongChecksumChangesNothing | domain/handler/handler.go:128-137 | while the delete annotation is there and is not the checksum of the object's name, a reconcile, whether or not its requests fail, changes nothing but that an SQBDeployment may be initialised |
| ReconcileOutcome.ApplicationDeletionOutcome | domain/handler/sqbapplication_handler.go:29-66 | with the right checksum: Service and application are gone and every labelled SQBDeployment carries its own checksum, or, one of them having no annotations, the application stays |
| ReconcileOutcome.ApplicationOutcome | domain/handler/sqbapplication_handler.go:29-66 | without a checksum: the Service is there and the initialised SQBDeployments have the setting |
| ReconcileOutcome.PlaneOutcome | domain/handler/sqbplane_handler.go:30-54 | the same for planes |
| ReconcileOutcome.SqbDeletionOutcome | domain/handler/sqbdeployment_handler.go:52-81 | with the right checksum the SQBDeployment is gone, its Deployment deleting or gone depending on the finalizer, its special VirtualService gone; uninitialised and without its application it stays |
| ReconcileOutcome.SqbOutcome | domain/handler/sqbdeployment_handler.go:27-81 | without a checksum it is initialised, has its Deployment and, as a public entry under istio, its special VirtualService; without its application nothing happens |
| ReconcileOutcome.SqbClaimsOutcome | domain/handler/pvc_handler.go:130-138 | the claims of the same reconcile |
| ReconcileOutcome.NamedVolumesAre | domain/handler/pvc_handler.go:41-45 | the Deployment is generated from the volumes with their claims named |
| Provenance.DeleteProvenance | domain/handler/handler.go:128-137 | over whole runs with failures, every application, Service, plane, SQBDeployment and Deployment that the operator deletes traces to an event in which a user stored it, its application or its plane with the delete annotation equal to the checksum of its name, and it did not have that before |
| Provenance.ReconcileMarks | domain/handler/sqbdeploymentlist_handler.go:73-100 | a reconcile confirms an SQBDeployment only under a confirmed application or plane named by its labels |
| Provenance.ReconcileDeletes | domain/handler/sqbapplication_handler.go:59-60 | a reconcile deletes only under a confirmed mark on the object itself |
| DeletionProtocol.SplitProvenance | domain/handler/handler.go:128-137 | the same with every read, list and write of concurrent, failing controllers a step of its own and users acting in between |
| DeletionProtocol.NoOtherDeletion | domain/handler/sqbapplication_handler.go:29-66 | the deletions that provenance speaks of are all there are: no other request removes a Service, application, plane or SQBDeployment or puts a Deployment into deletion |
| DeletionProtocol.UndisturbedPlane | domain/handler/sqbplane_handler.go:30-54 | undisturbed, the requests of the plane controller have the effect of its handler |
| DeletionProtocol.UndisturbedApplication | domain/handler/sqbapplication_handler.go:29-66 | so have those of the application controller |
| DeletionProtocol.UndisturbedDeletion | domain/handler/sqbdeployment_handler.go:52-81 | and those of the SQBDeployment controller |
| Cascade.StepKeepsGone | domain/handler/sqbdeployment_handler.go:52-81 | once the application is deleted, every reconcile of anything keeps it so, and what is left of it only shrinks |
| Cascade.MeasureDecreases | domain/handler/sqbdeployment_handler.go:52-81 | no reconcile of anything increases the number of SQBDeployments and Deployments that remain, and every due one decreases it |
| Cascade.CascadeIff | domain/handler/sqbdeployment_handler.go:27-31 | an infinite fair run then reaches a state with nothing of the application if and only if its SQBDeployments were initialised and no live Deployment was orphaned |
| Cascade.CascadeComplete | domain/handler/sqbdeploymentlist_handler.go:47-53 | from a confirmed application with initialised SQBDeployments, in any infinite run in which every object that is there gets a turn sooner or later, there is a point from which on no application, Service, generated ingress, SQBDeployment or Deployment of it is left |
| Ingresses.IngressStore.HandleApplication | domain/handler/ingress_handler.go:34-164 | the loops have the effect of the specified application step, for any listing order; a failed request leaves a prefix of the writes, or all of them and some of the deletions |
| Ingresses.IngressStore.HandleDeployment | domain/handler/ingress_handler.go:167-243 | the same for an SQBDeployment's entry |
| IngressLaws.WriteDomainsAt | domain/handler/ingress_handler.go:37-126 | ingress by ingress: owner labels, right-biased union of all merged annotations, rule of the last domain of that name |
| IngressContent.DomainIngressIs | domain/handler/ingress_handler.go:37-126 | after the step of a serving application, the ingress of each domain is named application.class.host and has the domain's host, its class and annotations, and as backends the gateway alone, under istio with a gateway, or else the subpath services in order and the Service at its first target port or 80 |
| IngressContent.OtherIngressIs | domain/handler/ingress_handler.go:128-163 | any other ingress is unchanged, and gone if and only if it looks generated for the application and is no public entry of a serving one |
| IngressContent.EntryIngressIs | domain/handler/ingress_handler.go:167-243 | after the step of an SQBDeployment its entry is there if and only if it is a public entry not being deleted, and then leads the host of its class to the gateway |
| IngressContent.ApplicationStepRetried | domain/handler/ingress_handler.go:34-164 | whatever a failed step left, the next that succeeds brings what it would have brought at once |
| IngressLaws.CollectionExact | domain/handler/ingress_handler.go:128-163 | at every name, after the step of a serving application: a domain's ingress is there, and looks generated if and only if the last domain of that name has a class; any other is unchanged, or is gone because it looked generated and is no public entry |
| IngressLaws.ApplicationStepIdempotent | domain/handler/ingress_handler.go:34-164 | the application step is a fixpoint, duplicate domains included |
| IngressLaws.CreateDeleteRoundTripIff | domain/handler/ingress_handler.go:208-226 | creating and then deleting restores the store if and only if every domain has a class |
| IngressProtocol.NonInterference | domain/handler/ingress_handler.go:138-162 | with both controllers interleaved request by request and users creating, editing and removing SQBDeployments, classes of entries included, every open entry and every domain has its ingress and keeps it, or it will be written, in every run in which no entry is opened while its deletion is already decided |
| IngressProtocol.StepKeepsInvIff | domain/handler/ingress_handler.go:157-163 | every step keeps that invariant, except exactly the write of an entry whose deletion is already decided and for which no other event is pending |
| IngressProtocol.ReopenedEntryLost | domain/handler/ingress_handler.go:128-163 | from any state at rest, a run that closes and opens a public entry leaves it without its ingress, at rest |
| IngressProtocol.EntryLostFromStart | domain/handler/ingress_handler.go:128-163 | such a run exists from the beginning |
| IngressProtocol.LostUntilEdit | controllers/sqbdeployment_controller.go:44-48 | a lost entry stays lost, whatever anyone does, until a user edits or removes its SQBDeployment |
| IngressProtocol.UndisturbedApplication | domain/handler/ingress_handler.go:34-164 | undisturbed, the protocol's requests of the application controller have the effect of its handler |
| IngressProtocol.UndisturbedSqb | domain/handler/ingress_handler.go:167-243 | and so do those of the SQBDeployment controller |
| IngressLaws.DeploymentStepFrame | domain/handler/ingress_handler.go:228-243 | an SQBDeployment step touches its own entry only |
| IngressLaws.EntrySurvivesIff | domain/handler/ingress_handler.go:245-254 | an entry just written survives its application's step if and only if the application serves or the ingress does not look generated; one newly created looks generated if and only if its class is not empty |
| Names.IngressNameInjective | domain/handler/ingress_handler.go:268-270 | ingress names are injective for dot-free applications and classes |
| Names.OldNameIsNotNew | domain/handler/ingress_handler.go:277-285 | a name of the older form is never a name of the present form, for dot-free applications and classes |
| Names.ReplaceStarInjective | domain/entity/sqbconfigmap_entity.go:129-143 | different prefixes give different hosts if and only if the template has a star |
| Names.ReplaceStarParts | domain/entity/sqbconfigmap_entity.go:129-143 | substitution puts the prefix for every star and leaves the rest |
| Claims.ClaimStore.CreateOrUpdate | domain/handler/pvc_handler.go:28-95 | volumes are named through their pointers and the claims become the specified difference; a failed request leaves the claims of a prefix of the volumes, or all of them and some of the deletions |
| Claims.ClaimStore.Handle | domain/handler/pvc_handler.go:130-138 | with claims disabled neither claims nor volumes are touched; otherwise creation or deletion |
| Claims.RetryAfterPart | domain/handler/pvc_handler.go:28-95 | a run that succeeds after a failed one gives the claims it would have given at once |
| Claims.ClaimStore.DeleteAll | domain/handler/pvc_handler.go:97-107 | reports only a list that fails; otherwise complete if and only if no labelled claim's request fails |
| Claims.ReconciledExact | domain/handler/pvc_handler.go:28-95 | wanted claims exist, labelled unwanted ones are gone, others are untouched |
| Claims.ClaimIs | domain/handler/pvc_handler.go:28-95 | a claim is there afterwards if and only if a flagged volume names it or it was there and lacks the labels; a new one has the SQBDeployment's labels and the storage class of its group |
| Claims.ReconciledIdempotent | domain/handler/pvc_handler.go:28-95 | a second run changes no claim |
| Claims.NoDanglingClaimIff | domain/handler/deployment_handler.go:186-247 | which volumes become claim references, and exactly when the named claim exists, with claims enabled and disabled |
| Claims.UnflaggedClaimDeleted | domain/handler/pvc_handler.go:37-40 | the input on which a referenced claim is deleted |
| Workload.DeploymentObject.Generate | domain/handler/deployment_handler.go:38-164 | assigning the fields step by step gives the specified Deployment, and the shared health check ends with a delay of 10 |
| WorkloadContent.GeneratedMounts | domain/handler/deployment_handler.go:60-68 | the container mounts exactly the volumes not at /etc/podinfo, in order, and each has its volume if and only if its spec gives a source |
| WorkloadContent.GeneratedVolumes | domain/handler/deployment_handler.go:186-270 | the pod's volumes are exactly the first given source of each spec, under the number of its position |
| WorkloadContent.GeneratedInitContainer | domain/handler/deployment_handler.go:136-153 | when there is an init container, its image and command, and that it mounts every volume |
| WorkloadContent.GeneratedProbes | domain/handler/deployment_handler.go:348-369 | the three probes of a health check, and none without one |
| WorkloadContent.GeneratedPod | domain/handler/deployment_handler.go:285-293 | container, node affinity, service account and anti-affinity |
| WorkloadContent.GeneratedLabels | domain/handler/deployment_handler.go:97-135 | the labels of Deployment and pod, key by key |
| WorkloadContent.GeneratedAnnotations | domain/handler/deployment_handler.go:116-133 | the annotations of Deployment and pod, key by key |
| WorkloadContent.GeneratedRollout | domain/handler/deployment_handler.go:97-159 | replicas, selector, finalizer, and that a rolling update with the default takes no pod away |
| Workload.MountHasVolumeIff | domain/handler/deployment_handler.go:186-270 | a mount has a volume, and only one, if and only if its spec gives a source |
| Workload.SelectorImmutable | domain/handler/deployment_handler.go:97-108 | over any history the selector is the one of creation and the template satisfies it |
| Workload.SelectorKept | domain/handler/deployment_handler.go:132-135 | a template satisfies its selector if and only if the selector lacks the stripped tracing label |
| Workload.RegenerateIdempotent | domain/handler/deployment_handler.go:38-164 | a second run from the same stored SQBDeployment changes nothing |
| Workload.ReusedObjectDiffersIff | domain/handler/deployment_handler.go:348-369 | a run that reuses the in-memory object agrees if and only if the delay already was 10 |
| Workload.ServiceSelectsIff | domain/handler/service_handler.go:40-57 | the operator's Service selects a Deployment's pods if and only if it bears the application name of the Deployment's creation |
| WorkloadContent.ServiceSelectorIs | domain/handler/service_handler.go:40-57 | the selector of a Service, key by key, over any stored one |
| Settings.ConfigEntity.FromMap | domain/entity/sqbconfigmap_entity.go:50-118 | loading has the specified effect on the data, the flags and the timers |
| Settings.SwitchesAre | domain/entity/sqbconfigmap_entity.go:56-66 | after any history each switch follows its own key of the last map |
| Settings.TextsAre | domain/entity/sqbconfigmap_entity.go:67-107 | so do the texts and numbers, with their defaults |
| Settings.StickyFieldsAre | domain/entity/sqbconfigmap_entity.go:77-90 | host templates and gateways follow the last map that has their key |
| Settings.HistoryOfLoads | domain/entity/sqbconfigmap_entity.go:50-118 | after any history every field follows the last map, except two that follow the last map having their key |
| Settings.LoadForgetsIff | domain/entity/sqbconfigmap_entity.go:77-90 | a load forgets the past if and only if the map has both sticky keys |
| Settings.LoadInvariant | domain/entity/sqbconfigmap_entity.go:61-64 | monitors are never both on, gateways and base flag never empty |
| Settings.ConfigEntity.HandleReconcile | domain/handler/handler.go:55-90 | the calls made to the reconciler and the result, for every way it may behave |
| Settings.CallsAre | domain/handler/handler.go:55-90 | which calls are made, in which order, and when the event is requeued or retried, by the state of the gate and the way the reconciler ends |
| Settings.EventDroppedIff | domain/handler/handler.go:55-90 | the four cases, and only these, in which an event is consumed without success or retry |
| Settings.NothingBeforeReady | domain/entity/sqbconfigmap_entity.go:108-117 | in every run the flags are monotone, ready implies initialised, initialised and not ready implies that a timer is waiting, and a reconciler is called only after a load and a later timer |
| Merging.ApplicationObject.Merge | api/v1alpha1/sqbapplication_types.go:141-185 | the field updates have the effect of the merge of values |
| Merging.MergeAssociativeIdempotent | api/v1alpha1/sqbapplication_types.go:141-185 | merging is associative and idempotent |
| Merging.FoldFieldByField | api/v1alpha1/sqbapplication_types.go:141-185 | a folded history is, field by field, the last value, the last nonempty value or the right-biased union |
| Common.MergeStringMap | domain/util/util.go:11-20 | right-biased union |
| Common.ContainString | domain/util/util.go:23-30 | membership |

## Left out

- The configuration's remaining getters, manager wiring, webhook, clientset, generated code, logging and locks.
- Monitoring and scrape handlers, gray services and the contents of special VirtualServices: straight copying.
- Error texts in statuses, and the status updates that only clear them.
- `mergo` merging of a global deployment spec: foreign behaviour; the spec is taken to be empty.
- API defaulting of stored objects, and the restart of the operator, which drops events by design.
- Lists with several namespaces: every request of the handlers stays in the object's namespace.
- Istio matching beyond prefix, exact, header, query and source-label conditions: the generators use no other.
- IngressProtocol.NonInterference: applications are fixed during a run and all serve; what an application that stops serving does to entries is `IngressLaws.EntrySurvivesIff`.
- IstioRuns.Propagation: errors are retried, and no Deployment vanishes without the finalizer; what a dropped error or a vanishing Deployment loses is stated for the status protocol.
- Explicit deletion inside the propagation and status protocols: it has its own model.
- Claims and special VirtualServices in the final state of the cascade: a claim whose deletion fails stays without an error, and special VirtualServices belong to SQBDeployments that are gone.
- Provenance.DeleteProvenance: says nothing about ingresses, claims and VirtualServices, which are collected without a checksum.
- `SQBDeployment.Merge` and `SQBPlane.Merge`: the same operations on fewer fields.
