/** The PersistentVolumeClaim handler: the loop that compares wanted with labelled claims, and the
    volume specs it names through shared pointers before the Deployment is generated. */
module Claims {
  import opened Common
  import opened Objects
  import opened Workload

  datatype PersistentClaim = PersistentClaim(labels: StringMap, storageClass: string)

  type ClaimMap = map<string, PersistentClaim>

  /** What the handler knows of its SQBDeployment: labels and creation time, and the hash in names. */
  datatype Owner = Owner(labels: StringMap, created: string, hash: string -> string)

  function OwnerOf(sd: SqbDeployment, cfg: Config): Owner {
    Owner(sd.labels, sd.created, cfg.claimHash)
  }

  function ClaimNameFor(o: Owner, mountPath: string): string {
    Lookup(o.labels, APP_KEY) + "-" + Lookup(o.labels, PLANE_KEY) + "-" + o.hash(mountPath + o.created)
  }

  /** A volume spec once the handler has seen it. */
  function Named(o: Owner, v: VolumeSpec): VolumeSpec {
    if v.claim && v.claimName == "" then v.(claimName := ClaimNameFor(o, v.mountPath)) else v
  }

  predicate Selected(o: Owner, c: PersistentClaim) {
    HasLabel(c.labels, APP_KEY, Lookup(o.labels, APP_KEY)) && HasLabel(c.labels, PLANE_KEY, Lookup(o.labels, PLANE_KEY))
  }

  function Labelled(o: Owner, claims: ClaimMap): set<string> {
    set n | n in claims && Selected(o, claims[n])
  }

  function NewClaim(o: Owner): PersistentClaim {
    var group := Lookup(o.labels, GROUP_KEY);
    PersistentClaim(o.labels, if group == "" then "ack-qa" else "ack-" + group)
  }

  function WantedOne(o: Owner, v: VolumeSpec): set<string> {
    if v.claim then {Named(o, v).claimName} else {}
  }

  /** The claims that the flagged volumes want. */
  function Wanted(o: Owner, vs: seq<VolumeSpec>): set<string> {
    if vs == [] then {} else Wanted(o, vs[..|vs| - 1]) + WantedOne(o, vs[|vs| - 1])
  }

  lemma {:induction false} WantedIff(o: Owner, vs: seq<VolumeSpec>, n: string)
    ensures n in Wanted(o, vs) <==> exists i | 0 <= i < |vs| :: n in WantedOne(o, vs[i])
  {
    if vs != [] {
      var front := vs[..|vs| - 1];
      WantedIff(o, front, n);
      assert forall i | 0 <= i < |front| :: front[i] == vs[i];
    }
  }

  /** The claims after the handler: wanted ones exist, labelled unwanted ones are gone. */
  function Reconciled(o: Owner, claims: ClaimMap, wanted: set<string>): ClaimMap {
    map n | n in claims.Keys + wanted && (n in wanted || !Selected(o, claims[n]))
      :: if n in claims then claims[n] else NewClaim(o)
  }

  /** The claims once the wanted ones exist. */
  function Grown(o: Owner, claims: ClaimMap, wanted: set<string>): ClaimMap {
    map n | n in claims.Keys + wanted :: if n in claims then claims[n] else NewClaim(o)
  }

  /** The claims once the labelled ones are deleted. */
  function Emptied(o: Owner, claims: ClaimMap): ClaimMap {
    claims - Labelled(o, claims)
  }

  /** The volume specs once the handler has seen them all; it sees none when claims are disabled. */
  function NamedAll(o: Owner, vs: seq<VolumeSpec>, enabled: bool): seq<VolumeSpec> {
    seq(|vs|, i requires 0 <= i < |vs| => if enabled then Named(o, vs[i]) else vs[i])
  }

  /** What the handler leaves when a request fails: the claims of the first `k` volumes exist, and none
      but unwanted ones are gone, and those only once all wanted ones exist. */
  ghost predicate Partly(o: Owner, claims: ClaimMap, vs: seq<VolumeSpec>, after: ClaimMap) {
    exists k, removed | 0 <= k <= |vs| && removed <= Labelled(o, claims) - Wanted(o, vs) ::
      (removed != {} ==> k == |vs|) && after == Grown(o, claims, Wanted(o, vs[..k])) - removed
  }

  /** Some labelled claims are deleted. */
  ghost predicate Shrunk(o: Owner, claims: ClaimMap, after: ClaimMap) {
    exists removed | removed <= Labelled(o, claims) :: after == claims - removed
  }

  /** The claims after the handler has returned without an error: a claim whose deletion fails is left
      behind silently. */
  ghost predicate Handled(o: Owner, claims: ClaimMap, vs: seq<VolumeSpec>, deleted: bool, enabled: bool, after: ClaimMap) {
    if !enabled then after == claims
    else if deleted then Shrunk(o, claims, after)
    else after == Reconciled(o, claims, Wanted(o, vs))
  }

  /** The claims after the handler, whether it has returned an error or not. */
  ghost predicate HandledPartly(o: Owner, claims: ClaimMap, vs: seq<VolumeSpec>, deleted: bool, enabled: bool,
                                after: ClaimMap) {
    || after == claims
    || Handled(o, claims, vs, deleted, enabled, after)
    || (enabled && !deleted && Partly(o, claims, vs, after))
  }

  class VolumeObject {
    var spec: VolumeSpec

    constructor (v: VolumeSpec)
      ensures spec == v
    {
      spec := v;
    }
  }

  function Specs(volumes: seq<VolumeObject>): (vs: seq<VolumeSpec>)
    reads volumes
    ensures |vs| == |volumes| && forall i | 0 <= i < |vs| :: vs[i] == volumes[i].spec
  {
    if volumes == [] then [] else Specs(volumes[..|volumes| - 1]) + [volumes[|volumes| - 1].spec]
  }

  class ClaimStore {
    var claims: ClaimMap

    constructor (claims: ClaimMap)
      ensures this.claims == claims
    {
      this.claims := claims;
    }

    /** The body of the volume loop for one flagged volume, its name being known. */
    method Ensure(o: Owner, name: string, leftover: set<string>) returns (rest: set<string>, error: bool)
      requires leftover <= claims.Keys
      modifies this
      ensures rest == if error then leftover else leftover - {name}
      ensures claims == if error || name in old(claims) then old(claims) else old(claims)[name := NewClaim(o)]
    {
      rest, error := leftover, false;
      if name in leftover {
        return leftover - {name}, false;
      }
      error := *;
      if !error && name !in claims {
        claims := claims[name := NewClaim(o)];
      }
    }

    /** One turn of the volume loop: the unnamed flagged volume `i` is named through its pointer. */
    method Visit(o: Owner, v: VolumeObject, leftover: set<string>, ghost before: ClaimMap, ghost vs: seq<VolumeSpec>,
                 ghost i: nat) returns (rest: set<string>, error: bool)
      requires v as object != this && i < |vs| && (v.spec == vs[i] || v.spec == Named(o, vs[i]))
      requires Upto(o, before, vs[..i], leftover, claims)
      modifies this, v
      ensures v.spec == Named(o, vs[i])
      ensures Upto(o, before, vs[..if error then i else i + 1], rest, claims)
    {
      ghost var grown := claims;
      NamedTwice(o, vs[i]);
      rest, error := leftover, false;
      if v.spec.claim {
        if v.spec.claimName == "" {
          v.spec := v.spec.(claimName := ClaimNameFor(o, v.spec.mountPath));
        }
        rest, error := Ensure(o, v.spec.claimName, leftover);
      }
      if !error {
        assert claims == Grown(o, grown, WantedOne(o, vs[i]));
        UptoStep(o, before, vs, i, leftover, grown, rest, claims);
      }
    }

    /** The volume loop of `CreateOrUpdate`: `leftover` starts as the labelled names and loses every
        name seen; what is left is unwanted. A request that fails ends the loop. */
    method EnsureWanted(o: Owner, volumes: seq<VolumeObject>)
      returns (leftover: set<string>, error: bool, ghost seen: nat)
      requires forall i | 0 <= i < |volumes| :: volumes[i] as object != this
      modifies this, volumes
      ensures forall i | 0 <= i < |volumes| ::
                volumes[i].spec == old(volumes[i].spec) || volumes[i].spec == Named(o, old(volumes[i].spec))
      ensures !error ==> forall i | 0 <= i < |volumes| :: volumes[i].spec == Named(o, old(volumes[i].spec))
      ensures seen <= |volumes| && (!error ==> seen == |volumes|)
      ensures Upto(o, old(claims), old(Specs(volumes))[..seen], leftover, claims)
    {
      ghost var vs := Specs(volumes);
      ghost var visited: set<VolumeObject> := {};
      error, leftover, seen := false, (set n | n in claims && Selected(o, claims[n])), 0;
      for i := 0 to |volumes|
        invariant forall j | 0 <= j < i :: volumes[j] in visited
        invariant forall j | 0 <= j < |volumes| ::
            volumes[j].spec == if volumes[j] in visited then Named(o, old(volumes[j].spec)) else old(volumes[j].spec)
        invariant seen == i && !error
        invariant Upto(o, old(claims), vs[..i], leftover, claims)
      {
        leftover, error := Visit(o, volumes[i], leftover, old(claims), vs, i);
        visited := visited + {volumes[i]};
        if error {
          return;
        }
        seen := i + 1;
      }
    }

    /** Deletes the unwanted claims until a request fails. */
    method DeleteUnwanted(leftover: set<string>) returns (error: bool)
      modifies this
      ensures !error ==> claims == old(claims) - leftover
      ensures error ==> exists removed | removed <= leftover :: claims == old(claims) - removed
    {
      var rest := leftover;
      error := false;
      ghost var removed: set<string> := {};
      while rest != {}
        invariant rest <= leftover && removed == leftover - rest && !error
        invariant claims == old(claims) - removed
      {
        var name :| name in rest;
        error := *;
        if error {
          assert removed <= leftover;
          return;
        }
        claims := claims - {name};
        rest, removed := rest - {name}, removed + {name};
      }
      assert removed == leftover;
    }

    /** Any request may fail; then the error is returned and what was done stays. */
    method CreateOrUpdate(o: Owner, volumes: seq<VolumeObject>) returns (error: bool)
      requires forall i | 0 <= i < |volumes| :: volumes[i] as object != this
      modifies this, volumes
      ensures forall i | 0 <= i < |volumes| ::
                volumes[i].spec == old(volumes[i].spec) || volumes[i].spec == Named(o, old(volumes[i].spec))
      ensures !error ==> forall i | 0 <= i < |volumes| :: volumes[i].spec == Named(o, old(volumes[i].spec))
      ensures !error ==> claims == Reconciled(o, old(claims), Wanted(o, old(Specs(volumes))))
      ensures error ==> Partly(o, old(claims), old(Specs(volumes)), claims)
    {
      ghost var before, vs := claims, Specs(volumes);
      error := *;
      if error {
        PartlyGrown(o, before, vs, 0, claims);
        return;
      }
      var leftover;
      ghost var seen;
      leftover, error, seen := EnsureWanted(o, volumes);
      if error {
        PartlyGrown(o, before, vs, seen, claims);
        return;
      }
      assert vs[..|vs|] == vs;
      error := DeleteUnwanted(leftover);
      if error {
        ghost var removed :| removed <= leftover && claims == Grown(o, before, Wanted(o, vs[..seen])) - removed;
        assert Partly(o, before, vs, claims);
      } else {
        assert claims == Reconciled(o, before, Wanted(o, vs));
      }
    }

    /** `Delete`: removes the labelled claims until a request fails. `failing` are the names whose
        request fails; the error returned is the outer one, which is nil at that point. Only a list
        that fails is reported. */
    method DeleteAll(o: Owner, failing: set<string>) returns (error: bool)
      modifies this
      ensures error ==> claims == old(claims)
      ensures !error ==> (Labelled(o, claims) == {} <==> Labelled(o, old(claims)) !! failing)
      ensures Labelled(o, claims) == {} ==> claims == Emptied(o, old(claims))
      ensures Shrunk(o, old(claims), claims)
    {
      error := *;
      var rest := set n | n in claims && Selected(o, claims[n]);
      ghost var labelled, removed: set<string> := rest, {};
      assert claims == old(claims) - removed;
      if error {
        return;
      }
      while rest != {}
        invariant rest <= labelled && removed == labelled - rest && claims == old(claims) - removed
        invariant removed !! failing
        invariant !error
      {
        var name :| name in rest;
        if name in failing {
          assert name in Labelled(o, claims);
          return error;
        }
        claims := claims - {name};
        rest, removed := rest - {name}, removed + {name};
      }
    }

    /** `Handle`: with claims disabled neither claims nor volumes are touched. */
    method Handle(o: Owner, deleted: bool, volumes: seq<VolumeObject>, enabled: bool, failing: set<string>)
      returns (error: bool)
      requires forall i | 0 <= i < |volumes| :: volumes[i] as object != this
      modifies this, volumes
      ensures HandledPartly(o, old(claims), old(Specs(volumes)), deleted, enabled, claims)
      ensures !error ==> Handled(o, old(claims), old(Specs(volumes)), deleted, enabled, claims)
      ensures !enabled || deleted ==> Specs(volumes) == old(Specs(volumes))
      ensures !deleted && !error ==> Specs(volumes) == NamedAll(o, old(Specs(volumes)), enabled)
    {
      if !enabled {
        return false;
      }
      if deleted {
        error := DeleteAll(o, failing);
      } else {
        error := CreateOrUpdate(o, volumes);
      }
    }
  }

  /** One object per volume spec, as the handlers share them by pointer. */
  method MakeVolumes(vs: seq<VolumeSpec>) returns (volumes: seq<VolumeObject>)
    ensures fresh(volumes) && Specs(volumes) == vs
  {
    volumes := [];
    for i := 0 to |vs|
      invariant |volumes| == i && fresh(volumes)
      invariant forall j | 0 <= j < i :: volumes[j].spec == vs[j]
    {
      var v := new VolumeObject(vs[i]);
      volumes := volumes + [v];
    }
  }

  /** The handler, from the stored claims and the specs as read to the claims and specs it leaves. */
  method HandleSpecs(o: Owner, deleted: bool, vs: seq<VolumeSpec>, enabled: bool, claims: ClaimMap)
    returns (error: bool, after: ClaimMap, named: seq<VolumeSpec>)
    ensures HandledPartly(o, claims, vs, deleted, enabled, after)
    ensures !error ==> Handled(o, claims, vs, deleted, enabled, after)
    ensures !deleted && !error ==> named == NamedAll(o, vs, enabled)
  {
    var volumes := MakeVolumes(vs);
    var store := new ClaimStore(claims);
    var failing: set<string> := *;
    error := store.Handle(o, deleted, volumes, enabled, failing);
    after, named := store.claims, Specs(volumes);
  }

  lemma PartlyGrown(o: Owner, claims: ClaimMap, vs: seq<VolumeSpec>, k: nat, after: ClaimMap)
    requires k <= |vs| && (after == Grown(o, claims, Wanted(o, vs[..k])) || (k == 0 && after == claims))
    ensures Partly(o, claims, vs, after)
  {
    var removed: set<string> := {};
    assert removed <= Labelled(o, claims) - Wanted(o, vs);
    assert Wanted(o, vs[..0]) == {};
    assert claims == Grown(o, claims, {});
    assert after == Grown(o, claims, Wanted(o, vs[..k])) - removed;
  }

  lemma ReconciledAbsorbs(o: Owner, claims: ClaimMap, wanted: set<string>, some: set<string>, removed: set<string>)
    requires some <= wanted && removed <= Labelled(o, claims) - wanted
    ensures Reconciled(o, Grown(o, claims, some) - removed, wanted) == Reconciled(o, claims, wanted)
  {
    var part := Grown(o, claims, some) - removed;
    forall n ensures n in Reconciled(o, part, wanted) <==> n in Reconciled(o, claims, wanted) {
    }
  }

  /** Whatever a failed run of the handler left, a run that succeeds brings what it would have brought
      at once. */
  lemma RetryAfterPart(o: Owner, claims: ClaimMap, vs: seq<VolumeSpec>, part: ClaimMap)
    requires Partly(o, claims, vs, part)
    ensures Reconciled(o, part, Wanted(o, vs)) == Reconciled(o, claims, Wanted(o, vs))
  {
    var k, removed :| 0 <= k <= |vs| && removed <= Labelled(o, claims) - Wanted(o, vs)
                      && (removed != {} ==> k == |vs|) && part == Grown(o, claims, Wanted(o, vs[..k])) - removed;
    forall n | n in Wanted(o, vs[..k]) ensures n in Wanted(o, vs) {
      WantedIff(o, vs[..k], n);
      WantedIff(o, vs, n);
      var i :| 0 <= i < k && n in WantedOne(o, vs[..k][i]);
      assert n in WantedOne(o, vs[i]);
    }
    ReconciledAbsorbs(o, claims, Wanted(o, vs), Wanted(o, vs[..k]), removed);
  }

  lemma GrownTwice(o: Owner, claims: ClaimMap, a: set<string>, b: set<string>)
    ensures Grown(o, Grown(o, claims, a), b) == Grown(o, claims, a + b)
  {
  }

  lemma NamedTwice(o: Owner, v: VolumeSpec)
    ensures Named(o, Named(o, v)) == Named(o, v) && WantedOne(o, Named(o, v)) == WantedOne(o, v)
  {
  }

  lemma WantedStep(o: Owner, vs: seq<VolumeSpec>, i: nat)
    requires i < |vs|
    ensures Wanted(o, vs[..i + 1]) == Wanted(o, vs[..i]) + WantedOne(o, vs[i])
  {
    assert vs[..i + 1][..i] == vs[..i];
  }

  /** The state of the volume loop after the volumes `vs`. */
  predicate Upto(o: Owner, claims: ClaimMap, vs: seq<VolumeSpec>, leftover: set<string>, now: ClaimMap) {
    leftover == Labelled(o, claims) - Wanted(o, vs) && now == Grown(o, claims, Wanted(o, vs)) && leftover <= now.Keys
  }

  lemma UptoStep(o: Owner, claims: ClaimMap, vs: seq<VolumeSpec>, i: nat, rest: set<string>, grown: ClaimMap,
                 leftover: set<string>, now: ClaimMap)
    requires i < |vs| && Upto(o, claims, vs[..i], rest, grown)
    requires leftover == rest - WantedOne(o, vs[i]) && now == Grown(o, grown, WantedOne(o, vs[i]))
    ensures Upto(o, claims, vs[..i + 1], leftover, now)
  {
    WantedStep(o, vs, i);
    GrownTwice(o, claims, Wanted(o, vs[..i]), WantedOne(o, vs[i]));
  }

  /** The difference is exact: wanted claims exist, labelled unwanted ones are gone, every other
      claim is untouched, and nothing else appears. */
  lemma ReconciledExact(o: Owner, claims: ClaimMap, wanted: set<string>)
    ensures var r := Reconciled(o, claims, wanted);
            && r.Keys == claims.Keys - (Labelled(o, claims) - wanted) + wanted
            && (forall n | n in claims && n in r :: r[n] == claims[n])
  {
  }

  /** The name of the claim of a flagged volume: the one it gives or, by default, one made of application,
      plane and the hash of mount path and creation time. */
  function ClaimNameOf(o: Owner, v: VolumeSpec): string {
    if v.claimName != "" then v.claimName
    else Lookup(o.labels, APP_KEY) + "-" + Lookup(o.labels, PLANE_KEY) + "-" + o.hash(v.mountPath + o.created)
  }

  /** After the handler has succeeded, a claim is there exactly when a flagged volume has its name, or it was
      there before and is not labelled with application and plane. A new one has the labels of the
      SQBDeployment and the storage class of its group. */
  lemma ClaimIs(o: Owner, claims: ClaimMap, vs: seq<VolumeSpec>, n: string)
    ensures var after := Reconciled(o, claims, Wanted(o, vs));
            var group := if GROUP_KEY in o.labels then o.labels[GROUP_KEY] else "";
            && (n in after <==>
                  || (exists i | 0 <= i < |vs| :: vs[i].claim && n == ClaimNameOf(o, vs[i]))
                  || (n in claims && !(HasLabel(claims[n].labels, APP_KEY, Lookup(o.labels, APP_KEY))
                                       && HasLabel(claims[n].labels, PLANE_KEY, Lookup(o.labels, PLANE_KEY)))))
            && (n in after && n in claims ==> after[n] == claims[n])
            && (n in after && n !in claims ==>
                  after[n].labels == o.labels && after[n].storageClass == "ack-" + if group != "" then group else "qa")
  {
    WantedIff(o, vs, n);
    assert "ack-" + "qa" == "ack-qa";
    if i :| 0 <= i < |vs| && vs[i].claim && n == ClaimNameOf(o, vs[i]) {
      assert n in WantedOne(o, vs[i]);
    }
  }

  /** It names the flagged volumes that have no name, and changes nothing else about volumes. */
  lemma VolumeNamedIs(o: Owner, vs: seq<VolumeSpec>, enabled: bool, i: nat)
    requires i < |vs|
    ensures NamedAll(o, vs, enabled)[i]
         == if enabled && vs[i].claim then vs[i].(claimName := ClaimNameOf(o, vs[i])) else vs[i]
  {
  }

  lemma {:induction false} WantedNamed(o: Owner, vs: seq<VolumeSpec>)
    ensures Wanted(o, NamedAll(o, vs, true)) == Wanted(o, vs)
  {
    if vs != [] {
      var front := vs[..|vs| - 1];
      WantedNamed(o, front);
      NamedTwice(o, vs[|vs| - 1]);
      assert NamedAll(o, vs, true)[..|vs| - 1] == NamedAll(o, front, true);
    }
  }

  /** Running the handler again, on the volumes it has named, changes no claim. */
  lemma ReconciledIdempotent(o: Owner, claims: ClaimMap, vs: seq<VolumeSpec>)
    ensures var named := NamedAll(o, vs, true);
            Wanted(o, named) == Wanted(o, vs)
            && var r := Reconciled(o, claims, Wanted(o, vs)); Reconciled(o, r, Wanted(o, named)) == r
  {
    WantedNamed(o, vs);
  }

  lemma ClaimNameNonempty(o: Owner, mountPath: string)
    ensures ClaimNameFor(o, mountPath) != ""
  {
  }

  /** A volume becomes a reference to a claim when no other source overrides it and it names a claim
      itself, or is flagged while claims are enabled. */
  predicate UsesClaim(v: VolumeSpec, enabled: bool) {
    !v.emptyDir && v.hostPath == "" && v.configMap == "" && v.secret == "" && ((v.claim && enabled) || v.claimName != "")
  }

  /** The Deployment volumes generated after the handler: volume `i` refers to a claim exactly when
      its spec says so. With claims enabled the claim it names exists unless the volume is not flagged
      and the claim is absent, or labelled and wanted by no flagged volume; with claims disabled it
      exists only if it existed before. */
  lemma NoDanglingClaimIff(o: Owner, claims: ClaimMap, vs: seq<VolumeSpec>, enabled: bool, i: nat)
    requires i < |vs|
    ensures var named := NamedAll(o, vs, enabled);
            var after := if enabled then Reconciled(o, claims, Wanted(o, vs)) else claims;
            var source := SourceOf(named[i]);
            && (source.Some? && source.value.Claim? <==> UsesClaim(vs[i], enabled))
            && (UsesClaim(vs[i], enabled) ==>
                  && Volume(VolumeName(i), Claim(named[i].claimName)) in VolumesFrom(named, 0)
                  && (named[i].claimName in after
                      <==> || (enabled && named[i].claimName in Wanted(o, vs))
                           || (named[i].claimName in claims
                               && (enabled ==> !Selected(o, claims[named[i].claimName]))))
                  && (enabled && vs[i].claim ==> named[i].claimName in Wanted(o, vs)))
  {
    ClaimNameNonempty(o, vs[i].mountPath);
    VolumesFromContent(NamedAll(o, vs, enabled), 0);
    WantedIff(o, vs, Named(o, vs[i]).claimName);
  }

  /** An unflagged volume that names a labelled claim loses it: the handler deletes the claim that
      the Deployment goes on to reference. */
  lemma UnflaggedClaimDeleted(o: Owner)
    requires Selected(o, NewClaim(o))
    ensures var v := VolumeSpec("/data", "", "", "", false, false, "data", None);
            var after := Reconciled(o, map["data" := NewClaim(o)], Wanted(o, [v]));
            SourceOf(Named(o, v)) == Some(Claim("data")) && "data" !in after
  {
  }
}
