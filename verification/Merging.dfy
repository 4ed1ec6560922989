/** `SQBApplication.Merge`: folding a history of updates into an application. */
module Merging {
  import opened Common
  import opened Routing
  import opened Objects

  /** The deploy fields. Structured values that are only copied are represented by strings; an
      optional pointer is an `Option`. */
  datatype DeploySpec = DeploySpec(replicas: Option<int>, image: string, command: seq<string>, args: seq<string>,
                                   hostAliases: seq<string>, resources: Option<string>, env: seq<string>,
                                   healthCheck: Option<Probe>, volumes: seq<VolumeSpec>,
                                   nodeAffinity: Option<string>, lifecycle: Option<string>)

  datatype Update = Update(annotations: StringMap, labels: StringMap, domains: seq<Domain>, subpaths: seq<Subpath>,
                           ports: seq<string>, deploy: DeploySpec)

  function OrElse<T>(later: Option<T>, earlier: Option<T>): Option<T> {
    if later.Some? then later else earlier
  }

  function NonemptyOr<T(==)>(later: seq<T>, earlier: seq<T>): seq<T> {
    if later != [] then later else earlier
  }

  function MergedDeploy(a: DeploySpec, b: DeploySpec): DeploySpec {
    DeploySpec(OrElse(b.replicas, a.replicas), NonemptyOr(b.image, a.image), NonemptyOr(b.command, a.command),
               NonemptyOr(b.args, a.args), NonemptyOr(b.hostAliases, a.hostAliases), OrElse(b.resources, a.resources),
               NonemptyOr(b.env, a.env), b.healthCheck, NonemptyOr(b.volumes, a.volumes),
               OrElse(b.nodeAffinity, a.nodeAffinity), b.lifecycle)
  }

  function Merged(a: Update, b: Update): Update {
    Update(a.annotations + b.annotations, a.labels + b.labels, b.domains, b.subpaths, b.ports,
           MergedDeploy(a.deploy, b.deploy))
  }

  class DeployObject {
    var replicas: Option<int>
    var image: string
    var command: seq<string>
    var args: seq<string>
    var hostAliases: seq<string>
    var resources: Option<string>
    var env: seq<string>
    var healthCheck: Option<Probe>
    var volumes: seq<VolumeSpec>
    var nodeAffinity: Option<string>
    var lifecycle: Option<string>

    constructor (d: DeploySpec)
      ensures Value() == d
    {
      replicas, image, command, args, hostAliases := d.replicas, d.image, d.command, d.args, d.hostAliases;
      resources, env, healthCheck, volumes := d.resources, d.env, d.healthCheck, d.volumes;
      nodeAffinity, lifecycle := d.nodeAffinity, d.lifecycle;
    }

    function Value(): DeploySpec
      reads this
    {
      DeploySpec(replicas, image, command, args, hostAliases, resources, env, healthCheck, volumes, nodeAffinity, lifecycle)
    }

    method Merge(news: DeploySpec)
      modifies this
      ensures Value() == MergedDeploy(old(Value()), news)
    {
      MergePointers(news);
      MergeTexts(news);
      MergeLists(news);
    }

    method MergePointers(news: DeploySpec)
      modifies this`replicas, this`resources, this`nodeAffinity, this`healthCheck, this`lifecycle
      ensures replicas == OrElse(news.replicas, old(replicas)) && resources == OrElse(news.resources, old(resources))
      ensures nodeAffinity == OrElse(news.nodeAffinity, old(nodeAffinity))
      ensures healthCheck == news.healthCheck && lifecycle == news.lifecycle
    {
      if news.replicas.Some? {
        replicas := news.replicas;
      }
      if news.resources.Some? {
        resources := news.resources;
      }
      healthCheck := news.healthCheck;
      if news.nodeAffinity.Some? {
        nodeAffinity := news.nodeAffinity;
      }
      lifecycle := news.lifecycle;
    }

    method MergeTexts(news: DeploySpec)
      modifies this`image, this`command, this`args
      ensures image == NonemptyOr(news.image, old(image)) && command == NonemptyOr(news.command, old(command))
      ensures args == NonemptyOr(news.args, old(args))
    {
      if news.image != "" {
        image := news.image;
      }
      if |news.command| != 0 {
        command := news.command;
      }
      if |news.args| != 0 {
        args := news.args;
      }
    }

    method MergeLists(news: DeploySpec)
      modifies this`hostAliases, this`env, this`volumes
      ensures hostAliases == NonemptyOr(news.hostAliases, old(hostAliases)) && env == NonemptyOr(news.env, old(env))
      ensures volumes == NonemptyOr(news.volumes, old(volumes))
    {
      if |news.hostAliases| != 0 {
        hostAliases := news.hostAliases;
      }
      if |news.env| != 0 {
        env := news.env;
      }
      if |news.volumes| != 0 {
        volumes := news.volumes;
      }
    }
  }

  class ApplicationObject {
    var annotations: StringMap
    var labels: StringMap
    var domains: seq<Domain>
    var subpaths: seq<Subpath>
    var ports: seq<string>
    const deploy: DeployObject

    constructor (u: Update)
      ensures Value() == u && fresh(deploy)
    {
      annotations, labels, domains, subpaths, ports := u.annotations, u.labels, u.domains, u.subpaths, u.ports;
      deploy := new DeployObject(u.deploy);
    }

    function Value(): Update
      reads this, deploy
    {
      Update(annotations, labels, domains, subpaths, ports, deploy.Value())
    }

    method Merge(news: ApplicationObject)
      modifies this, deploy
      ensures Value() == Merged(old(Value()), old(news.Value()))
    {
      var theirs := news.Value();
      annotations := MergeStringMap(annotations, theirs.annotations);
      labels := MergeStringMap(labels, theirs.labels);
      domains, subpaths, ports := theirs.domains, theirs.subpaths, theirs.ports;
      deploy.Merge(theirs.deploy);
    }
  }

  lemma UnionAssociative(a: StringMap, b: StringMap, c: StringMap)
    ensures a + b + c == a + (b + c)
  {
  }

  /** Updates may be merged with each other first; and merging the same update again is no change. */
  lemma MergeAssociativeIdempotent(a: Update, b: Update, c: Update)
    ensures Merged(Merged(a, b), c) == Merged(a, Merged(b, c))
    ensures Merged(Merged(a, b), b) == Merged(a, b) && Merged(a, a) == a
  {
    UnionAssociative(a.annotations, b.annotations, c.annotations);
    UnionAssociative(a.labels, b.labels, c.labels);
    UnionAssociative(a.annotations, b.annotations, b.annotations);
    UnionAssociative(a.labels, b.labels, b.labels);
    assert b.annotations + b.annotations == b.annotations && b.labels + b.labels == b.labels;
    assert a.annotations + a.annotations == a.annotations && a.labels + a.labels == a.labels;
  }

  // ----- a history of updates -----

  function Fold(history: seq<Update>): Update
    requires history != []
  {
    if |history| == 1 then history[0]
    else Merged(Fold(history[..|history| - 1]), history[|history| - 1])
  }

  /** The last nonempty value of a field, if any, is the one at some position after which the field
      is empty. */
  ghost predicate LastNonempty<T>(values: seq<seq<T>>, v: seq<T>) {
    || (v == [] && forall i | 0 <= i < |values| :: values[i] == [])
    || exists i | 0 <= i < |values| && v != [] ::
         values[i] == v && forall j | i < j < |values| :: values[j] == []
  }

  ghost predicate LastSome<T>(values: seq<Option<T>>, v: Option<T>) {
    || (v.None? && forall i | 0 <= i < |values| :: values[i].None?)
    || exists i | 0 <= i < |values| && v.Some? ::
         values[i] == v && forall j | i < j < |values| :: values[j].None?
  }

  /** Key by key, the value of the last map that has the key. */
  ghost predicate RightBiased(maps: seq<StringMap>, m: StringMap) {
    forall k ::
      && (k in m <==> exists i | 0 <= i < |maps| :: k in maps[i])
      && (k in m ==> exists i | 0 <= i < |maps| ::
            k in maps[i] && m[k] == maps[i][k] && forall j | i < j < |maps| :: k !in maps[j])
  }

  lemma LastNonemptyStep<T>(values: seq<seq<T>>, v: seq<T>, x: seq<T>)
    requires LastNonempty(values, v)
    ensures LastNonempty(values + [x], NonemptyOr(x, v))
  {
    var all := values + [x];
    if x != [] {
      assert all[|values|] == x;
    } else if v != [] {
      var i :| 0 <= i < |values| && values[i] == v && forall j | i < j < |values| :: values[j] == [];
      assert all[i] == v;
    }
  }

  lemma LastSomeStep<T>(values: seq<Option<T>>, v: Option<T>, x: Option<T>)
    requires LastSome(values, v)
    ensures LastSome(values + [x], OrElse(x, v))
  {
    var all := values + [x];
    if x.Some? {
      assert all[|values|] == x;
    } else if v.Some? {
      var i :| 0 <= i < |values| && values[i] == v && forall j | i < j < |values| :: values[j].None?;
      assert all[i] == v;
    }
  }

  lemma RightBiasedStep(maps: seq<StringMap>, m: StringMap, x: StringMap)
    requires RightBiased(maps, m)
    ensures RightBiased(maps + [x], m + x)
  {
    var all := maps + [x];
    assert all[|maps|] == x;
    forall k
      ensures k in m + x <==> exists i | 0 <= i < |all| :: k in all[i]
      ensures k in m + x ==> exists i | 0 <= i < |all| ::
                k in all[i] && (m + x)[k] == all[i][k] && forall j | i < j < |all| :: k !in all[j]
    {
      if k in m && k !in x {
        var i :| 0 <= i < |maps| && k in maps[i] && m[k] == maps[i][k] && forall j | i < j < |maps| :: k !in maps[j];
        assert all[i] == maps[i];
      }
      if i :| 0 <= i < |maps| && k in all[i] {
        assert k in maps[i];
      }
    }
  }

  function Column<T>(history: seq<Update>, field: Update -> T): seq<T> {
    seq(|history|, i requires 0 <= i < |history| => field(history[i]))
  }

  lemma ColumnStep<T>(history: seq<Update>, field: Update -> T)
    requires history != []
    ensures Column(history, field) == Column(history[..|history| - 1], field) + [field(history[|history| - 1])]
  {
  }

  lemma {:induction false} FoldedList<T>(history: seq<Update>, field: Update -> seq<T>)
    requires history != []
    requires forall a, b :: field(Merged(a, b)) == NonemptyOr(field(b), field(a))
    ensures LastNonempty(Column(history, field), field(Fold(history)))
  {
    ColumnStep(history, field);
    if |history| == 1 {
      var values := Column(history, field);
      assert values == [field(history[0])];
      assert values[0] == field(Fold(history));
    } else {
      FoldedList(history[..|history| - 1], field);
      LastNonemptyStep(Column(history[..|history| - 1], field), field(Fold(history[..|history| - 1])),
                       field(history[|history| - 1]));
    }
  }

  lemma {:induction false} FoldedOption<T>(history: seq<Update>, field: Update -> Option<T>)
    requires history != []
    requires forall a, b :: field(Merged(a, b)) == OrElse(field(b), field(a))
    ensures LastSome(Column(history, field), field(Fold(history)))
  {
    ColumnStep(history, field);
    if |history| == 1 {
      var values := Column(history, field);
      assert values == [field(history[0])];
      assert values[0] == field(Fold(history));
    } else {
      FoldedOption(history[..|history| - 1], field);
      LastSomeStep(Column(history[..|history| - 1], field), field(Fold(history[..|history| - 1])),
                   field(history[|history| - 1]));
    }
  }

  lemma {:induction false} FoldedMap(history: seq<Update>, field: Update -> StringMap)
    requires history != []
    requires forall a, b :: field(Merged(a, b)) == field(a) + field(b)
    ensures RightBiased(Column(history, field), field(Fold(history)))
  {
    ColumnStep(history, field);
    if |history| == 1 {
      var values := Column(history, field);
      assert values[0] == field(Fold(history)) && |values| == 1;
    } else {
      FoldedMap(history[..|history| - 1], field);
      RightBiasedStep(Column(history[..|history| - 1], field), field(Fold(history[..|history| - 1])),
                      field(history[|history| - 1]));
    }
  }

  ghost predicate OptionalFields(history: seq<Update>, d: DeploySpec) {
    && LastSome(Column(history, (u: Update) => u.deploy.replicas), d.replicas)
    && LastSome(Column(history, (u: Update) => u.deploy.resources), d.resources)
    && LastSome(Column(history, (u: Update) => u.deploy.nodeAffinity), d.nodeAffinity)
  }

  ghost predicate ListFields(history: seq<Update>, d: DeploySpec) {
    && LastNonempty(Column(history, (u: Update) => u.deploy.image), d.image)
    && LastNonempty(Column(history, (u: Update) => u.deploy.command), d.command)
    && LastNonempty(Column(history, (u: Update) => u.deploy.args), d.args)
    && LastNonempty(Column(history, (u: Update) => u.deploy.hostAliases), d.hostAliases)
    && LastNonempty(Column(history, (u: Update) => u.deploy.env), d.env)
    && LastNonempty(Column(history, (u: Update) => u.deploy.volumes), d.volumes)
  }

  predicate ReplacedFields(last: Update, u: Update) {
    && u.domains == last.domains && u.subpaths == last.subpaths && u.ports == last.ports
    && u.deploy.healthCheck == last.deploy.healthCheck && u.deploy.lifecycle == last.deploy.lifecycle
  }

  lemma FoldReplacedFields(history: seq<Update>)
    requires history != []
    ensures ReplacedFields(history[|history| - 1], Fold(history))
  {
  }

  ghost predicate MapFields(history: seq<Update>, u: Update) {
    && RightBiased(Column(history, (u: Update) => u.annotations), u.annotations)
    && RightBiased(Column(history, (u: Update) => u.labels), u.labels)
  }

  lemma FoldMapFields(history: seq<Update>)
    requires history != []
    ensures MapFields(history, Fold(history))
  {
    FoldedMap(history, (u: Update) => u.annotations);
    FoldedMap(history, (u: Update) => u.labels);
  }

  lemma FoldOptionalFields(history: seq<Update>)
    requires history != []
    ensures OptionalFields(history, Fold(history).deploy)
  {
    FoldedOption(history, (u: Update) => u.deploy.replicas);
    FoldedOption(history, (u: Update) => u.deploy.resources);
    FoldedOption(history, (u: Update) => u.deploy.nodeAffinity);
  }

  lemma FoldTextFields(history: seq<Update>)
    requires history != []
    ensures var d := Fold(history).deploy;
            && LastNonempty(Column(history, (u: Update) => u.deploy.image), d.image)
            && LastNonempty(Column(history, (u: Update) => u.deploy.command), d.command)
            && LastNonempty(Column(history, (u: Update) => u.deploy.args), d.args)
  {
    FoldedList(history, (u: Update) => u.deploy.image);
    FoldedList(history, (u: Update) => u.deploy.command);
    FoldedList(history, (u: Update) => u.deploy.args);
  }

  lemma FoldListFields(history: seq<Update>)
    requires history != []
    ensures ListFields(history, Fold(history).deploy)
  {
    FoldTextFields(history);
    FoldedList(history, (u: Update) => u.deploy.hostAliases);
    FoldedList(history, (u: Update) => u.deploy.env);
    FoldedList(history, (u: Update) => u.deploy.volumes);
  }

  /** A folded history, field by field: the last value of the fields that are always replaced, the
      last nonempty value of the optional deploy fields, the right-biased union of the maps. */
  lemma FoldFieldByField(history: seq<Update>)
    requires history != []
    ensures ReplacedFields(history[|history| - 1], Fold(history))
    ensures OptionalFields(history, Fold(history).deploy) && ListFields(history, Fold(history).deploy)
    ensures MapFields(history, Fold(history))
  {
    FoldReplacedFields(history);
    FoldOptionalFields(history);
    FoldListFields(history);
    FoldMapFields(history);
  }
}
