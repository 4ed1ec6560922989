/** Definitions shared by every part of the model: optional values, Go's string maps,
    the label and annotation keys of the operator, and enumerations of finite sets. */
module Common {

  datatype Option<+T> = None | Some(value: T)

  type StringMap = map<string, string>

  const X_ENV_FLAG := "x-env-flag"
  const APP_KEY := "app"
  const PLANE_KEY := "version"
  const GROUP_KEY := "group"
  const EXPLICIT_DELETE_KEY := "qa.shouqianba.com/delete"
  const ISTIO_INJECT_KEY := "qa.shouqianba.com/istio-inject"
  const INGRESS_OPEN_KEY := "qa.shouqianba.com/ingress-open"
  const PUBLIC_ENTRY_KEY := "qa.shouqianba.com/public-entry"
  const SPECIAL_INGRESS_KEY := "qa.shouqianba.com/special-virtualservice-ingressclass"
  const DEPLOYMENT_ANNOTATION_KEY := "qa.shouqianba.com/passthrough-deployment"
  const POD_ANNOTATION_KEY := "qa.shouqianba.com/passthrough-pod"
  const INITIALIZE_KEY := "qa.shouqianba.com/initialized"
  const INGRESS_CLASS_KEY := "kubernetes.io/ingress.class"
  const SERVER_SNIPPET_KEY := "nginx.ingress.kubernetes.io/server-snippet"
  const SIDECAR_INJECT_KEY := "sidecar.istio.io/inject"
  const JAEGER_INJECT_KEY := "sidecar.jaegertracing.io/inject"
  const JAEGER_INJECTED_KEY := "sidecar.jaegertracing.io/injected"

  /** Reading a Go map: a missing key gives the empty string. */
  function Lookup(m: StringMap, key: string): string {
    if key in m then m[key] else ""
  }

  /** A label selector with a single equality requirement. */
  predicate HasLabel(labels: StringMap, key: string, value: string) {
    key in labels && labels[key] == value
  }

  /** `order` lists every element of `s` exactly once. A Go `range` over a map, and the items
      of a list call, come in some such order. */
  ghost predicate Enumerates<T(!new)>(order: seq<T>, s: set<T>) {
    && (forall i, j | 0 <= i < j < |order| :: order[i] != order[j])
    && (forall x :: x in order <==> x in s)
  }

  lemma EnumerationExists<T(!new)>(s: set<T>) returns (order: seq<T>)
    ensures Enumerates(order, s)
  {
    if s == {} {
      order := [];
    } else {
      var x :| x in s;
      var rest := EnumerationExists(s - {x});
      order := [x] + rest;
    }
  }

  lemma EnumerationStartingAt<T(!new)>(s: set<T>, x: T) returns (rest: seq<T>)
    requires x in s
    ensures Enumerates([x] + rest, s)
  {
    rest := EnumerationExists(s - {x});
  }

  /** `rest` is `order` without its element at `k`. */
  lemma WithoutAt<T(!new)>(order: seq<T>, k: nat, rest: seq<T>)
    requires k < |order| && rest == order[..k] + order[k + 1..]
    requires forall i, j | 0 <= i < j < |order| :: order[i] != order[j]
    ensures forall i, j | 0 <= i < j < |rest| :: rest[i] != rest[j]
    ensures forall y :: y in rest <==> y in order && y != order[k]
  {
    assert forall i | 0 <= i < k :: rest[i] == order[i];
    assert forall i | k <= i < |rest| :: rest[i] == order[i + 1];
    forall y | y in order && y != order[k] ensures y in rest {
      var i :| 0 <= i < |order| && order[i] == y;
      assert i < k ==> rest[i] == y;
      assert i > k ==> rest[i - 1] == y;
    }
    forall y | y in rest ensures y in order && y != order[k] {
      var i :| 0 <= i < |rest| && rest[i] == y;
    }
  }

  /** Taking one element out of an enumeration leaves an enumeration of the other elements. */
  lemma EnumerationSplit<T(!new)>(order: seq<T>, s: set<T>, x: T) returns (front: seq<T>, back: seq<T>)
    requires Enumerates(order, s) && x in s
    ensures order == front + ([x] + back)
    ensures Enumerates(front + back, s - {x})
  {
    assert x in order;
    var k :| 0 <= k < |order| && order[k] == x;
    front, back := order[..k], order[k + 1..];
    WithoutAt(order, k, front + back);
  }

  lemma {:induction false} EnumerationLength<T(!new)>(order: seq<T>, s: set<T>)
    requires Enumerates(order, s)
    ensures |order| == |s|
    decreases |order|
  {
    if order == [] {
      assert forall x :: x in s ==> x in order;
    } else {
      assert order[0] in order;
      var front, back := EnumerationSplit(order, s, order[0]);
      EnumerationLength(front + back, s - {order[0]});
    }
  }

  /** `result[k] = v` for every pair of `base`, then for every pair of `toMerge`. */
  method MergeStringMap(base: StringMap, toMerge: StringMap) returns (result: StringMap)
    ensures result == base + toMerge
  {
    result := CopyInto(map[], base);
    assert map[] + base == base;
    result := CopyInto(result, toMerge);
  }

  method CopyInto(target: StringMap, source: StringMap) returns (result: StringMap)
    ensures result == target + source
  {
    result := target;
    var rest := source.Keys;
    while rest != {}
      invariant rest <= source.Keys
      invariant result == target + (source - rest)
    {
      var k :| k in rest;
      result := result[k := source[k]];
      rest := rest - {k};
    }
    assert source - rest == source;
  }

  method ContainString(list: seq<string>, item: string) returns (found: bool)
    ensures found <==> item in list
  {
    for i := 0 to |list|
      invariant item !in list[..i]
    {
      if list[i] == item {
        return true;
      }
    }
    return false;
  }
}
