/** Names the operator builds by concatenation and substitution, and when they are injective. */
module Names {
  import opened Common

  predicate DotFree(s: string) {
    '.' !in s
  }

  /** `strings.Split(s, ".")[0]` */
  function BeforeDot(s: string): string {
    if s == "" || s[0] == '.' then "" else [s[0]] + BeforeDot(s[1..])
  }

  function SubsetName(service: string, plane: string): string {
    BeforeDot(service) + "-" + plane
  }

  lemma SubsetNameInjective(service: string, p: string, q: string)
    ensures SubsetName(service, p) == SubsetName(service, q) <==> p == q
  {
    var k := |BeforeDot(service)| + 1;
    assert SubsetName(service, p)[k..] == p;
    assert SubsetName(service, q)[k..] == q;
  }

  /** `strings.ReplaceAll(template, "*", prefix)` */
  function ReplaceStar(template: string, prefix: string): string {
    if template == "" then ""
    else (if template[0] == '*' then prefix else [template[0]]) + ReplaceStar(template[1..], prefix)
  }

  lemma {:induction false} ReplaceStarLength(template: string, p: string, q: string)
    requires |p| <= |q|
    ensures |ReplaceStar(template, p)| <= |ReplaceStar(template, q)|
    ensures '*' in template && |p| < |q| ==> |ReplaceStar(template, p)| < |ReplaceStar(template, q)|
  {
    if template != "" {
      ReplaceStarLength(template[1..], p, q);
    }
  }

  /** Substituting different prefixes gives different hosts exactly when the template has a star. */
  lemma {:induction false} ReplaceStarInjective(template: string, p: string, q: string)
    ensures ReplaceStar(template, p) == ReplaceStar(template, q) <==> p == q || '*' !in template
  {
    if template == "" {
    } else if template[0] == '*' {
      if |p| < |q| {
        ReplaceStarLength(template, p, q);
      } else if |q| < |p| {
        ReplaceStarLength(template, q, p);
      } else {
        assert ReplaceStar(template, p)[..|p|] == p;
        assert ReplaceStar(template, q)[..|q|] == q;
      }
    } else {
      ReplaceStarInjective(template[1..], p, q);
      assert ReplaceStar(template, p)[1..] == ReplaceStar(template[1..], p);
      assert ReplaceStar(template, q)[1..] == ReplaceStar(template[1..], q);
    }
  }

  /** Substitution goes character by character, puts the prefix for a star and leaves the rest. */
  lemma {:induction false} ReplaceStarParts(s: string, t: string, prefix: string)
    ensures ReplaceStar(s + "*" + t, prefix) == ReplaceStar(s, prefix) + prefix + ReplaceStar(t, prefix)
    ensures '*' !in s ==> ReplaceStar(s, prefix) == s
    decreases |s|
  {
    if s == "" {
      assert ("*" + t)[1..] == t && s + "*" + t == "*" + t;
    } else {
      assert (s + "*" + t)[1..] == s[1..] + "*" + t;
      ReplaceStarParts(s[1..], t, prefix);
      assert s == [s[0]] + s[1..];
    }
  }

  function IngressName(app: string, cls: string, host: string): string {
    app + "." + cls + "." + host
  }

  /** The name given to an application's ingress by older releases. */
  function OldIngressName(app: string, cls: string): string {
    app + "-" + cls
  }

  lemma {:induction false} BeforeDotOfName(a: string, r: string)
    requires DotFree(a)
    ensures BeforeDot(a + "." + r) == a
  {
    if a != "" {
      assert (a + "." + r)[1..] == a[1..] + "." + r;
      BeforeDotOfName(a[1..], r);
    }
  }

  /** A subset is named after the service, without its domain, and the plane. */
  lemma SubsetNameParts(service: string, domain: string, plane: string)
    requires DotFree(service)
    ensures SubsetName(service, plane) == service + "-" + plane
    ensures SubsetName(service + "." + domain, plane) == service + "-" + plane
  {
    BeforeDotOfName(service, domain);
    BeforeDotOfDotFree(service);
  }

  lemma {:induction false} BeforeDotOfDotFree(s: string)
    requires DotFree(s)
    ensures BeforeDot(s) == s
  {
    if s != "" {
      BeforeDotOfDotFree(s[1..]);
    }
  }

  lemma SplitAtDot(a: string, r: string, b: string, s: string)
    requires DotFree(a) && DotFree(b)
    requires a + "." + r == b + "." + s
    ensures a == b && r == s
  {
    BeforeDotOfName(a, r);
    BeforeDotOfName(b, s);
    assert r == (a + "." + r)[|a| + 1..];
    assert s == (b + "." + s)[|b| + 1..];
  }

  lemma IngressNameInjective(a: string, c: string, h: string, b: string, d: string, g: string)
    requires DotFree(a) && DotFree(b) && DotFree(c) && DotFree(d)
    ensures IngressName(a, c, h) == IngressName(b, d, g) <==> a == b && c == d && h == g
  {
    if IngressName(a, c, h) == IngressName(b, d, g) {
      assert IngressName(a, c, h) == a + "." + (c + "." + h);
      assert IngressName(b, d, g) == b + "." + (d + "." + g);
      SplitAtDot(a, c + "." + h, b, d + "." + g);
      SplitAtDot(c, h, d, g);
    }
  }

  /** An application's own name starts the name of its ingresses, under either naming rule. */
  lemma OldNameIsNotNew(app: string, cls: string, b: string, d: string, g: string)
    requires DotFree(app) && DotFree(cls)
    ensures OldIngressName(app, cls) != IngressName(b, d, g)
  {
    assert IngressName(b, d, g)[|b|] == '.';
  }
}
