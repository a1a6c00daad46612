/** The idempotency key as a string, and when two keys can be the same string. */
module Text {

  function Digit(d: nat): char
    requires d < 10
  {
    "0123456789"[d]
  }

  /** The decimal numeral of `n`, as `str` prints it. */
  function Decimal(n: nat): string {
    if n < 10 then [Digit(n)] else Decimal(n / 10) + [Digit(n % 10)]
  }

  function IdempotencyKey(payment: string, version: string, n: nat): string {
    "recovery:" + payment + ":" + version + ":" + Decimal(n)
  }

  predicate EndsWith(s: string, suffix: string) {
    |suffix| <= |s| && s[|s| - |suffix|..] == suffix
  }

  /** One version is the tail of the other, just after a colon. */
  predicate VersionsCollide(v: string, w: string) {
    EndsWith(v, ":" + w) || EndsWith(w, ":" + v)
  }

  lemma {:induction false} DecimalIsDigits(n: nat)
    ensures forall c :: c in Decimal(n) ==> '0' <= c <= '9'
  {
    if n >= 10 {
      DecimalIsDigits(n / 10);
    }
  }

  lemma {:induction false} DecimalInjective(a: nat, b: nat)
    requires Decimal(a) == Decimal(b)
    ensures a == b
    decreases a
  {
    DecimalNonEmpty(a / 10);
    DecimalNonEmpty(b / 10);
    var x, y := Decimal(a), Decimal(b);
    assert (a < 10) == (|x| == 1) && (b < 10) == (|y| == 1);
    assert x[|x| - 1] == Digit(a % 10) && y[|y| - 1] == Digit(b % 10);
    if a >= 10 {
      assert x[..|x| - 1] == Decimal(a / 10) && y[..|y| - 1] == Decimal(b / 10);
      DecimalInjective(a / 10, b / 10);
    }
  }

  lemma DecimalNonEmpty(n: nat)
    ensures |Decimal(n)| > 0
  {
  }

  /** Two strings cut at their last separator agree only part by part. */
  lemma CutAtLast(sep: char, a: string, x: string, b: string, y: string)
    requires a + [sep] + x == b + [sep] + y
    requires sep !in x && sep !in y
    ensures a == b && x == y
  {
    var s := a + [sep] + x;
    assert s[|a|] == sep && s[|b|] == sep;
    assert forall k :: |a| < k < |s| ==> s[k] == x[k - |a| - 1];
    assert forall k :: |b| < k < |s| ==> s[k] == y[k - |b| - 1];
    assert s[..|a|] == a && s[..|b|] == b;
    assert s[|a| + 1..] == x && s[|b| + 1..] == y;
  }

  /** What two equal keys have in common, whatever their versions. */
  lemma EqualKeys(p: string, v: string, n: nat, q: string, w: string, m: nat)
    requires IdempotencyKey(p, v, n) == IdempotencyKey(q, w, m)
    ensures n == m && p + ":" + v == q + ":" + w
  {
    DecimalIsDigits(n);
    DecimalIsDigits(m);
    var left, right := "recovery:" + p + ":" + v, "recovery:" + q + ":" + w;
    CutAtLast(':', left, Decimal(n), right, Decimal(m));
    DecimalInjective(n, m);
    assert left[9..] == p + ":" + v && right[9..] == q + ":" + w;
  }

  lemma LongerVersionEndsWithShorter(p: string, v: string, q: string, w: string)
    requires p + ":" + v == q + ":" + w && |v| < |w|
    ensures EndsWith(w, ":" + v)
  {
    var s := p + ":" + v;
    assert w == s[|s| - |w|..];
    assert w[|w| - |v| - 1..] == s[|s| - |v| - 1..] == ":" + v;
  }

  /** Under two versions that do not collide (in particular under one version) a key names
      exactly one payment, one version and one attempt number. */
  lemma KeyInjective(p: string, v: string, n: nat, q: string, w: string, m: nat)
    requires !VersionsCollide(v, w)
    requires IdempotencyKey(p, v, n) == IdempotencyKey(q, w, m)
    ensures p == q && v == w && n == m
  {
    EqualKeys(p, v, n, q, w, m);
    assert |v| == |w| by {
      if |v| < |w| {
        LongerVersionEndsWithShorter(p, v, q, w);
      } else if |w| < |v| {
        LongerVersionEndsWithShorter(q, w, p, v);
      }
    }
    var s := p + ":" + v;
    assert v == s[|s| - |v|..] == w;
    assert p == s[..|p|] == q;
  }

  lemma OneVersionNeverCollides(v: string)
    ensures !VersionsCollide(v, v)
  {
  }

  lemma ColonFreeVersionsNeverCollide(v: string, w: string)
    requires ':' !in v && ':' !in w
    ensures !VersionsCollide(v, w)
  {
    ColonInside(v, w);
    ColonInside(w, v);
  }

  lemma ColonInside(v: string, w: string)
    ensures EndsWith(v, ":" + w) ==> ':' in v
  {
    if EndsWith(v, ":" + w) {
      assert v[|v| - |w| - 1] == v[|v| - |w| - 1..][0] == ':';
    }
  }

  /** Exactly when keys are ambiguous: some two different (payment, version, attempt) triples
      under versions `v` and `w` share a key if and only if the versions collide. */
  lemma KeysAmbiguousIff(v: string, w: string)
    ensures VersionsCollide(v, w) <==>
            exists p, q, n, m :: (p, v, n) != (q, w, m) && IdempotencyKey(p, v, n) == IdempotencyKey(q, w, m)
  {
    if EndsWith(v, ":" + w) {
      SuffixMakesKeysEqual(v, w);
    } else if EndsWith(w, ":" + v) {
      SuffixMakesKeysEqual(w, v);
    } else {
      forall p, q, n, m | IdempotencyKey(p, v, n) == IdempotencyKey(q, w, m)
        ensures (p, v, n) == (q, w, m)
      {
        KeyInjective(p, v, n, q, w, m);
      }
    }
  }

  lemma SuffixMakesKeysEqual(longer: string, shorter: string)
    requires EndsWith(longer, ":" + shorter)
    ensures exists p, q :: longer != shorter && IdempotencyKey(p, longer, 1) == IdempotencyKey(q, shorter, 1)
    ensures exists p, q :: longer != shorter && IdempotencyKey(p, shorter, 1) == IdempotencyKey(q, longer, 1)
  {
    var x := longer[..|longer| - |shorter| - 1];
    assert longer == x + ":" + shorter;
    var p, q := "", ":" + x;
    assert IdempotencyKey(p, longer, 1) == IdempotencyKey(q, shorter, 1);
    assert IdempotencyKey(q, shorter, 1) == IdempotencyKey(p, longer, 1);
  }
}
