/** Go's byte-wise string order, and the colon-joined cache keys. */
module Text {

  /** Go's `a < b` on strings. Each `char` stands for one byte. */
  predicate Less(a: string, b: string) {
    b != "" && (a == "" || a[0] < b[0] || (a[0] == b[0] && Less(a[1..], b[1..])))
  }

  function Max(a: string, b: string): string {
    if Less(a, b) then b else a
  }

  lemma {:induction false} LessIrreflexive(a: string)
    ensures !Less(a, a)
  {
    if a != "" {
      LessIrreflexive(a[1..]);
    }
  }

  lemma {:induction false} LessTransitive(a: string, b: string, c: string)
    requires Less(a, b) && Less(b, c)
    ensures Less(a, c)
  {
    if a != "" && a[0] == b[0] == c[0] {
      LessTransitive(a[1..], b[1..], c[1..]);
    }
  }

  lemma {:induction false} LessTotal(a: string, b: string)
    ensures Less(a, b) || a == b || Less(b, a)
    ensures !(Less(a, b) && Less(b, a))
  {
    if a != "" && b != "" && a[0] == b[0] {
      LessTotal(a[1..], b[1..]);
      assert a == [a[0]] + a[1..] && b == [b[0]] + b[1..];
    } else {
      assert a == "" || b == "" || a[0] != b[0];
    }
  }

  /** `a <= b` composed with `b < c`, and `a < b` composed with `b <= c`. */
  lemma NotLessChain(a: string, b: string, c: string)
    ensures !Less(b, a) && Less(b, c) ==> Less(a, c)
    ensures Less(a, b) && !Less(c, b) ==> Less(a, c)
    ensures !Less(b, a) && !Less(c, b) ==> !Less(c, a)
  {
    LessTotal(a, b);
    LessTotal(b, c);
    LessTotal(a, c);
    if Less(a, b) && Less(b, c) {
      LessTransitive(a, b, c);
    }
    if Less(c, a) && Less(a, b) {
      LessTransitive(c, a, b);
    }
    if Less(b, c) && Less(c, a) {
      LessTransitive(b, c, a);
    }
  }

  /** Equal-width prefixes decide first; only equal prefixes look further. */
  lemma {:induction false} LessAppend(a: string, b: string, x: string, y: string)
    requires |a| == |b|
    ensures Less(a + x, b + y) <==> Less(a, b) || (a == b && Less(x, y))
  {
    if a == "" {
      assert a + x == x && b + y == y;
    } else {
      LessAppend(a[1..], b[1..], x, y);
      assert (a + x)[1..] == a[1..] + x && (b + y)[1..] == b[1..] + y;
      assert a == [a[0]] + a[1..] && b == [b[0]] + b[1..];
    }
  }

  /** "agency:rest", the shape of both cache keys of the manager. */
  function Key(agency: string, rest: string): string {
    agency + ":" + rest
  }

  /** `b` is `a`, a colon, and anything. */
  predicate Extends(b: string, a: string) {
    |a| < |b| && b[..|a|] == a && b[|a|] == ':'
  }

  /** Neither agency is the other followed by a colon; so it is for any two without colons. */
  predicate KeysApart(a: string, b: string) {
    !Extends(a, b) && !Extends(b, a)
  }

  lemma KeyParts(a: string, x: string)
    ensures |Key(a, x)| == |a| + 1 + |x| && Key(a, x)[..|a|] == a
    ensures Key(a, x)[|a|] == ':' && Key(a, x)[|a| + 1..] == x
  {
  }

  lemma LongerExtends(a: string, x: string, b: string, y: string)
    requires Key(a, x) == Key(b, y) && |a| < |b|
    ensures Extends(b, a)
  {
    KeyParts(a, x);
    KeyParts(b, y);
    assert b[..|a|] == Key(a, x)[..|a|];
  }

  /** Joining is injective in both parts unless one agency extends the other. */
  lemma KeyInjective(a: string, x: string, b: string, y: string)
    requires KeysApart(a, b) && Key(a, x) == Key(b, y)
    ensures a == b && x == y
  {
    KeyParts(a, x);
    KeyParts(b, y);
    if |a| < |b| {
      LongerExtends(a, x, b, y);
    } else if |b| < |a| {
      LongerExtends(b, y, a, x);
    }
  }

  /** Two agencies can share a cache key exactly when one is the other followed by a colon. */
  lemma KeysCollideIff(a: string, b: string)
    requires a != b
    ensures (exists x, y :: Key(a, x) == Key(b, y)) <==> !KeysApart(a, b)
  {
    if exists x, y :: Key(a, x) == Key(b, y) {
      var x, y :| Key(a, x) == Key(b, y);
      if KeysApart(a, b) {
        KeyInjective(a, x, b, y);
      }
    }
    if Extends(b, a) {
      assert Key(a, b[|a| + 1..] + ":") == Key(b, "");
    }
    if Extends(a, b) {
      assert Key(a, "") == Key(b, a[|b| + 1..] + ":");
    }
  }
}
