/**
  How the server projects a topic to the two properties it can filter on: the domain
  (up to the first dot) and the action (after the last dot). Each `char` is one byte;
  a dot is one byte in UTF-8 and never part of a longer sequence.
 */
module Topics {

  /** Where the first dot at or after `i` is; the end when there is none. */
  function DotFrom(topic: string, i: nat): nat
    requires i <= |topic|
    decreases |topic| - i
  {
    if i == |topic| || topic[i] == '.' then i else DotFrom(topic, i + 1)
  }

  /** Just behind the last dot before `n`; the beginning when there is none. */
  function DotBefore(topic: string, n: nat): nat
    requires n <= |topic|
  {
    if n == 0 || topic[n - 1] == '.' then n else DotBefore(topic, n - 1)
  }

  lemma {:induction false} DotFromIs(topic: string, i: nat, n: nat)
    requires i <= n <= |topic| && (n == |topic| || topic[n] == '.')
    requires forall k | i <= k < n :: topic[k] != '.'
    ensures DotFrom(topic, i) == n
    decreases n - i
  {
    if i < n {
      DotFromIs(topic, i + 1, n);
    }
  }

  lemma {:induction false} DotFromShape(topic: string, i: nat)
    requires i <= |topic|
    ensures var n := DotFrom(topic, i);
            i <= n <= |topic| && (n == |topic| || topic[n] == '.') && forall k | i <= k < n :: topic[k] != '.'
    decreases |topic| - i
  {
    if i < |topic| && topic[i] != '.' {
      DotFromShape(topic, i + 1);
    }
  }

  lemma {:induction false} DotBeforeIs(topic: string, e: nat, n: nat)
    requires e <= n <= |topic| && (e == 0 || topic[e - 1] == '.')
    requires forall k | e <= k < n :: topic[k] != '.'
    ensures DotBefore(topic, n) == e
    decreases n
  {
    if e < n {
      DotBeforeIs(topic, e, n - 1);
    }
  }

  lemma {:induction false} DotBeforeShape(topic: string, n: nat)
    requires n <= |topic|
    ensures var e := DotBefore(topic, n);
            e <= n && (e == 0 || topic[e - 1] == '.') && forall k | e <= k < n :: topic[k] != '.'
  {
    if n > 0 && topic[n - 1] != '.' {
      DotBeforeShape(topic, n - 1);
    }
  }

  /** Up to the first dot, or everything when there is none. */
  function DomainOf(topic: string): string {
    DotFromShape(topic, 0);
    topic[..DotFrom(topic, 0)]
  }

  /** After the last dot, or everything when there is none. */
  function ActionOf(topic: string): string {
    DotBeforeShape(topic, |topic|);
    topic[DotBefore(topic, |topic|)..]
  }

  predicate DotFree(t: string) {
    forall k | 0 <= k < |t| :: t[k] != '.'
  }

  /** `d` is the longest dot-free beginning of `topic`. */
  predicate IsDomain(d: string, topic: string) {
    DotFree(d) && |d| <= |topic| && topic[..|d|] == d && (|d| == |topic| || topic[|d|] == '.')
  }

  /** `a` is the longest dot-free ending of `topic`. */
  predicate IsAction(a: string, topic: string) {
    DotFree(a) && |a| <= |topic| && topic[|topic| - |a|..] == a && (|a| == |topic| || topic[|topic| - |a| - 1] == '.')
  }

  lemma DomainShape(topic: string)
    ensures IsDomain(DomainOf(topic), topic)
  {
    DotFromShape(topic, 0);
  }

  lemma ActionShape(topic: string)
    ensures IsAction(ActionOf(topic), topic)
  {
    DotBeforeShape(topic, |topic|);
  }

  lemma DomainUnique(topic: string, d: string)
    requires IsDomain(d, topic)
    ensures DomainOf(topic) == d
  {
    forall k | 0 <= k < |d| ensures topic[k] != '.' {
      assert d[k] == topic[k];
    }
    DotFromIs(topic, 0, |d|);
  }

  lemma ActionUnique(topic: string, a: string)
    requires IsAction(a, topic)
    ensures ActionOf(topic) == a
  {
    var e := |topic| - |a|;
    forall k | e <= k < |topic| ensures topic[k] != '.' {
      assert a[k - e] == topic[k];
    }
    DotBeforeIs(topic, e, |topic|);
  }

  method DomainFromTopic(topic: string) returns (d: string)
    ensures d == DomainOf(topic)
  {
    for i := 0 to |topic|
      invariant forall k | 0 <= k < i :: topic[k] != '.'
    {
      if topic[i] == '.' {
        DotFromIs(topic, 0, i);
        return topic[..i];
      }
    }
    DotFromIs(topic, 0, |topic|);
    assert topic[..|topic|] == topic;
    return topic;
  }

  method ActionFromTopic(topic: string) returns (a: string)
    ensures a == ActionOf(topic)
  {
    var last := 0;
    for i := 0 to |topic|
      invariant last <= i && (last == 0 || topic[last - 1] == '.')
      invariant forall k | last <= k < i :: topic[k] != '.'
    {
      if topic[i] == '.' {
        last := i + 1;
      }
    }
    DotBeforeIs(topic, last, |topic|);
    return topic[last..];
  }

  // ── What a query for a topic selects ──────────────────────────────────────

  /** The selection of a query for `asked`: an empty segment filters nothing. */
  predicate Selects(asked: string, topic: string) {
    (DomainOf(asked) == "" || DomainOf(topic) == DomainOf(asked)) &&
    (ActionOf(asked) == "" || ActionOf(topic) == ActionOf(asked))
  }

  predicate StartsWith(t: string, p: string) {
    |p| <= |t| && t[..|p|] == p
  }

  predicate EndsWith(t: string, p: string) {
    |p| <= |t| && t[|t| - |p|..] == p
  }

  /** Exactly two non-empty segments. */
  predicate TwoSegments(t: string) {
    DomainOf(t) != "" && ActionOf(t) != "" && |t| == |DomainOf(t)| + 1 + |ActionOf(t)|
  }

  lemma TwoSegmentsRebuild(t: string)
    requires TwoSegments(t)
    ensures t == DomainOf(t) + "." + ActionOf(t)
  {
    var d, a := DomainOf(t), ActionOf(t);
    DomainShape(t);
    ActionShape(t);
    assert t == t[..|d|] + [t[|d|]] + t[|d| + 1..];
  }

  lemma DomainIff(topic: string, d: string)
    requires DotFree(d)
    ensures DomainOf(topic) == d <==> topic == d || StartsWith(topic, d + ".")
  {
    DomainShape(topic);
    var n := |DomainOf(topic)|;
    if DomainOf(topic) == d && n < |topic| {
      assert topic[..n + 1] == d + ".";
    }
    if topic == d {
      DomainUnique(topic, d);
    } else if StartsWith(topic, d + ".") {
      var p := topic[..|d| + 1];
      assert topic[..|d|] == p[..|d|] == d && topic[|d|] == p[|d|];
      DomainUnique(topic, d);
    }
  }

  lemma ActionIff(topic: string, a: string)
    requires DotFree(a)
    ensures ActionOf(topic) == a <==> topic == a || EndsWith(topic, "." + a)
  {
    ActionShape(topic);
    var n := |topic| - |ActionOf(topic)|;
    if ActionOf(topic) == a && n > 0 {
      assert topic[n - 1..] == "." + a;
    }
    if topic == a {
      assert topic[|topic| - |a|..] == a;
      ActionUnique(topic, a);
    } else if EndsWith(topic, "." + a) {
      var e := |topic| - |a|;
      var q := topic[e - 1..];
      assert topic[e..] == q[1..] == a && topic[e - 1] == q[0];
      ActionUnique(topic, a);
    }
  }

  /** Is `d`, or goes on behind it with a dot; an empty `d` asks for nothing. */
  predicate Opens(topic: string, d: string) {
    d == "" || topic == d || StartsWith(topic, d + ".")
  }

  /** Is `a`, or leads up to it with a dot; an empty `a` asks for nothing. */
  predicate Closes(topic: string, a: string) {
    a == "" || topic == a || EndsWith(topic, "." + a)
  }

  /**
    Which topics a query selects, for every query: those that open with its first segment
    and close with its last, whatever lies between; an empty segment does not matter.
   */
  lemma SelectsExactly(asked: string, topic: string)
    ensures Selects(asked, topic) <==> Opens(topic, DomainOf(asked)) && Closes(topic, ActionOf(asked))
  {
    DomainShape(asked);
    ActionShape(asked);
    DomainIff(topic, DomainOf(asked));
    ActionIff(topic, ActionOf(asked));
  }

  /** Among two-segment topics a query is precise. */
  lemma SelectsPrecisely(asked: string, topic: string)
    requires TwoSegments(asked) && TwoSegments(topic)
    ensures Selects(asked, topic) <==> topic == asked
  {
    TwoSegmentsRebuild(asked);
    TwoSegmentsRebuild(topic);
  }

  /** Beyond two segments it is not: whatever lies in the middle is overlooked. */
  lemma MiddleOverlooked(d: string, middle: string, a: string)
    requires DotFree(d) && DotFree(a)
    ensures Selects(d + "." + a, d + "." + middle + "." + a)
  {
    Ends(d, "." + a, d + ".", a);
    Ends(d, "." + middle + "." + a, d + "." + middle + ".", a);
    assert d + ("." + a) == d + "." + a;
    assert d + ("." + middle + "." + a) == d + "." + middle + "." + a;
  }

  lemma Ends(d: string, behind: string, before: string, a: string)
    requires DotFree(d) && DotFree(a) && d + behind == before + a
    requires behind != "" && behind[0] == '.' && before != "" && before[|before| - 1] == '.'
    ensures DomainOf(d + behind) == d && ActionOf(d + behind) == a
  {
    var t := d + behind;
    assert t[..|d|] == d && t[|d|] == '.';
    assert t[|before|..] == a && t[|before| - 1] == '.';
    DomainUnique(t, d);
    ActionUnique(t, a);
  }
}
