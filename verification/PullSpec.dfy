/**
  What one Pull may return and what acknowledging it loses. Pull filters by the string
  order of stamps, sorts by the parsed time and cuts; Acknowledge moves a string cursor.
 */
module PullSpec {
  import opened Text
  import opened EntityStore

  type Parser = string -> int      // time.Parse: from a stamp to the instant it names

  function Stamp(m: Entity): string {
    Get(m, PublishedAt)
  }

  function Time(m: Entity, timeOf: Parser): int {
    timeOf(Stamp(m))
  }

  function Elements(ms: seq<Entity>): set<Entity> {
    set m | m in ms
  }

  ghost predicate Distinct(ms: seq<Entity>) {
    forall i, j | 0 <= i < j < |ms| :: ms[i] != ms[j]
  }

  ghost predicate SortedByTime(ms: seq<Entity>, timeOf: Parser) {
    forall i, j | 0 <= i < j < |ms| :: Time(ms[i], timeOf) <= Time(ms[j], timeOf)
  }

  /** Every element of `pending` once, oldest first: what sort.Slice may leave behind. */
  ghost predicate IsSorting(ms: seq<Entity>, pending: set<Entity>, timeOf: Parser) {
    Distinct(ms) && Elements(ms) == pending && SortedByTime(ms, timeOf)
  }

  /** The length of a batch when `n` messages are pending and `k` were asked for. */
  function CutAt(n: nat, k: int): nat {
    if k > 0 && n > k then k else n
  }

  /** The batch, said without sorting: some `CutAt` oldest pending messages, oldest first. */
  ghost predicate IsBatch(batch: seq<Entity>, pending: set<Entity>, k: int, timeOf: Parser) {
    && Distinct(batch) && Elements(batch) <= pending && SortedByTime(batch, timeOf)
    && |batch| == CutAt(|pending|, k)
    && forall a, b | a in batch && b in pending - Elements(batch) :: Time(a, timeOf) <= Time(b, timeOf)
  }

  function Passes(cursor: string, stamp: string): bool {
    cursor == "" || Less(cursor, stamp)
  }

  /** The messages Pull's filter keeps. */
  function Pending(msgs: set<Entity>, cursor: string): set<Entity> {
    set m | m in msgs && Passes(cursor, Stamp(m))
  }

  // ── Counting and sorting ──────────────────────────────────────────────────

  lemma {:induction false} DistinctCount(ms: seq<Entity>)
    requires Distinct(ms)
    ensures |Elements(ms)| == |ms|
  {
    if ms != [] {
      var init, last := ms[..|ms| - 1], ms[|ms| - 1];
      DistinctCount(init);
      assert last !in init;
      assert ms == init + [last];
      assert Elements(ms) == Elements(init) + {last};
    }
  }

  function Insert(ms: seq<Entity>, m: Entity, timeOf: Parser): seq<Entity> {
    if ms == [] then [m]
    else if Time(m, timeOf) < Time(ms[0], timeOf) then [m] + ms
    else [ms[0]] + Insert(ms[1..], m, timeOf)
  }

  lemma {:induction false} InsertSorts(ms: seq<Entity>, m: Entity, timeOf: Parser)
    requires Distinct(ms) && SortedByTime(ms, timeOf) && m !in ms
    ensures IsSorting(Insert(ms, m, timeOf), Elements(ms) + {m}, timeOf)
  {
    if ms == [] {
    } else if Time(m, timeOf) < Time(ms[0], timeOf) {
      Prepend(m, ms, Elements(ms), timeOf);
    } else {
      InsertSorts(ms[1..], m, timeOf);
      assert ms == [ms[0]] + ms[1..];
      assert Elements(ms) + {m} == {ms[0]} + (Elements(ms[1..]) + {m});
      Prepend(ms[0], Insert(ms[1..], m, timeOf), Elements(ms[1..]) + {m}, timeOf);
    }
  }

  lemma Prepend(m: Entity, ms: seq<Entity>, rest: set<Entity>, timeOf: Parser)
    requires IsSorting(ms, rest, timeOf) && m !in rest
    requires forall x | x in rest :: Time(m, timeOf) <= Time(x, timeOf)
    ensures IsSorting([m] + ms, {m} + rest, timeOf)
  {
    assert forall i | 0 <= i < |ms| :: ms[i] in Elements(ms);
    assert Elements([m] + ms) == {m} + rest;
  }

  lemma {:induction false} Sortable(pending: set<Entity>, timeOf: Parser) returns (ms: seq<Entity>)
    ensures IsSorting(ms, pending, timeOf)
    decreases |pending|
  {
    if pending == {} {
      ms := [];
    } else {
      var m :| m in pending;
      var rest := Sortable(pending - {m}, timeOf);
      assert m !in Elements(rest);
      InsertSorts(rest, m, timeOf);
      ms := Insert(rest, m, timeOf);
      assert Elements(rest) + {m} == pending;
    }
  }

  // ── Pull refines "sort, then take k" ──────────────────────────────────────

  lemma CutIsBatch(ms: seq<Entity>, pending: set<Entity>, k: int, timeOf: Parser)
    requires IsSorting(ms, pending, timeOf)
    ensures |ms| == |pending|
    ensures IsBatch(ms[..CutAt(|ms|, k)], pending, k, timeOf)
  {
    DistinctCount(ms);
    var batch := ms[..CutAt(|ms|, k)];
    assert forall j | 0 <= j < |batch| :: ms[j] in Elements(batch) by {
      assert forall j | 0 <= j < |batch| :: batch[j] == ms[j];
    }
    forall a, b | a in batch && b in pending - Elements(batch)
      ensures Time(a, timeOf) <= Time(b, timeOf)
    {
      assert b in Elements(ms);
      var i :| 0 <= i < |batch| && batch[i] == a;
      var j :| 0 <= j < |ms| && ms[j] == b;
    }
  }

  /**
    The batches Pull can return are exactly the cuts of the sortings of the pending set,
    whatever order the store listed in and however sort.Slice broke ties.
   */
  lemma BatchIffCutOfSorting(batch: seq<Entity>, pending: set<Entity>, k: int, timeOf: Parser)
    ensures IsBatch(batch, pending, k, timeOf) <==>
            exists ms :: IsSorting(ms, pending, timeOf) && batch == ms[..CutAt(|ms|, k)]
  {
    if IsBatch(batch, pending, k, timeOf) {
      var rest := Sortable(pending - Elements(batch), timeOf);
      var ms := batch + rest;
      DistinctCount(batch);
      assert forall x :: x in rest <==> x in Elements(rest);
      assert forall i | 0 <= i < |rest| :: rest[i] in Elements(rest);
      assert forall i | 0 <= i < |batch| :: batch[i] in Elements(batch);
      assert Elements(ms) == pending;
      DistinctCount(ms);
      assert batch == ms[..CutAt(|ms|, k)];
      assert IsSorting(ms, pending, timeOf);
    }
    if ms :| IsSorting(ms, pending, timeOf) && batch == ms[..CutAt(|ms|, k)] {
      CutIsBatch(ms, pending, k, timeOf);
    }
  }

  /** An empty answer means there is nothing pending, whatever was asked for. */
  lemma EmptyBatchIff(pending: set<Entity>, k: int, timeOf: Parser)
    ensures IsBatch([], pending, k, timeOf) <==> pending == {}
  {
    if IsBatch([], pending, k, timeOf) {
      assert |pending| == 0;
    }
  }

  // ── Acknowledging a batch ─────────────────────────────────────────────────

  /** The cursor after acknowledging `batch`: the string maximum of its stamps. */
  function AckedCursor(cursor: string, batch: seq<Entity>): string
    decreases batch
  {
    if batch == [] then cursor else AckedCursor(Max(cursor, Stamp(batch[0])), batch[1..])
  }

  /** `c` is the greatest of `cursor` and the stamps of `batch`. */
  ghost predicate IsJoin(c: string, cursor: string, stamps: set<string>) {
    && (c == cursor || c in stamps)
    && !Less(c, cursor)
    && forall x | x in stamps :: !Less(c, x)
  }

  function Stamps(ms: seq<Entity>): set<string> {
    set m | m in ms :: Stamp(m)
  }

  lemma {:induction false} AckedCursorIsJoin(cursor: string, batch: seq<Entity>)
    ensures IsJoin(AckedCursor(cursor, batch), cursor, Stamps(batch))
    decreases batch
  {
    if batch == [] {
      LessIrreflexive(cursor);
    } else {
      var x := Stamp(batch[0]);
      var next := Max(cursor, x);
      var c := AckedCursor(next, batch[1..]);
      AckedCursorIsJoin(next, batch[1..]);
      assert batch == [batch[0]] + batch[1..];
      assert Stamps(batch) == Stamps(batch[1..]) + {x};
      LessTotal(cursor, x);
      LessIrreflexive(cursor);
      NotLessChain(cursor, next, c);
      NotLessChain(x, next, c);
    }
  }

  /** A join is unique, so order, repetition and grouping cannot matter. */
  lemma JoinUnique(c: string, d: string, cursor: string, stamps: set<string>)
    requires IsJoin(c, cursor, stamps) && IsJoin(d, cursor, stamps)
    ensures c == d
  {
    LessTotal(c, d);
  }

  // ── Losing messages ───────────────────────────────────────────────────────

  /** Every pending message outside the batch is still pending once the batch is acknowledged. */
  ghost predicate KeepsRest(batch: seq<Entity>, pending: set<Entity>, cursor: string) {
    forall m | m in pending - Elements(batch) :: Passes(AckedCursor(cursor, batch), Stamp(m))
  }

  /** Later or simultaneous messages carry greater stamps, so both orders are one strict order. */
  ghost predicate OrdersAgree(pending: set<Entity>, timeOf: Parser) {
    forall a, b | a in pending && b in pending && a != b && Time(a, timeOf) <= Time(b, timeOf) ::
      Less(Stamp(a), Stamp(b))
  }

  ghost predicate Stamped(msgs: set<Entity>) {
    forall m | m in msgs :: Stamp(m) != ""
  }

  lemma AgreementKeepsRest(batch: seq<Entity>, pending: set<Entity>, k: int, cursor: string, timeOf: Parser)
    requires IsBatch(batch, pending, k, timeOf) && OrdersAgree(pending, timeOf)
    requires forall m | m in pending :: Passes(cursor, Stamp(m))
    ensures KeepsRest(batch, pending, cursor)
  {
    var c := AckedCursor(cursor, batch);
    AckedCursorIsJoin(cursor, batch);
    forall m | m in pending - Elements(batch) ensures Passes(c, Stamp(m)) {
      if c != cursor {
        var a :| a in batch && Stamp(a) == c;
        assert a in Elements(batch);
        assert Less(Stamp(a), Stamp(m));
      }
    }
  }

  /** With a simultaneous or misordered pair pending, some cut drops the second message. */
  lemma DisagreementLoses(a: Entity, b: Entity, pending: set<Entity>, cursor: string, timeOf: Parser)
      returns (k: int, batch: seq<Entity>)
    requires a in pending && b in pending && a != b
    requires Time(a, timeOf) <= Time(b, timeOf) && !Less(Stamp(a), Stamp(b))
    requires Stamped(pending)
    ensures k >= 1 && IsBatch(batch, pending, k, timeOf) && !KeepsRest(batch, pending, cursor)
  {
    var older := set m | m in pending && Time(m, timeOf) < Time(a, timeOf);
    var front := Sortable(older, timeOf);
    batch := front + [a];
    k := |batch|;
    CutAfter(front, older, a, b, pending, timeOf);
    assert batch[|front|] == a;
    LateStampLost(a, b, batch, cursor);
  }

  lemma CutAfter(front: seq<Entity>, older: set<Entity>, a: Entity, b: Entity, pending: set<Entity>, timeOf: Parser)
    requires a in pending && b in pending && a != b && Time(a, timeOf) <= Time(b, timeOf)
    requires older == (set m | m in pending && Time(m, timeOf) < Time(a, timeOf))
    requires IsSorting(front, older, timeOf)
    ensures IsBatch(front + [a], pending, |front| + 1, timeOf)
    ensures b in pending - Elements(front + [a])
  {
    AppendNewest(front, older, a, timeOf);
    DistinctCount(front);
    TwoMore(older, a, b, pending);
    OldestFirst(front + [a], older + {a}, a, pending, timeOf);
  }

  lemma AppendNewest(front: seq<Entity>, older: set<Entity>, a: Entity, timeOf: Parser)
    requires IsSorting(front, older, timeOf)
    requires forall m | m in older :: Time(m, timeOf) < Time(a, timeOf)
    ensures IsSorting(front + [a], older + {a}, timeOf)
  {
    forall i | 0 <= i < |front| ensures Time(front[i], timeOf) < Time(a, timeOf) {
      assert front[i] in Elements(front);
    }
    assert Elements(front + [a]) == older + {a};
  }

  lemma OldestFirst(batch: seq<Entity>, taken: set<Entity>, a: Entity, pending: set<Entity>, timeOf: Parser)
    requires IsSorting(batch, taken, timeOf) && taken <= pending && |batch| < |pending| && batch != []
    requires forall m | m in taken :: Time(m, timeOf) <= Time(a, timeOf)
    requires forall m | m in pending - taken :: Time(a, timeOf) <= Time(m, timeOf)
    ensures IsBatch(batch, pending, |batch|, timeOf)
  {
    forall x, y | x in batch && y in pending - Elements(batch)
      ensures Time(x, timeOf) <= Time(y, timeOf)
    {
      assert x in Elements(batch);
    }
  }

  lemma TwoMore(older: set<Entity>, a: Entity, b: Entity, pending: set<Entity>)
    requires older <= pending && a in pending - older && b in pending - older && a != b
    ensures |older| + 1 < |pending|
  {
    assert |older + {a} + {b}| == |older| + 2;
    Subset(older + {a} + {b}, pending);
  }

  /** A message stamped no later than an acknowledged one is never pulled again. */
  lemma LateStampLost(a: Entity, b: Entity, batch: seq<Entity>, cursor: string)
    requires a in batch && !Less(Stamp(a), Stamp(b)) && Stamp(a) != ""
    ensures !Passes(AckedCursor(cursor, batch), Stamp(b))
  {
    AckedCursorIsJoin(cursor, batch);
    assert Stamp(a) in Stamps(batch);
    var c := AckedCursor(cursor, batch);
    assert c == "" ==> Less(c, Stamp(a));
    NotLessChain(Stamp(b), Stamp(a), c);
  }

  lemma {:induction false} Subset(a: set<Entity>, b: set<Entity>)
    requires a <= b
    ensures |a| <= |b|
  {
    if a != {} {
      var x :| x in a;
      Subset(a - {x}, b - {x});
    }
  }

  /**
    Exactly when the protocol is lossless: no batch size and no tie-breaking can make a
    Pull-then-Acknowledge round skip a pending message if and only if the pending
    messages' times are distinct and ordered as their stamps are.
   */
  lemma LosslessIffOrdersAgree(pending: set<Entity>, cursor: string, timeOf: Parser)
    requires Stamped(pending)
    requires forall m | m in pending :: Passes(cursor, Stamp(m))
    ensures (forall k: int, batch | IsBatch(batch, pending, k, timeOf) :: KeepsRest(batch, pending, cursor)) <==>
            OrdersAgree(pending, timeOf)
  {
    if OrdersAgree(pending, timeOf) {
      forall k: int, batch | IsBatch(batch, pending, k, timeOf)
        ensures KeepsRest(batch, pending, cursor)
      {
        AgreementKeepsRest(batch, pending, k, cursor, timeOf);
      }
    } else {
      var a, b :| a in pending && b in pending && a != b && Time(a, timeOf) <= Time(b, timeOf) &&
                  !Less(Stamp(a), Stamp(b));
      var k, batch := DisagreementLoses(a, b, pending, cursor, timeOf);
    }
  }

  /** Whatever the stamps, no acknowledged message stays pending. */
  lemma AckedNotPending(batch: seq<Entity>, msgs: set<Entity>, cursor: string)
    requires Stamped(msgs)
    ensures Pending(msgs, AckedCursor(cursor, batch)) <= Pending(msgs, cursor) - Elements(batch)
  {
    var c := AckedCursor(cursor, batch);
    AckedCursorIsJoin(cursor, batch);
    forall m | m in Pending(msgs, c) ensures m in Pending(msgs, cursor) - Elements(batch) {
      NotLessChain(cursor, c, Stamp(m));
      if m in batch {
        LessIrreflexive(Stamp(m));
        LateStampLost(m, m, batch, cursor);
      }
    }
  }

  /** So each round retires at least its whole batch: the termination measure of draining. */
  lemma RoundShrinks(batch: seq<Entity>, msgs: set<Entity>, cursor: string)
    requires Distinct(batch) && Elements(batch) <= Pending(msgs, cursor) && Stamped(msgs)
    ensures |Pending(msgs, AckedCursor(cursor, batch))| <= |Pending(msgs, cursor)| - |batch|
  {
    AckedNotPending(batch, msgs, cursor);
    DistinctCount(batch);
    Shrink(Pending(msgs, AckedCursor(cursor, batch)), Elements(batch), Pending(msgs, cursor));
  }

  lemma Shrink(after: set<Entity>, gone: set<Entity>, before: set<Entity>)
    requires gone <= before && after <= before - gone
    ensures |after| <= |before| - |gone|
  {
    Subset(after, before - gone);
    assert before == (before - gone) + gone;
  }
}
