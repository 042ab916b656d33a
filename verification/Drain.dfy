/**
  Draining a subscription: a consumer that pulls, handles the batch, and acknowledges
  exactly that batch, while anything else happens around it.
 */
module Drain {
  import opened Text
  import opened Timestamps
  import opened EntityStore
  import opened PullSpec
  import opened BackendSpec

  /** The messages of acknowledged batches in order, and the batch in hand. */
  datatype Consumer = Consumer(delivered: seq<Entity>, batch: seq<Entity>)

  // ── One subscription, seen as a message set and a cursor ──────────────────

  ghost predicate IsFront(batch: seq<Entity>, pending: set<Entity>, timeOf: Parser) {
    && Distinct(batch) && SortedByTime(batch, timeOf) && Elements(batch) <= pending
    && forall a, b | a in batch && b in pending - Elements(batch) :: Time(a, timeOf) <= Time(b, timeOf)
  }

  /** The cursor sits on the last delivered message, or where it started. */
  ghost predicate CursorAt(cursor: string, start: string, delivered: seq<Entity>) {
    && (cursor == start || exists d :: d in delivered && Stamp(d) == cursor)
    && (forall d | d in delivered :: !Less(cursor, Stamp(d)))
  }

  /** What has been delivered is exactly what lies between the two cursors, in order. */
  ghost predicate Draining(msgs: set<Entity>, start: string, cursor: string, c: Consumer, timeOf: Parser) {
    && Stamped(msgs) && OrdersAgree(Pending(msgs, start), timeOf)
    && IsSorting(c.delivered, Pending(msgs, start) - Pending(msgs, cursor), timeOf)
    && Pending(msgs, cursor) <= Pending(msgs, start)
    && CursorAt(cursor, start, c.delivered)
    && IsFront(c.batch, Pending(msgs, cursor), timeOf)
  }

  /**
    A new message arrives in order: if it is past the starting cursor, it is also past the
    present one, its time and stamp agree with all that is due, and it is no older than the
    batch in hand.
   */
  ghost predicate Arrives(m: Entity, msgs: set<Entity>, start: string, cursor: string, batch: seq<Entity>, timeOf: Parser) {
    Passes(start, Stamp(m)) ==>
      Passes(cursor, Stamp(m)) && OrdersAgree(Pending(msgs, start) + {m}, timeOf) &&
      forall b | b in batch :: Time(b, timeOf) <= Time(m, timeOf)
  }

  /** A publish keeps the drain lossless and in order exactly when it arrives in order. */
  lemma DrainPublishIff(msgs: set<Entity>, m: Entity, start: string, cursor: string, c: Consumer, timeOf: Parser)
    requires Draining(msgs, start, cursor, c, timeOf) && Stamp(m) != "" && m !in msgs
    ensures Draining(msgs + {m}, start, cursor, c, timeOf) <==> Arrives(m, msgs, start, cursor, c.batch, timeOf)
  {
    var more := msgs + {m};
    CursorMoved(msgs, start, cursor, c, Stamp(m), timeOf);
    assert Pending(more, start) == Pending(msgs, start) + (if Passes(start, Stamp(m)) then {m} else {});
    assert Pending(more, cursor) == Pending(msgs, cursor) + (if Passes(cursor, Stamp(m)) then {m} else {});
    assert forall x | x in Pending(msgs, cursor) :: x in msgs;
    assert forall x | x in c.batch :: x in Elements(c.batch);
    if Draining(more, start, cursor, c, timeOf) && Passes(start, Stamp(m)) {
      assert m !in Elements(c.delivered);
    }
    if Arrives(m, msgs, start, cursor, c.batch, timeOf) {
      assert Pending(more, start) - Pending(more, cursor) == Pending(msgs, start) - Pending(msgs, cursor);
    }
  }

  /** The cursor only moved forward: what is past it is past the start. */
  lemma CursorMoved(msgs: set<Entity>, start: string, cursor: string, c: Consumer, stamp: string, timeOf: Parser)
    requires Draining(msgs, start, cursor, c, timeOf) && stamp != ""
    ensures Passes(cursor, stamp) ==> Passes(start, stamp)
  {
    if cursor != start && start != "" && Less(cursor, stamp) {
      var d :| d in c.delivered && Stamp(d) == cursor;
      assert d in Elements(c.delivered);
      LessTransitive(start, Stamp(d), stamp);
    }
  }

  /** `m` is later than everything in `msgs`, by time and by stamp. */
  ghost predicate Latest(m: Entity, msgs: set<Entity>, timeOf: Parser) {
    forall x | x in msgs :: Time(x, timeOf) < Time(m, timeOf) && Less(Stamp(x), Stamp(m))
  }

  /** It is enough to be later than everything on the topic. */
  lemma LatestArrives(msgs: set<Entity>, m: Entity, start: string, cursor: string, c: Consumer, timeOf: Parser)
    requires Draining(msgs, start, cursor, c, timeOf) && Latest(m, msgs, timeOf)
    ensures Arrives(m, msgs, start, cursor, c.batch, timeOf)
  {
    if cursor != start {
      var d :| d in c.delivered && Stamp(d) == cursor;
      assert d in Elements(c.delivered) && d in msgs;
    }
    assert forall x | x in Pending(msgs, cursor) + Pending(msgs, start) :: x in msgs;
    assert forall x | x in c.batch :: x in Elements(c.batch);
  }

  lemma DrainPull(msgs: set<Entity>, start: string, cursor: string, c: Consumer, k: int, batch: seq<Entity>, timeOf: Parser)
    requires Draining(msgs, start, cursor, c, timeOf)
    requires IsBatch(batch, Pending(msgs, cursor), k, timeOf)
    ensures Draining(msgs, start, cursor, c.(batch := batch), timeOf)
  {
  }

  lemma DrainAck(msgs: set<Entity>, start: string, cursor: string, c: Consumer, timeOf: Parser)
    requires Draining(msgs, start, cursor, c, timeOf)
    ensures Draining(msgs, start, AckedCursor(cursor, c.batch), Consumer(c.delivered + c.batch, []), timeOf)
  {
    var next := AckedCursor(cursor, c.batch);
    AckRemovesBatch(msgs, start, cursor, c, timeOf);
    AckExtendsSorting(msgs, start, cursor, c, timeOf);
    AckMovesCursor(start, cursor, c);
    var a, p, b := Pending(msgs, start), Pending(msgs, cursor), Elements(c.batch);
    assert a - (p - b) == (a - p) + b;
  }

  lemma AckRemovesBatch(msgs: set<Entity>, start: string, cursor: string, c: Consumer, timeOf: Parser)
    requires Draining(msgs, start, cursor, c, timeOf)
    ensures Pending(msgs, AckedCursor(cursor, c.batch)) == Pending(msgs, cursor) - Elements(c.batch)
  {
    var pending := Pending(msgs, cursor);
    var next := AckedCursor(cursor, c.batch);
    AckedNotPending(c.batch, msgs, cursor);
    AckedCursorIsJoin(cursor, c.batch);
    forall m | m in pending - Elements(c.batch) ensures Passes(next, Stamp(m)) {
      if next != cursor {
        var a :| a in c.batch && Stamp(a) == next;
        assert a in Elements(c.batch);
        assert a in Pending(msgs, start) && m in Pending(msgs, start) && Time(a, timeOf) <= Time(m, timeOf);
      }
    }
  }

  lemma AckExtendsSorting(msgs: set<Entity>, start: string, cursor: string, c: Consumer, timeOf: Parser)
    requires Draining(msgs, start, cursor, c, timeOf)
    ensures IsSorting(c.delivered + c.batch,
                      (Pending(msgs, start) - Pending(msgs, cursor)) + Elements(c.batch), timeOf)
  {
    BeforePending(msgs, start, cursor, c, timeOf);
    JoinSortings(c.delivered, Pending(msgs, start) - Pending(msgs, cursor), c.batch, Elements(c.batch), timeOf);
  }

  /** Everything delivered is older than everything pending. */
  lemma BeforePending(msgs: set<Entity>, start: string, cursor: string, c: Consumer, timeOf: Parser)
    requires Draining(msgs, start, cursor, c, timeOf)
    ensures forall d, p | d in Pending(msgs, start) - Pending(msgs, cursor) && p in Pending(msgs, cursor) ::
              Time(d, timeOf) < Time(p, timeOf)
  {
    var done := Pending(msgs, start) - Pending(msgs, cursor);
    forall d, p | d in done && p in Pending(msgs, cursor)
      ensures Time(d, timeOf) < Time(p, timeOf)
    {
      assert d in Elements(c.delivered);
      assert d in msgs && !Passes(cursor, Stamp(d));
      NotLessChain(Stamp(d), cursor, Stamp(p));
      LessTotal(Stamp(d), Stamp(p));
      assert p in Pending(msgs, start) && d in Pending(msgs, start);
    }
  }

  lemma JoinSortings(xs: seq<Entity>, x: set<Entity>, ys: seq<Entity>, y: set<Entity>, timeOf: Parser)
    requires IsSorting(xs, x, timeOf) && IsSorting(ys, y, timeOf)
    requires forall a, b | a in x && b in y :: Time(a, timeOf) < Time(b, timeOf)
    ensures IsSorting(xs + ys, x + y, timeOf)
  {
    assert forall i | 0 <= i < |xs| :: xs[i] in Elements(xs);
    assert forall i | 0 <= i < |ys| :: ys[i] in Elements(ys);
    assert Elements(xs + ys) == x + y;
  }

  lemma AckMovesCursor(start: string, cursor: string, c: Consumer)
    requires CursorAt(cursor, start, c.delivered)
    ensures CursorAt(AckedCursor(cursor, c.batch), start, c.delivered + c.batch)
  {
    var next := AckedCursor(cursor, c.batch);
    AckedCursorIsJoin(cursor, c.batch);
    if next != cursor {
      var a :| a in c.batch && Stamp(a) == next;
      assert a in c.delivered + c.batch;
    } else if cursor != start {
      var d :| d in c.delivered && Stamp(d) == cursor;
      assert d in c.delivered + c.batch;
    }
    forall d | d in c.delivered + c.batch ensures !Less(next, Stamp(d)) {
      if d in c.delivered {
        NotLessChain(Stamp(d), cursor, next);
      } else {
        assert Stamp(d) in Stamps(c.batch);
      }
    }
  }

  // ── The same inside a run of the whole backend ────────────────────────────

  function MessageIds(batch: seq<Entity>): (ids: seq<string>)
    ensures |ids| == |batch| && forall i | 0 <= i < |batch| :: ids[i] == Get(batch[i], MessageId)
  {
    if batch == [] then [] else [Get(batch[0], MessageId)] + MessageIds(batch[1..])
  }

  function Next(c: Consumer, a: Act, sub: Id): Consumer {
    match a
    case Pulled(_, _, x, _, batch) => if x == sub then c.(batch := batch) else c
    case Acknowledged(_, _, x, _, _) => if x == sub then Consumer(c.delivered + c.batch, []) else c
    case _ => c
  }

  /** What the consumer of `sub` holds after `acts`. */
  function Track(acts: seq<Act>, sub: Id): Consumer {
    if acts == [] then Consumer([], [])
    else Next(Track(acts[..|acts| - 1], sub), acts[|acts| - 1], sub)
  }

  function CursorOf(s: Store, sub: Id): string {
    if sub in s.entities then Get(s.entities[sub], Cursor) else ""
  }

  /** An act that fits the protocol: acknowledge the batch in hand, publish in order. */
  ghost predicate Fits(s: Store, a: Act, c: Consumer, sub: Id, agency: string, topic: string, start: string, timeOf: Parser) {
    && (a.Acknowledged? && a.sub == sub ==> a.ids == MessageIds(c.batch))
    && (a.Published? && a.message.agency == agency && Get(a.message, TopicName) == topic ==>
          Arrives(a.message, TopicMessages(s, agency, topic), start, CursorOf(s, sub), c.batch, timeOf))
  }

  ghost predicate Disciplined(s: Store, acts: seq<Act>, sub: Id, agency: string, topic: string, timeOf: Parser) {
    acts != [] ==>
      Disciplined(s, acts[..|acts| - 1], sub, agency, topic, timeOf) &&
      Fits(After(s, acts[..|acts| - 1]), acts[|acts| - 1], Track(acts[..|acts| - 1], sub), sub, agency, topic,
           CursorOf(s, sub), timeOf)
  }

  /** `sub` is a subscription of `agency` to `topic`. */
  predicate SubscribedTo(s: Store, sub: Id, agency: string, topic: string) {
    sub in s.entities && s.entities[sub].kind == SubscriptionKind && s.entities[sub].agency == agency &&
    Get(s.entities[sub], TopicName) == topic
  }

  ghost predicate DrainingIn(s: Store, sub: Id, agency: string, topic: string, start: string, c: Consumer, timeOf: Parser) {
    SubscribedTo(s, sub, agency, topic) &&
    Draining(TopicMessages(s, agency, topic), start, Get(s.entities[sub], Cursor), c, timeOf)
  }

  lemma BatchStamps(s: Store, agency: string, topic: string, batch: seq<Entity>)
    requires Inv(s) && Elements(batch) <= TopicMessages(s, agency, topic)
    ensures KnownStamps(s, agency, MessageIds(batch)) == Stamps(batch)
  {
    forall x | x in KnownStamps(s, agency, MessageIds(batch)) ensures x in Stamps(batch) {
      var id :| id in s.entities && Named(s.entities[id], agency, MessageIds(batch)) && Stamp(s.entities[id]) == x;
      var i :| 0 <= i < |batch| && MessageIds(batch)[i] == s.entities[id].props[MessageId];
      assert batch[i] in Elements(batch);
      assert s.entities[id] == batch[i];
    }
    forall x | x in Stamps(batch) ensures x in KnownStamps(s, agency, MessageIds(batch)) {
      var i :| 0 <= i < |batch| && Stamp(batch[i]) == x;
      assert batch[i] in Elements(batch);
      assert MessageIds(batch)[i] == Get(batch[i], MessageId);
      assert Named(batch[i], agency, MessageIds(batch));
    }
  }

  lemma PutKeepsMessages(s: Store, e: Entity, agency: string, topic: string)
    requires New(s, e) && WellKeyed(s) && !Matches(e, MessagesOn(agency, topic))
    ensures TopicMessages(Put(s, e), agency, topic) == TopicMessages(s, agency, topic)
  {
    assert Matching(Put(s, e), MessagesOn(agency, topic)) == Matching(s, MessagesOn(agency, topic));
  }

  lemma RemoveKeepsMessages(s: Store, gone: set<Id>, agency: string, topic: string)
    requires forall id | id in gone :: id in s.entities && s.entities[id].kind != MessageKind
    ensures TopicMessages(RemoveAll(s, gone), agency, topic) == TopicMessages(s, agency, topic)
  {
    assert Matching(RemoveAll(s, gone), MessagesOn(agency, topic)) == Matching(s, MessagesOn(agency, topic));
  }

  lemma MergeKeepsMessages(s: Store, sub: Id, cursor: string, agency: string, topic: string)
    requires sub in s.entities && s.entities[sub].kind == SubscriptionKind
    ensures TopicMessages(Merge(s, sub, map[Cursor := cursor]), agency, topic) == TopicMessages(s, agency, topic)
  {
    var s1 := Merge(s, sub, map[Cursor := cursor]);
    assert Matching(s1, MessagesOn(agency, topic)) == Matching(s, MessagesOn(agency, topic));
  }

  lemma MessageAdded(s: Store, m: Entity, agency: string, topic: string)
    requires New(s, m) && WellKeyed(s) && Matches(m, MessagesOn(agency, topic))
    ensures TopicMessages(Put(s, m), agency, topic) == TopicMessages(s, agency, topic) + {m}
    ensures m !in TopicMessages(s, agency, topic)
  {
    var s1 := Put(s, m);
    assert Matching(s1, MessagesOn(agency, topic)) == Matching(s, MessagesOn(agency, topic)) + {m.id};
    assert s1.entities[m.id] == m;
    assert forall id | id in Matching(s, MessagesOn(agency, topic)) :: s1.entities[id] == s.entities[id];
  }

  lemma DrainStep(s: Store, a: Act, sub: Id, agency: string, topic: string, start: string, c: Consumer, timeOf: Parser)
    requires Inv(s) && Enabled(s, a, timeOf)
    requires DrainingIn(s, sub, agency, topic, start, c, timeOf) && Fits(s, a, c, sub, agency, topic, start, timeOf)
    requires sub in Apply(s, a).entities
    ensures DrainingIn(Apply(s, a), sub, agency, topic, start, Next(c, a, sub), timeOf)
  {
    match a {
      case CreatedTopic(t) => PutKeepsMessages(s, t, agency, topic);
      case DeletedTopic(_, _, gone) => RemoveKeepsMessages(s, gone, agency, topic);
      case Published(m) => PublishStep(s, m, sub, agency, topic, start, c, timeOf);
      case CreatedSubscription(u) => PutKeepsMessages(s, u, agency, topic);
      case DeletedSubscription(_, _, gone) => RemoveKeepsMessages(s, gone, agency, topic);
      case Pulled(_, _, x, k, batch) =>
        if x == sub {
          DrainPull(TopicMessages(s, agency, topic), start, Get(s.entities[sub], Cursor), c, k, batch, timeOf);
        }
      case Acknowledged(_, _, _, _, _) => AckStep(s, a, sub, agency, topic, start, c, timeOf);
    }
  }

  lemma PublishStep(s: Store, m: Entity, sub: Id, agency: string, topic: string, start: string, c: Consumer, timeOf: Parser)
    requires Inv(s) && Enabled(s, Published(m), timeOf)
    requires DrainingIn(s, sub, agency, topic, start, c, timeOf)
    requires Fits(s, Published(m), c, sub, agency, topic, start, timeOf)
    ensures DrainingIn(Put(s, m), sub, agency, topic, start, c, timeOf)
  {
    if Matches(m, MessagesOn(agency, topic)) {
      MessageAdded(s, m, agency, topic);
      DrainPublishIff(TopicMessages(s, agency, topic), m, start, Get(s.entities[sub], Cursor), c, timeOf);
    } else {
      PutKeepsMessages(s, m, agency, topic);
    }
  }

  lemma AckStep(s: Store, a: Act, sub: Id, agency: string, topic: string, start: string, c: Consumer, timeOf: Parser)
    requires Inv(s) && a.Acknowledged? && Enabled(s, a, timeOf)
    requires DrainingIn(s, sub, agency, topic, start, c, timeOf) && Fits(s, a, c, sub, agency, topic, start, timeOf)
    ensures DrainingIn(Apply(s, a), sub, agency, topic, start, Next(c, a, sub), timeOf)
  {
    MergeKeepsMessages(s, a.sub, a.cursor, agency, topic);
    if a.sub == sub {
      var msgs, cursor := TopicMessages(s, agency, topic), Get(s.entities[sub], Cursor);
      BatchStamps(s, agency, topic, c.batch);
      AckedCursorIsJoin(cursor, c.batch);
      JoinUnique(a.cursor, AckedCursor(cursor, c.batch), cursor, Stamps(c.batch));
      DrainAck(msgs, start, cursor, c, timeOf);
    }
  }

  /** IDs are not reused, so a subscription stored at the end was stored all along. */
  lemma {:induction false} StoredThroughout(s: Store, acts: seq<Act>, sub: Id, timeOf: Parser)
    requires Inv(s) && Possible(s, acts, timeOf) && sub in s.issued && acts != []
    requires sub in After(s, acts).entities
    ensures sub in After(s, acts[..|acts| - 1]).entities
  {
    IssuedRun(s, acts[..|acts| - 1], sub);
  }

  lemma {:induction false} IssuedRun(s: Store, acts: seq<Act>, id: Id)
    requires id in s.issued
    ensures id in After(s, acts).issued
  {
    if acts != [] {
      IssuedRun(s, acts[..|acts| - 1], id);
    }
  }

  /**
    A run in which `sub`, stored throughout, is drained by the protocol, from a start whose
    pending messages have one order by time and by stamp.
   */
  ghost predicate Consumes(s: Store, acts: seq<Act>, sub: Id, agency: string, topic: string, timeOf: Parser) {
    && Inv(s) && Possible(s, acts, timeOf) && SubscribedTo(s, sub, agency, topic) && sub in After(s, acts).entities
    && OrdersAgree(PendingFor(s, s.entities[sub]), timeOf)
    && Disciplined(s, acts, sub, agency, topic, timeOf)
  }

  lemma {:induction false} DrainRun(s: Store, acts: seq<Act>, sub: Id, agency: string, topic: string, timeOf: Parser)
    requires Consumes(s, acts, sub, agency, topic, timeOf)
    ensures DrainingIn(After(s, acts), sub, agency, topic, Get(s.entities[sub], Cursor), Track(acts, sub), timeOf)
  {
    if acts != [] {
      var init := acts[..|acts| - 1];
      var last := acts[|acts| - 1];
      StoredThroughout(s, acts, sub, timeOf);
      InvRun(s, init, timeOf);
      DrainRun(s, init, sub, agency, topic, timeOf);
      DrainStep(After(s, init), last, sub, agency, topic, Get(s.entities[sub], Cursor), Track(init, sub), timeOf);
    }
  }

  /**
    Lossless ordered drain. If the messages pending at the start have one order by time
    and by stamp, and new messages arrive in order (`Arrives`), then for every batch size, every interleaving with other calls and every tie-break, what the consumer
    acknowledged is a prefix of the topic's messages past the starting cursor, oldest
    first and each once; what is missing is exactly what is still pending.
   */
  lemma LosslessDrain(s: Store, acts: seq<Act>, sub: Id, agency: string, topic: string, timeOf: Parser)
    requires Consumes(s, acts, sub, agency, topic, timeOf)
    ensures var end := After(s, acts);
            var due := Pending(TopicMessages(end, agency, topic), Get(s.entities[sub], Cursor));
            var left := PendingFor(end, end.entities[sub]);
            && (forall rest | IsSorting(rest, left, timeOf) :: IsSorting(Track(acts, sub).delivered + rest, due, timeOf))
            && (left == {} ==> IsSorting(Track(acts, sub).delivered, due, timeOf))
  {
    DrainRun(s, acts, sub, agency, topic, timeOf);
    var end := After(s, acts);
    var msgs := TopicMessages(end, agency, topic);
    var start, cursor := Get(s.entities[sub], Cursor), Get(end.entities[sub], Cursor);
    var c := Track(acts, sub);
    var due, left := Pending(msgs, start), Pending(msgs, cursor);
    BeforePending(msgs, start, cursor, c, timeOf);
    assert (due - left) + left == due;
    forall rest | IsSorting(rest, left, timeOf) ensures IsSorting(c.delivered + rest, due, timeOf) {
      JoinSortings(c.delivered, due - left, rest, left, timeOf);
    }
  }

  // ── The hypothesis in terms of clock readings ─────────────────────────────

  /** `m` carries the stamp of some reading, as Publish writes it. */
  ghost predicate NanoStamped(m: Entity) {
    exists c :: ValidClock(c) && Stamp(m) == FormatNano(c)
  }

  /** The reading that `m` is stamped with. */
  ghost function ReadingOf(m: Entity): Clock {
    if NanoStamped(m) then var c :| ValidClock(c) && Stamp(m) == FormatNano(c); c else Clock(0, 0, 0, 0, 0, 0, 0)
  }

  /** A stamp gives its reading back to the nanosecond. */
  lemma ReadingIs(m: Entity, now: Clock)
    requires ValidClock(now) && Stamp(m) == FormatNano(now)
    ensures NanoStamped(m) && ReadingOf(m) == now
  {
    NanoStampsOrder(ReadingOf(m), now);
  }

  /** The pending messages carry the stamps of readings `clock`, as Publish writes them. */
  ghost predicate StampedFrom(pending: set<Entity>, clock: Entity -> Clock) {
    forall m | m in pending :: ValidClock(clock(m)) && Stamp(m) == FormatNano(clock(m))
  }

  /** The parser reads back the order of just these readings. */
  ghost predicate ReadBack(pending: set<Entity>, clock: Entity -> Clock, timeOf: Parser) {
    forall m, n | m in pending && n in pending :: Time(m, timeOf) < Time(n, timeOf) <==> Before(clock(m), clock(n))
  }

  ghost predicate Readings(pending: set<Entity>, clock: Entity -> Clock, timeOf: Parser) {
    StampedFrom(pending, clock) && ReadBack(pending, clock, timeOf)
  }

  /** Every stored message carries the stamp of some reading. */
  ghost predicate NanoStore(s: Store) {
    forall x | x in s.entities && s.entities[x].kind == MessageKind :: NanoStamped(s.entities[x])
  }

  ghost predicate NanoActs(acts: seq<Act>) {
    forall i | 0 <= i < |acts| && acts[i].Published? :: NanoStamped(acts[i].message)
  }

  lemma OldOrPublished(s: Store, a: Act, x: Id, timeOf: Parser)
    requires Enabled(s, a, timeOf) && x in Apply(s, a).entities && Apply(s, a).entities[x].kind == MessageKind
    ensures (x in s.entities && Apply(s, a).entities[x] == s.entities[x]) ||
            (a.Published? && Apply(s, a).entities[x] == a.message)
  {
  }

  lemma NanoStep(s: Store, a: Act, timeOf: Parser)
    requires Inv(s) && NanoStore(s) && Enabled(s, a, timeOf) && (a.Published? ==> NanoStamped(a.message))
    ensures NanoStore(Apply(s, a))
  {
    var t := Apply(s, a);
    forall x | x in t.entities && t.entities[x].kind == MessageKind ensures NanoStamped(t.entities[x]) {
      OldOrPublished(s, a, x, timeOf);
    }
  }

  lemma {:induction false} NanoRun(s: Store, acts: seq<Act>, timeOf: Parser)
    requires Inv(s) && NanoStore(s) && Possible(s, acts, timeOf) && NanoActs(acts)
    ensures NanoStore(After(s, acts))
  {
    if acts != [] {
      var init, a := acts[..|acts| - 1], acts[|acts| - 1];
      NanoRun(s, init, timeOf);
      InvRun(s, init, timeOf);
      NanoStep(After(s, init), a, timeOf);
    }
  }

  /** So where all messages came from Publish, their stamps give the readings that the theorems below speak of. */
  lemma PublishedReadings(s: Store, acts: seq<Act>, u: Entity, timeOf: Parser)
    requires Inv(s) && NanoStore(s) && Possible(s, acts, timeOf) && NanoActs(acts)
    ensures StampedFrom(PendingFor(After(s, acts), u), ReadingOf)
  {
    NanoRun(s, acts, timeOf);
  }

  /**
    For messages stamped as Publish stamps them, times and stamps agree exactly when no
    two messages share a clock reading and, within a second, no trimmed fraction starts
    a later one.
   */
  lemma NanoAgreement(pending: set<Entity>, clock: Entity -> Clock, timeOf: Parser)
    requires Readings(pending, clock, timeOf)
    ensures OrdersAgree(pending, timeOf) <==>
            forall a, b | a in pending && b in pending && a != b :: clock(a) != clock(b) && !Misordered(clock(a), clock(b))
  {
    forall a, b | a in pending && b in pending && a != b
      ensures Time(a, timeOf) <= Time(b, timeOf) <==> !Before(clock(b), clock(a))
      ensures Less(Stamp(a), Stamp(b)) <==>
              (Before(clock(a), clock(b)) && !Misordered(clock(a), clock(b))) ||
              (Before(clock(b), clock(a)) && Misordered(clock(b), clock(a)))
      ensures Misordered(clock(a), clock(b)) ==> Before(clock(a), clock(b))
    {
      NanoStampsOrder(clock(a), clock(b));
      MisorderedIsBefore(clock(a), clock(b));
    }
  }

  /**
    The exact condition of losslessness in clock readings: no Pull-then-Acknowledge round,
    of whatever size, skips a pending message if and only if no two pending messages share
    a reading and, within one second, no earlier trimmed fraction starts a later one.
   */
  lemma LosslessIffClocksOrdered(pending: set<Entity>, cursor: string, clock: Entity -> Clock, timeOf: Parser)
    requires Readings(pending, clock, timeOf)
    requires forall m | m in pending :: Passes(cursor, Stamp(m))
    ensures (forall k: int, batch | IsBatch(batch, pending, k, timeOf) :: KeepsRest(batch, pending, cursor)) <==>
            forall a, b | a in pending && b in pending && a != b :: clock(a) != clock(b) && !Misordered(clock(a), clock(b))
  {
    forall m | m in pending ensures Stamp(m) != "" {
      assert FormatNano(clock(m))[|FormatNano(clock(m))| - 1] == 'Z';
    }
    NanoAgreement(pending, clock, timeOf);
    LosslessIffOrdersAgree(pending, cursor, timeOf);
  }

  // ── What a subscription sees of the topic ─────────────────────────────────

  /** The stored messages of the agency on the topic. */
  function AllOn(s: Store, agency: string, topic: string): set<Entity> {
    set x | x in With(s, agency, MessageKind, TopicName, topic) :: s.entities[x]
  }

  /** What a Pull chooses from: those past the cursor, and all of them while it is empty. */
  lemma PendingExactly(s: Store, u: Entity)
    ensures PendingFor(s, u) ==
            set m | m in AllOn(s, u.agency, Get(u, TopicName)) && (Get(u, Cursor) == "" || Less(Get(u, Cursor), Get(m, PublishedAt)))
  {
    MessageFilter(s, u.agency, Get(u, TopicName));
  }

  lemma AllPending(s: Store, u: Entity)
    requires Get(u, Cursor) == ""
    ensures PendingFor(s, u) == AllOn(s, u.agency, Get(u, TopicName))
  {
    PendingExactly(s, u);
    var all := AllOn(s, u.agency, Get(u, TopicName));
    assert all == set m | m in all && (Get(u, Cursor) == "" || Less(Get(u, Cursor), Get(m, PublishedAt)));
  }

  predicate AcksOn(a: Act, sub: Id) {
    a.Acknowledged? && a.sub == sub
  }

  /** Until it is acknowledged on, a subscription stays as it is while it is there. */
  ghost predicate Untouched(s: Store, u: Entity) {
    u.id in s.issued && (u.id in s.entities ==> s.entities[u.id] == u)
  }

  lemma UntouchedStep(s: Store, a: Act, u: Entity, timeOf: Parser)
    requires Enabled(s, a, timeOf) && Untouched(s, u) && !AcksOn(a, u.id)
    ensures Untouched(Apply(s, a), u)
  {
  }

  lemma {:induction false} UntouchedRun(s: Store, acts: seq<Act>, i: nat, j: nat, u: Entity, timeOf: Parser)
    requires Possible(s, acts, timeOf) && i <= j <= |acts| && Untouched(After(s, acts[..i]), u)
    requires forall k | i <= k < j :: !AcksOn(acts[k], u.id)
    ensures Untouched(After(s, acts[..j]), u)
    decreases j - i
  {
    if i < j {
      UntouchedRun(s, acts, i, j - 1, u, timeOf);
      RunPrefix(s, acts, j - 1, timeOf);
      UntouchedStep(After(s, acts[..j - 1]), acts[j - 1], u, timeOf);
    }
  }

  /** A Pull on a subscription whose cursor is empty: a batch of all there is, without a maximum all of it. */
  ghost predicate PullsAll(a: Act, s: Store, u: Entity, timeOf: Parser) {
    a.Pulled? &&
    var all := AllOn(s, u.agency, Get(u, TopicName));
    IsBatch(a.batch, all, a.k, timeOf) && (a.k <= 0 ==> IsSorting(a.batch, all, timeOf))
  }

  lemma EmptyCursorPull(s: Store, a: Act, u: Entity, timeOf: Parser)
    requires a.Pulled? && Enabled(s, a, timeOf) && InStore(s, u) && a.sub == u.id && Get(u, Cursor) == ""
    ensures PullsAll(a, s, u, timeOf)
  {
    AllPending(s, u);
    if a.k <= 0 {
      WholeBatch(a.batch, AllOn(s, u.agency, Get(u, TopicName)), a.k, timeOf);
    }
  }

  /**
    The first Pulls on a new subscription: until something is acknowledged on it, a Pull
    chooses from everything stored on its topic, and without a maximum returns all of it.
   */
  lemma FirstPullReturnsAll(s: Store, acts: seq<Act>, i: nat, j: nat, timeOf: Parser)
    requires Possible(s, acts, timeOf) && i < j < |acts|
    requires acts[i].CreatedSubscription? && acts[j].Pulled? && acts[j].sub == acts[i].created.id
    requires forall k | i < k < j :: !AcksOn(acts[k], acts[j].sub)
    ensures PullsAll(acts[j], After(s, acts[..j]), acts[i].created, timeOf)
  {
    var u := acts[i].created;
    RunPrefix(s, acts, i, timeOf);
    assert acts[..i + 1][..i] == acts[..i];
    UntouchedRun(s, acts, i + 1, j, u, timeOf);
    RunPrefix(s, acts, j, timeOf);
    EmptyCursorPull(After(s, acts[..j]), acts[j], u, timeOf);
  }

  /** Without a maximum a batch is all that is pending. */
  lemma WholeBatch(batch: seq<Entity>, pending: set<Entity>, k: int, timeOf: Parser)
    requires IsBatch(batch, pending, k, timeOf) && k <= 0
    ensures IsSorting(batch, pending, timeOf)
  {
    BatchIffCutOfSorting(batch, pending, k, timeOf);
    var ms :| IsSorting(ms, pending, timeOf) && batch == ms[..CutAt(|ms|, k)];
    assert ms[..|ms|] == ms;
  }

  /** Messages are never changed or removed. */
  lemma MessageStaysStep(s: Store, a: Act, m: Entity, timeOf: Parser)
    requires WellKeyed(s) && Enabled(s, a, timeOf) && InStore(s, m) && m.kind == MessageKind
    ensures InStore(Apply(s, a), m)
  {
  }

  lemma {:induction false} MessageStays(s: Store, acts: seq<Act>, i: nat, j: nat, m: Entity, timeOf: Parser)
    requires Inv(s) && Possible(s, acts, timeOf) && i <= j <= |acts|
    requires InStore(After(s, acts[..i]), m) && m.kind == MessageKind
    ensures InStore(After(s, acts[..j]), m)
    decreases j - i
  {
    if i < j {
      MessageStays(s, acts, i, j - 1, m, timeOf);
      RunPrefix(s, acts, j - 1, timeOf);
      InvRun(s, acts[..j - 1], timeOf);
      MessageStaysStep(After(s, acts[..j - 1]), acts[j - 1], m, timeOf);
    }
  }

  lemma PublishedStays(s: Store, acts: seq<Act>, i: nat, j: nat, timeOf: Parser)
    requires Inv(s) && Possible(s, acts, timeOf) && i < j <= |acts| && acts[i].Published?
    ensures InStore(After(s, acts[..j]), acts[i].message) && acts[i].message.kind == MessageKind
    ensures Inv(After(s, acts[..j]))
  {
    RunPrefix(s, acts, i, timeOf);
    assert acts[..i + 1][..i] == acts[..i];
    MessageStays(s, acts, i + 1, j, acts[i].message, timeOf);
    RunPrefix(s, acts, j, timeOf);
    InvRun(s, acts[..j], timeOf);
  }

  /** A pulled message with the message ID of an earlier publication is that publication. */
  lemma PulledIsPublished(s: Store, acts: seq<Act>, i: nat, j: nat, e: Entity, timeOf: Parser)
    requires Inv(s) && Possible(s, acts, timeOf) && i < j < |acts| && acts[i].Published? && acts[j].Pulled?
    requires e in acts[j].batch && Get(e, MessageId) == Get(acts[i].message, MessageId)
    ensures e == acts[i].message
  {
    PublishedStays(s, acts, i, j, timeOf);
    RunPrefix(s, acts, j, timeOf);
    assert e in Elements(acts[j].batch);
  }

  /** A Pull without a maximum returns exactly the stored messages of its topic past the cursor. */
  lemma UnlimitedPull(s: Store, a: Act, u: Entity, m: Entity, timeOf: Parser)
    requires a.Pulled? && Enabled(s, a, timeOf) && InStore(s, u) && a.sub == u.id && a.k <= 0
    requires InStore(s, m) && m.kind == MessageKind
    ensures m in a.batch <==> KeyOn(m, u) && Passes(Get(u, Cursor), Stamp(m))
  {
    WholeBatch(a.batch, PendingFor(s, u), a.k, timeOf);
    assert m in a.batch <==> m in Elements(a.batch);
    assert KeyOn(m, u) ==> m.id in Matching(s, MessagesOn(u.agency, Get(u, TopicName)));
  }

  /** So it returns a published message exactly when it is past the cursor. */
  lemma PublishedIsPulledIff(s: Store, acts: seq<Act>, i: nat, j: nat, u: Entity, timeOf: Parser)
    requires Inv(s) && Possible(s, acts, timeOf) && i < j < |acts| && acts[i].Published? && acts[j].Pulled? && acts[j].k <= 0
    requires InStore(After(s, acts[..j]), u) && acts[j].sub == u.id
    ensures var m := acts[i].message;
            m in acts[j].batch <==> KeyOn(m, u) && Passes(Get(u, Cursor), Stamp(m))
  {
    PublishedStays(s, acts, i, j, timeOf);
    RunPrefix(s, acts, j, timeOf);
    UnlimitedPull(After(s, acts[..j]), acts[j], u, acts[i].message, timeOf);
  }

  /** A freshly published message is pending for a subscription of its topic exactly when it is past the cursor. */
  lemma PublishedPendingIff(s: Store, m: Entity, sub: Id, timeOf: Parser)
    requires Inv(s) && Enabled(s, Published(m), timeOf)
    requires sub in s.entities && s.entities[sub].kind == SubscriptionKind && KeyOn(m, s.entities[sub])
    ensures m in PendingFor(Put(s, m), Put(s, m).entities[sub]) <==> Passes(Get(s.entities[sub], Cursor), Stamp(m))
  {
    MessageAdded(s, m, m.agency, Get(s.entities[sub], TopicName));
  }

  /**
    So when the cursor is at the message of reading `acked`, one published at `now` is pending
    exactly when it is later and its trimmed fraction does not go on from that of `acked` in
    the same second, or earlier and that of `acked` goes on from its own. Otherwise it is lost
    at once: no Pull will return it.
   */
  lemma PublishedPendingByClock(s: Store, m: Entity, sub: Id, acked: Clock, now: Clock, timeOf: Parser)
    requires Inv(s) && Enabled(s, Published(m), timeOf)
    requires sub in s.entities && s.entities[sub].kind == SubscriptionKind && KeyOn(m, s.entities[sub])
    requires ValidClock(acked) && ValidClock(now)
    requires Get(s.entities[sub], Cursor) == FormatNano(acked) && Stamp(m) == FormatNano(now)
    ensures m in PendingFor(Put(s, m), Put(s, m).entities[sub]) <==>
            (Before(acked, now) && !Misordered(acked, now)) || (Before(now, acked) && Misordered(now, acked))
    ensures m !in PendingFor(Put(s, m), Put(s, m).entities[sub]) <==> Retired(Put(s, m), sub, m)
  {
    PublishedPendingIff(s, m, sub, timeOf);
    NanoStampsOrder(acked, now);
    assert FormatNano(acked)[|FormatNano(acked)| - 1] == 'Z';
  }

  lemma MisorderedIsBefore(a: Clock, b: Clock)
    requires ValidClock(a) && ValidClock(b)
    ensures Misordered(a, b) ==> Before(a, b)
  {
    if Misordered(a, b) {
      FractionOrder(a, b);
      PrefixLess(Fraction(a), Fraction(b));
    }
  }

  lemma {:induction false} PrefixLess(a: string, b: string)
    requires ProperPrefix(a, b)
    ensures Less(a, b)
  {
    if a != "" {
      assert b[..|a|][0] == a[0];
      PrefixStep(a, b);
      PrefixLess(a[1..], b[1..]);
    }
  }

  /** A stamp on the whole second sorts after every later stamp of that second. */
  lemma WholeSecondMisordered(whole: Clock, later: Clock)
    requires ValidClock(whole) && ValidClock(later) && SameSecond(whole, later) && whole.nanos == 0 < later.nanos
    ensures Before(whole, later) && Less(FormatNano(later), FormatNano(whole))
  {
    ZeroFraction(whole);
    FractionOrder(whole, later);
    assert Misordered(whole, later);
    NanoStampsOrder(later, whole);
  }
}
