/**
  Draining ends: every sequence of as many rounds as messages are pending, of whatever
  sizes and with whatever ties broken, leaves nothing pending; and such rounds are always
  possible, with any batch size.
 */
module DrainProgress {
  import opened Wrappers
  import opened Text
  import opened EntityStore
  import opened PullSpec
  import opened BackendSpec
  import opened Drain

  // ── Every drain ends ──────────────────────────────────────────────────────

  /** The batch last pulled on `sub` and not yet followed by an acknowledgement on it. */
  function InHand(acts: seq<Act>, sub: Id): Option<seq<Entity>> {
    if acts == [] then None
    else
      match acts[|acts| - 1]
      case Pulled(_, _, x, _, batch) => if x == sub then Some(batch) else InHand(acts[..|acts| - 1], sub)
      case Acknowledged(_, _, x, _, _) => if x == sub then None else InHand(acts[..|acts| - 1], sub)
      case _ => InHand(acts[..|acts| - 1], sub)
  }

  /** `a` acknowledges exactly the batch in hand. */
  predicate ClosesRound(a: Act, hand: Option<seq<Entity>>, sub: Id) {
    a.Acknowledged? && a.sub == sub && hand.Some? && a.ids == MessageIds(hand.value)
  }

  /** How many Pulls on `sub` were followed, as the next call on it, by the acknowledgement of their batch. */
  function Rounds(acts: seq<Act>, sub: Id): nat {
    if acts == [] then 0
    else
      var init, a := acts[..|acts| - 1], acts[|acts| - 1];
      Rounds(init, sub) + if ClosesRound(a, InHand(init, sub), sub) then 1 else 0
  }

  predicate PublishesTo(a: Act, agency: string, topic: string) {
    a.Published? && a.message.agency == agency && Get(a.message, TopicName) == topic
  }

  /** Nothing is published to the topic. */
  predicate Quiet(acts: seq<Act>, agency: string, topic: string) {
    forall i | 0 <= i < |acts| :: !PublishesTo(acts[i], agency, topic)
  }

  /** What is pending for `sub` after the run. */
  function Left(s: Store, acts: seq<Act>, sub: Id): set<Entity> {
    var end := After(s, acts);
    if sub in end.entities then PendingFor(end, end.entities[sub]) else {}
  }

  /** The batch in hand is pending, and empty only if nothing is. */
  ghost predicate Holds(hand: Option<seq<Entity>>, pending: set<Entity>) {
    hand.Some? ==> Distinct(hand.value) && Elements(hand.value) <= pending && (hand.value == [] ==> pending == {})
  }

  lemma QuietStep(s: Store, a: Act, agency: string, topic: string, timeOf: Parser)
    requires Inv(s) && Enabled(s, a, timeOf) && !PublishesTo(a, agency, topic)
    ensures TopicMessages(Apply(s, a), agency, topic) == TopicMessages(s, agency, topic)
  {
    match a {
      case CreatedTopic(t) => PutKeepsMessages(s, t, agency, topic);
      case DeletedTopic(_, _, gone) => RemoveKeepsMessages(s, gone, agency, topic);
      case Published(m) => PutKeepsMessages(s, m, agency, topic);
      case CreatedSubscription(u) => PutKeepsMessages(s, u, agency, topic);
      case DeletedSubscription(_, _, gone) => RemoveKeepsMessages(s, gone, agency, topic);
      case Pulled(_, _, _, _, _) =>
      case Acknowledged(_, _, x, _, cursor) => MergeKeepsMessages(s, x, cursor, agency, topic);
    }
  }

  /** Only an acknowledgement on `sub` changes what is pending for it while nothing is published. */
  lemma OthersKeepPending(s: Store, a: Act, sub: Id, agency: string, topic: string, timeOf: Parser)
    requires Inv(s) && Enabled(s, a, timeOf) && SubscribedTo(s, sub, agency, topic) && sub in Apply(s, a).entities
    requires !PublishesTo(a, agency, topic) && !(a.Acknowledged? && a.sub == sub)
    ensures SubscribedTo(Apply(s, a), sub, agency, topic)
    ensures PendingFor(Apply(s, a), Apply(s, a).entities[sub]) == PendingFor(s, s.entities[sub])
  {
    QuietStep(s, a, agency, topic, timeOf);
    assert Apply(s, a).entities[sub] == s.entities[sub];
  }

  /** Any acknowledgement leaves no more pending, and none of the messages it names. */
  lemma AnyAckShrinks(s: Store, a: Act, sub: Id, agency: string, topic: string, timeOf: Parser)
    requires Inv(s) && Enabled(s, a, timeOf) && SubscribedTo(s, sub, agency, topic)
    requires a.Acknowledged? && a.sub == sub
    ensures SubscribedTo(Apply(s, a), sub, agency, topic)
    ensures PendingFor(Apply(s, a), Apply(s, a).entities[sub]) <=
            set m | m in PendingFor(s, s.entities[sub]) && !Named(m, agency, a.ids)
  {
    var t, cursor, ids := Apply(s, a), Get(s.entities[sub], Cursor), a.ids;
    MergeKeepsMessages(s, sub, a.cursor, agency, topic);
    forall m | m in PendingFor(t, t.entities[sub])
      ensures m in PendingFor(s, s.entities[sub]) && !Named(m, agency, ids)
    {
      assert m in TopicMessages(s, agency, topic) && Less("", Stamp(m));
      NotLessChain(cursor, a.cursor, Stamp(m));
      assert Named(m, agency, ids) ==> Stamp(m) in KnownStamps(s, agency, ids);
    }
  }

  /**
    Every round shrinks what is pending: whichever batch of a Pull is acknowledged, of
    whatever size, at least that many messages are pending no more, and the batch is not
    empty while anything is.
   */
  lemma EveryRoundShrinks(s: Store, pull: Act, ack: Act, sub: Id, agency: string, topic: string, timeOf: Parser)
    requires Inv(s) && SubscribedTo(s, sub, agency, topic)
    requires pull.Pulled? && pull.sub == sub && Enabled(s, pull, timeOf)
    requires ack.Acknowledged? && ack.sub == sub && ack.ids == MessageIds(pull.batch) && Enabled(Apply(s, pull), ack, timeOf)
    ensures var t := Apply(Apply(s, pull), ack);
            sub in t.entities && PendingFor(t, t.entities[sub]) <= PendingFor(s, s.entities[sub]) - Elements(pull.batch) &&
            |PendingFor(t, t.entities[sub])| <= |PendingFor(s, s.entities[sub])| - |pull.batch|
    ensures pull.batch == [] <==> PendingFor(s, s.entities[sub]) == {}
  {
    PulledHolds(PendingFor(s, s.entities[sub]), pull.batch, pull.k, timeOf);
    BatchAckShrinks(s, ack, sub, agency, topic, pull.batch, timeOf);
  }

  lemma PulledHolds(due: set<Entity>, batch: seq<Entity>, k: int, timeOf: Parser)
    requires IsBatch(batch, due, k, timeOf)
    ensures Holds(Some(batch), due)
  {
    if batch == [] {
      EmptyBatchIff(due, k, timeOf);
    }
  }

  lemma BatchNamed(s: Store, agency: string, topic: string, batch: seq<Entity>)
    requires Inv(s) && Elements(batch) <= TopicMessages(s, agency, topic)
    ensures forall m | m in batch :: Named(m, agency, MessageIds(batch))
  {
    forall m | m in batch ensures Named(m, agency, MessageIds(batch)) {
      var i :| 0 <= i < |batch| && batch[i] == m;
      assert MessageIds(batch)[i] == Get(m, MessageId) && m in Elements(batch);
    }
  }

  lemma BatchAckShrinks(s: Store, a: Act, sub: Id, agency: string, topic: string, batch: seq<Entity>, timeOf: Parser)
    requires Inv(s) && Enabled(s, a, timeOf) && SubscribedTo(s, sub, agency, topic)
    requires a.Acknowledged? && a.sub == sub && a.ids == MessageIds(batch)
    requires Distinct(batch) && Elements(batch) <= PendingFor(s, s.entities[sub])
    ensures SubscribedTo(Apply(s, a), sub, agency, topic)
    ensures PendingFor(Apply(s, a), Apply(s, a).entities[sub]) <= PendingFor(s, s.entities[sub]) - Elements(batch)
    ensures |PendingFor(Apply(s, a), Apply(s, a).entities[sub])| <= |PendingFor(s, s.entities[sub])| - |batch|
  {
    var due, left := PendingFor(s, s.entities[sub]), PendingFor(Apply(s, a), Apply(s, a).entities[sub]);
    AnyAckShrinks(s, a, sub, agency, topic, timeOf);
    BatchNamed(s, agency, topic, batch);
    DistinctCount(batch);
    Shrink(left, Elements(batch), due);
  }

  /** One more act of a drain keeps the account: a closed round has retired a message, or nothing is left. */
  lemma {:induction false} AccountRun(s: Store, acts: seq<Act>, sub: Id, agency: string, topic: string, timeOf: Parser)
    requires Inv(s) && Possible(s, acts, timeOf) && SubscribedTo(s, sub, agency, topic) && sub in After(s, acts).entities
    requires Quiet(acts, agency, topic)
    ensures SubscribedTo(After(s, acts), sub, agency, topic) && Holds(InHand(acts, sub), Left(s, acts, sub))
    ensures Left(s, acts, sub) == {} || |Left(s, acts, sub)| + Rounds(acts, sub) <= |PendingFor(s, s.entities[sub])|
  {
    if acts != [] {
      var init, a := acts[..|acts| - 1], acts[|acts| - 1];
      StoredThroughout(s, acts, sub, timeOf);
      InvRun(s, init, timeOf);
      AccountRun(s, init, sub, agency, topic, timeOf);
      AccountStep(After(s, init), a, InHand(init, sub), sub, agency, topic, timeOf);
    }
  }

  lemma AccountStep(s: Store, a: Act, hand: Option<seq<Entity>>, sub: Id, agency: string, topic: string, timeOf: Parser)
    requires Inv(s) && Enabled(s, a, timeOf) && SubscribedTo(s, sub, agency, topic) && sub in Apply(s, a).entities
    requires !PublishesTo(a, agency, topic) && Holds(hand, PendingFor(s, s.entities[sub]))
    ensures SubscribedTo(Apply(s, a), sub, agency, topic)
    ensures var due, left := PendingFor(s, s.entities[sub]), PendingFor(Apply(s, a), Apply(s, a).entities[sub]);
            && left <= due && |left| <= |due|
            && (ClosesRound(a, hand, sub) && due != {} ==> |left| < |due|)
            && (!(a.Acknowledged? && a.sub == sub) ==> left == due)
            && (a.Pulled? && a.sub == sub ==> Holds(Some(a.batch), left))
  {
    var due := PendingFor(s, s.entities[sub]);
    if a.Acknowledged? && a.sub == sub {
      AnyAckShrinks(s, a, sub, agency, topic, timeOf);
      Subset(PendingFor(Apply(s, a), Apply(s, a).entities[sub]), due);
      if ClosesRound(a, hand, sub) {
        BatchAckShrinks(s, a, sub, agency, topic, hand.value, timeOf);
      }
    } else {
      OthersKeepPending(s, a, sub, agency, topic, timeOf);
      if a.Pulled? && a.sub == sub {
        PulledHolds(due, a.batch, a.k, timeOf);
      }
    }
  }

  /**
    Every drain ends. From any store of any run, once as many rounds were closed as messages
    were pending, nothing is pending: for all batch sizes, all ties, whatever the stamps and
    whatever other calls and other acknowledgements come in between, as long as the
    subscription stays and nothing new is published to its topic.
   */
  lemma EveryDrainEnds(s: Store, acts: seq<Act>, sub: Id, agency: string, topic: string, timeOf: Parser)
    requires Inv(s) && Possible(s, acts, timeOf) && SubscribedTo(s, sub, agency, topic) && sub in After(s, acts).entities
    requires Quiet(acts, agency, topic) && Rounds(acts, sub) >= |PendingFor(s, s.entities[sub])|
    ensures Left(s, acts, sub) == {}
  {
    AccountRun(s, acts, sub, agency, topic, timeOf);
  }

  /**
    So where stamps and times agree, every consumer that closes that many rounds has been
    delivered all that was pending at the start, oldest first and each once.
   */
  lemma EveryDrainDelivers(s: Store, acts: seq<Act>, sub: Id, agency: string, topic: string, timeOf: Parser)
    requires Consumes(s, acts, sub, agency, topic, timeOf)
    requires Quiet(acts, agency, topic) && Rounds(acts, sub) >= |PendingFor(s, s.entities[sub])|
    ensures IsSorting(Track(acts, sub).delivered, PendingFor(s, s.entities[sub]), timeOf)
  {
    EveryDrainEnds(s, acts, sub, agency, topic, timeOf);
    LosslessDrain(s, acts, sub, agency, topic, timeOf);
    DrainRun(s, acts, sub, agency, topic, timeOf);
    QuietKeepsTopic(s, acts, agency, topic, timeOf);
  }

  lemma {:induction false} QuietKeepsTopic(s: Store, acts: seq<Act>, agency: string, topic: string, timeOf: Parser)
    requires Inv(s) && Possible(s, acts, timeOf) && Quiet(acts, agency, topic)
    ensures TopicMessages(After(s, acts), agency, topic) == TopicMessages(s, agency, topic)
  {
    if acts != [] {
      var init, a := acts[..|acts| - 1], acts[|acts| - 1];
      QuietKeepsTopic(s, init, agency, topic, timeOf);
      InvRun(s, init, timeOf);
      QuietStep(After(s, init), a, agency, topic, timeOf);
    }
  }

  // ── And a drain is always possible ────────────────────────────────────────

  /** A run that keeps to the protocol, with `sub` stored under `name` at its end. */
  ghost predicate Draws(s: Store, acts: seq<Act>, sub: Id, agency: string, name: string, topic: string, timeOf: Parser) {
    && Inv(s) && Possible(s, acts, timeOf) && Disciplined(s, acts, sub, agency, topic, timeOf)
    && SubscribedTo(After(s, acts), sub, agency, topic)
    && sub in Matching(After(s, acts), SubByName(agency, name))
  }

  lemma Extend(s: Store, acts: seq<Act>, a: Act, sub: Id, agency: string, topic: string, timeOf: Parser)
    requires Possible(s, acts, timeOf) && Disciplined(s, acts, sub, agency, topic, timeOf)
    requires Enabled(After(s, acts), a, timeOf)
    requires Fits(After(s, acts), a, Track(acts, sub), sub, agency, topic, CursorOf(s, sub), timeOf)
    ensures Possible(s, acts + [a], timeOf) && Disciplined(s, acts + [a], sub, agency, topic, timeOf)
    ensures After(s, acts + [a]) == Apply(After(s, acts), a)
    ensures Track(acts + [a], sub) == Next(Track(acts, sub), a, sub)
  {
    RunMore(s, acts, a, timeOf);
    assert (acts + [a])[..|acts|] == acts;
  }

  /** A round's acknowledgement is possible, and leaves pending nothing of the batch and nothing new. */
  lemma AckOfBatch(e: Store, sub: Id, agency: string, name: string, topic: string, batch: seq<Entity>, timeOf: Parser)
    requires Inv(e) && SubscribedTo(e, sub, agency, topic) && sub in Matching(e, SubByName(agency, name))
    requires Elements(batch) <= PendingFor(e, e.entities[sub])
    ensures var a := Acknowledged(agency, name, sub, MessageIds(batch), AckedCursor(Get(e.entities[sub], Cursor), batch));
            var t := Apply(e, a);
            Enabled(e, a, timeOf) && SubscribedTo(t, sub, agency, topic) && sub in Matching(t, SubByName(agency, name)) &&
            PendingFor(t, t.entities[sub]) <= PendingFor(e, e.entities[sub]) - Elements(batch)
  {
    var msgs, cursor := TopicMessages(e, agency, topic), Get(e.entities[sub], Cursor);
    var next := AckedCursor(cursor, batch);
    BatchStamps(e, agency, topic, batch);
    AckedCursorIsJoin(cursor, batch);
    MergeKeepsMessages(e, sub, next, agency, topic);
    AckedNotPending(batch, msgs, cursor);
  }

  /** One more round of batch size `k`, from any point where something is pending. */
  lemma OneRound(s: Store, acts: seq<Act>, sub: Id, agency: string, name: string, topic: string, k: int, timeOf: Parser)
      returns (next: seq<Act>)
    requires Draws(s, acts, sub, agency, name, topic, timeOf)
    requires Left(s, acts, sub) != {}
    ensures acts <= next && |next| == |acts| + 2 && Draws(s, next, sub, agency, name, topic, timeOf)
    ensures |Left(s, next, sub)| < |Left(s, acts, sub)|
  {
    var e := After(s, acts);
    var due := PendingFor(e, e.entities[sub]);
    var ms := Sortable(due, timeOf);
    CutIsBatch(ms, due, k, timeOf);
    var batch := ms[..CutAt(|ms|, k)];
    InvRun(s, acts, timeOf);
    var pull := Pulled(agency, name, sub, k, batch);
    Extend(s, acts, pull, sub, agency, topic, timeOf);
    AckOfBatch(e, sub, agency, name, topic, batch, timeOf);
    var ack := Acknowledged(agency, name, sub, MessageIds(batch), AckedCursor(Get(e.entities[sub], Cursor), batch));
    Extend(s, acts + [pull], ack, sub, agency, topic, timeOf);
    next := acts + [pull] + [ack];
    FewerLeft(Left(s, next, sub), due, batch);
  }

  lemma FewerLeft(left: set<Entity>, due: set<Entity>, batch: seq<Entity>)
    requires batch != [] && Elements(batch) <= due && left <= due - Elements(batch)
    ensures |left| < |due|
  {
    assert batch[0] in Elements(batch);
    Subset(left, due - {batch[0]});
    assert due == (due - {batch[0]}) + {batch[0]};
  }

  /**
    Whatever the stamps and whatever the batch size, further rounds, at most one per
    pending message, leave nothing pending.
   */
  lemma {:induction false} DrainEnds(s: Store, acts: seq<Act>, sub: Id, agency: string, name: string, topic: string,
                                     k: int, timeOf: Parser) returns (done: seq<Act>)
    requires Draws(s, acts, sub, agency, name, topic, timeOf)
    ensures acts <= done && |done| <= |acts| + 2 * |Left(s, acts, sub)|
    ensures Draws(s, done, sub, agency, name, topic, timeOf) && Left(s, done, sub) == {}
    decreases |Left(s, acts, sub)|
  {
    done := acts;
    if Left(s, acts, sub) != {} {
      var next := OneRound(s, acts, sub, agency, name, topic, k, timeOf);
      done := DrainEnds(s, next, sub, agency, name, topic, k, timeOf);
    }
  }

  /**
    So where stamps and times agree, from the first Pull on, rounds of any batch size end
    with the whole of the topic past the starting cursor delivered, in order and each once.
   */
  lemma DrainDeliversAll(s: Store, sub: Id, agency: string, name: string, topic: string, k: int, timeOf: Parser)
      returns (acts: seq<Act>)
    requires Inv(s) && SubscribedTo(s, sub, agency, topic) && sub in Matching(s, SubByName(agency, name))
    requires OrdersAgree(PendingFor(s, s.entities[sub]), timeOf)
    ensures Draws(s, acts, sub, agency, name, topic, timeOf)
    ensures IsSorting(Track(acts, sub).delivered,
                      Pending(TopicMessages(After(s, acts), agency, topic), Get(s.entities[sub], Cursor)), timeOf)
  {
    assert Draws(s, [], sub, agency, name, topic, timeOf);
    acts := DrainEnds(s, [], sub, agency, name, topic, k, timeOf);
    LosslessDrain(s, acts, sub, agency, topic, timeOf);
  }
}
