/**
  The message backend: topics, messages, and subscriptions with a delivery cursor, over
  an entity store whose calls may fail. Each method is proved against the acts of
  `BackendSpec`, so every theorem about runs holds of every object reached by calls.
 */
module Backend {
  import opened Wrappers
  import opened Text
  import opened Timestamps
  import opened EntityStore
  import opened PullSpec
  import opened BackendSpec
  import opened Drain

  datatype Message =
    Message(id: string, agency: string, topic: string, payload: string, attributes: string, publishedAt: int)

  function MessageFromEntity(agency: string, e: Entity, timeOf: Parser): Message {
    Message(Get(e, MessageId), agency, Get(e, TopicName), Get(e, Payload), Get(e, Attributes), Time(e, timeOf))
  }

  function Messages(agency: string, es: seq<Entity>, timeOf: Parser): (ms: seq<Message>)
    ensures |ms| == |es| && forall i | 0 <= i < |es| :: ms[i] == MessageFromEntity(agency, es[i], timeOf)
  {
    if es == [] then []
    else Messages(agency, es[..|es| - 1], timeOf) + [MessageFromEntity(agency, es[|es| - 1], timeOf)]
  }

  /** `x` shows the stored message `e`: its own ID, topic, content and time. */
  predicate Shows(x: Message, e: Entity, timeOf: Parser) {
    && KeyIs(e, MessageId, x.id) && KeyIs(e, TopicName, x.topic) && x.agency == e.agency
    && x.payload == (if Payload in e.props then e.props[Payload] else "")
    && x.attributes == (if Attributes in e.props then e.props[Attributes] else "")
    && x.publishedAt == timeOf(Get(e, PublishedAt))
  }

  ghost predicate ShowsAll(ms: seq<Message>, es: seq<Entity>, timeOf: Parser) {
    |ms| == |es| && forall i | 0 <= i < |ms| :: Shows(ms[i], es[i], timeOf)
  }

  /** The IDs a consumer finds in an answer, to acknowledge it by. */
  function AnswerIds(ms: seq<Message>): (ids: seq<string>)
    ensures |ids| == |ms| && forall i | 0 <= i < |ms| :: ids[i] == ms[i].id
  {
    seq(|ms|, i requires 0 <= i < |ms| => ms[i].id)
  }

  lemma ShownIds(ms: seq<Message>, es: seq<Entity>, timeOf: Parser)
    requires ShowsAll(ms, es, timeOf)
    ensures AnswerIds(ms) == MessageIds(es)
  {
    assert forall i | 0 <= i < |ms| :: Shows(ms[i], es[i], timeOf);
  }

  lemma BatchShown(s: Store, a: Act, timeOf: Parser)
    requires Inv(s) && a.Pulled? && Enabled(s, a, timeOf)
    ensures ShowsAll(Messages(a.agency, a.batch, timeOf), a.batch, timeOf)
    ensures var n := |PendingFor(s, s.entities[a.sub])|; |a.batch| == if 0 < a.k < n then a.k else n
  {
    forall i | 0 <= i < |a.batch| ensures Shows(Messages(a.agency, a.batch, timeOf)[i], a.batch[i], timeOf) {
      assert a.batch[i] in Elements(a.batch);
    }
  }

  /** The message `m` holds what was published, under one property each. */
  predicate Stores(m: Entity, agency: string, id: string, topic: string, payload: string, attributes: string, now: Clock) {
    && m.agency == agency && m.kind == MessageKind
    && m.props.Keys == {MessageId, TopicName, Payload, Attributes, PublishedAt}
    && KeyIs(m, MessageId, id) && KeyIs(m, TopicName, topic) && KeyIs(m, Payload, payload)
    && KeyIs(m, Attributes, attributes) && KeyIs(m, PublishedAt, FormatNano(now))
  }

  /**
    Publish then Pull: in every run a pulled message with the ID that a publication returned
    has exactly what was published; and a Pull without a maximum has it exactly when its
    subscription is to that topic and the stamp is past the cursor.
   */
  lemma PublishPullRoundTrip(s: Store, acts: seq<Act>, i: nat, j: nat, ms: seq<Message>, agency: string, id: string,
                             topic: string, payload: string, attributes: string, now: Clock, u: Entity, timeOf: Parser)
    requires Inv(s) && Possible(s, acts, timeOf) && i < j < |acts|
    requires acts[i].Published? && Stores(acts[i].message, agency, id, topic, payload, attributes, now)
    requires acts[j].Pulled? && ShowsAll(ms, acts[j].batch, timeOf)
    requires InStore(After(s, acts[..j]), u) && acts[j].sub == u.id
    ensures forall x | x in ms && x.id == id ::
              x == Message(id, agency, topic, payload, attributes, timeOf(FormatNano(now)))
    ensures acts[j].k <= 0 ==>
              ((exists x | x in ms :: x.id == id) <==>
                 u.agency == agency && Get(u, TopicName) == topic && Passes(Get(u, Cursor), FormatNano(now)))
  {
    var m := acts[i].message;
    forall k | 0 <= k < |ms| && ms[k].id == id ensures acts[j].batch[k] == m {
      assert Shows(ms[k], acts[j].batch[k], timeOf);
      PulledIsPublished(s, acts, i, j, acts[j].batch[k], timeOf);
    }
    forall x | x in ms && x.id == id
      ensures x == Message(id, agency, topic, payload, attributes, timeOf(FormatNano(now))) && m in acts[j].batch
    {
      var k :| 0 <= k < |ms| && ms[k] == x;
      assert Shows(x, m, timeOf);
    }
    if acts[j].k <= 0 {
      PublishedIsPulledIff(s, acts, i, j, u, timeOf);
      if m in acts[j].batch {
        var k :| 0 <= k < |ms| && acts[j].batch[k] == m;
        assert Shows(ms[k], m, timeOf);
      }
    }
  }

  /** `out` is `ms` reordered by `perm`. */
  ghost predicate Permutes(out: seq<Message>, ms: seq<Message>, perm: seq<nat>) {
    && |out| == |ms| == |perm|
    && (forall i | 0 <= i < |perm| :: perm[i] < |ms| && out[i] == ms[perm[i]])
    && (forall i, j | 0 <= i < j < |perm| :: perm[i] != perm[j])
  }

  ghost predicate InTimeOrder(ms: seq<Message>) {
    forall i, j | 0 <= i < j < |ms| :: ms[i].publishedAt <= ms[j].publishedAt
  }

  /** Where `m` goes in `out`: behind everything not later than it. */
  method InsertionPoint(out: seq<Message>, m: Message) returns (at: nat)
    requires InTimeOrder(out)
    ensures at <= |out|
    ensures forall j | 0 <= j < at :: out[j].publishedAt <= m.publishedAt
    ensures forall j | at <= j < |out| :: m.publishedAt < out[j].publishedAt
  {
    at := |out|;
    while at > 0 && m.publishedAt < out[at - 1].publishedAt
      invariant at <= |out|
      invariant forall j | at <= j < |out| :: m.publishedAt < out[j].publishedAt
    {
      at := at - 1;
    }
  }

  /** sort.Slice by PublishedAt.Before: some ordered permutation, ties in any order. */
  method SortMessages(ms: seq<Message>) returns (out: seq<Message>, ghost perm: seq<nat>)
    ensures Permutes(out, ms, perm) && InTimeOrder(out)
  {
    out, perm := [], [];
    for n := 0 to |ms|
      invariant Permutes(out, ms[..n], perm) && InTimeOrder(out)
    {
      var at := InsertionPoint(out, ms[n]);
      InsertPermutes(out, ms, n, perm, at);
      out := out[..at] + [ms[n]] + out[at..];
      perm := perm[..at] + [n] + perm[at..];
    }
    assert ms[..|ms|] == ms;
  }

  lemma InsertPermutes(out: seq<Message>, ms: seq<Message>, n: nat, perm: seq<nat>, at: nat)
    requires n < |ms| && Permutes(out, ms[..n], perm) && at <= |out|
    ensures Permutes(out[..at] + [ms[n]] + out[at..], ms[..n + 1], perm[..at] + [n] + perm[at..])
  {
    var p, o := perm[..at] + [n] + perm[at..], out[..at] + [ms[n]] + out[at..];
    InsertDistinct(perm, n, at);
    forall i | 0 <= i < |p| ensures p[i] < n + 1 && o[i] == ms[..n + 1][p[i]] {
      if i != at {
        var k := if i < at then i else i - 1;
        assert p[i] == perm[k] && o[i] == out[k];
        assert out[k] == ms[..n][perm[k]] == ms[perm[k]];
      }
    }
  }

  lemma InsertDistinct(perm: seq<nat>, n: nat, at: nat)
    requires at <= |perm| && (forall i | 0 <= i < |perm| :: perm[i] < n)
    requires forall i, j | 0 <= i < j < |perm| :: perm[i] != perm[j]
    ensures var p := perm[..at] + [n] + perm[at..];
            forall i, j | 0 <= i < j < |p| :: p[i] != p[j]
  {
  }

  /** Those of `ids` whose lookup, starting with store call `n`, did not fail. */
  function Answered(ids: seq<string>, faults: nat -> bool, n: nat): seq<string> {
    if ids == [] then []
    else
      var init := Answered(ids[..|ids| - 1], faults, n);
      if faults(n + |ids| - 1) then init else init + [ids[|ids| - 1]]
  }

  lemma {:induction false} AllAnswered(ids: seq<string>, faults: nat -> bool, n: nat)
    requires NoFaultsFrom(faults, n)
    ensures Answered(ids, faults, n) == ids
  {
    if ids != [] {
      AllAnswered(ids[..|ids| - 1], faults, n);
    }
  }

  lemma {:induction false} AnsweredCount(ids: seq<string>, faults: nat -> bool, n: nat)
    ensures |Answered(ids, faults, n)| <= |ids|
    ensures |Answered(ids, faults, n)| == |ids| <==> forall k | n <= k < n + |ids| :: !faults(k)
    ensures |Answered(ids, faults, n)| == |ids| ==> Answered(ids, faults, n) == ids
  {
    if ids != [] {
      AnsweredCount(ids[..|ids| - 1], faults, n);
    }
  }

  /**
    Acknowledging the IDs that an answer shows is acknowledging the batch in hand, as every
    theorem about draining asks for, exactly when no lookup of the call fails.
   */
  lemma AnswerAckFits(s: Store, a: Act, c: Consumer, ms: seq<Message>, faults: nat -> bool, n: nat, sub: Id, agency: string,
                      topic: string, start: string, timeOf: Parser)
    requires ShowsAll(ms, c.batch, timeOf)
    requires a.Acknowledged? && a.sub == sub && a.ids == Answered(AnswerIds(ms), faults, n)
    ensures Fits(s, a, c, sub, agency, topic, start, timeOf) <==> forall k | n <= k < n + |ms| :: !faults(k)
  {
    ShownIds(ms, c.batch, timeOf);
    AnsweredCount(AnswerIds(ms), faults, n);
  }

  lemma {:induction false} AnsweredIff(ids: seq<string>, faults: nat -> bool, n: nat, id: string)
    ensures id in Answered(ids, faults, n) <==> exists i: nat :: i < |ids| && ids[i] == id && !faults(n + i)
  {
    if ids != [] {
      var init, last := ids[..|ids| - 1], |ids| - 1;
      AnsweredIff(init, faults, n, id);
      if i: nat :| i < |init| && init[i] == id && !faults(n + i) {
        assert ids[i] == id;
      }
      if i: nat :| i < |ids| && ids[i] == id && !faults(n + i) {
        assert i < last ==> init[i] == id;
      }
      assert ids[last] == id && !faults(n + last) ==> id in Answered(ids, faults, n);
    }
  }

  /**
    When an Acknowledge call for `ids`, whose first ID is looked up by store call `n`, leaves
    a message pending: exactly when it is past the old cursor and past the stamp of every
    message that one of `ids` names and whose lookup did not fail.
   */
  lemma CallLeavesPendingIff(s: Store, a: Act, ids: seq<string>, faults: nat -> bool, n: nat, m: Entity, timeOf: Parser)
    requires Inv(s) && a.Acknowledged? && Enabled(s, a, timeOf) && a.ids == Answered(ids, faults, n)
    requires m.id in s.entities && s.entities[m.id] == m && m.kind == MessageKind && KeyOn(m, s.entities[a.sub])
    ensures var t := Apply(s, a);
            m in PendingFor(t, t.entities[a.sub]) <==>
              Less(Get(s.entities[a.sub], Cursor), Stamp(m)) &&
              forall i: nat, x | i < |ids| && !faults(n + i) && x in s.entities && Named(s.entities[x], a.agency, [ids[i]]) ::
                Less(Stamp(s.entities[x]), Stamp(m))
  {
    AckLeavesPendingIff(s, a, m, timeOf);
    forall x | x in s.entities
      ensures Named(s.entities[x], a.agency, a.ids) <==>
              exists i: nat :: i < |ids| && !faults(n + i) && Named(s.entities[x], a.agency, [ids[i]])
    {
      NamedByAnswered(s.entities[x], a.agency, ids, faults, n);
    }
    if forall x | x in KnownStamps(s, a.agency, a.ids) :: Less(x, Stamp(m)) {
      forall i: nat, x | i < |ids| && !faults(n + i) && x in s.entities && Named(s.entities[x], a.agency, [ids[i]])
        ensures Less(Stamp(s.entities[x]), Stamp(m))
      {
        assert Stamp(s.entities[x]) in KnownStamps(s, a.agency, a.ids);
      }
    }
  }

  lemma NamedByAnswered(e: Entity, agency: string, ids: seq<string>, faults: nat -> bool, n: nat)
    ensures Named(e, agency, Answered(ids, faults, n)) <==>
            exists i: nat :: i < |ids| && !faults(n + i) && Named(e, agency, [ids[i]])
  {
    if e.agency == agency && e.kind == MessageKind && MessageId in e.props {
      var id := e.props[MessageId];
      AnsweredIff(ids, faults, n, id);
      if i: nat :| i < |ids| && ids[i] == id && !faults(n + i) {
        assert Named(e, agency, [ids[i]]);
      }
      if i: nat :| i < |ids| && !faults(n + i) && Named(e, agency, [ids[i]]) {
        assert ids[i] == id;
      }
    }
  }

  /**
    The failing input: Acknowledge for one pending message whose lookup fails. The call can
    succeed, the message is still pending, and the next Pull can return it.
   */
  lemma FailedLookupRedelivers(s: Store, a: Act, faults: nat -> bool, n: nat, m: Entity, k: int, timeOf: Parser)
      returns (pull: Act)
    requires Inv(s) && a.Acknowledged? && Enabled(s, a, timeOf) && faults(n)
    requires a.ids == Answered([Get(m, MessageId)], faults, n) && m in PendingFor(s, s.entities[a.sub]) && k <= 0
    ensures a.ids == [] && m in PendingFor(Apply(s, a), Apply(s, a).entities[a.sub])
    ensures pull.Pulled? && pull.sub == a.sub && pull.k == k && Enabled(Apply(s, a), pull, timeOf) && m in pull.batch
  {
    var t := Apply(s, a);
    assert [Get(m, MessageId)][..0] == [] && a.ids == [];
    CallLeavesPendingIff(s, a, [Get(m, MessageId)], faults, n, m, timeOf);
    assert Less("", Stamp(m));
    var due := PendingFor(t, t.entities[a.sub]);
    var ms := Sortable(due, timeOf);
    CutIsBatch(ms, due, k, timeOf);
    assert ms[..CutAt(|ms|, k)] == ms && m in Elements(ms);
    pull := Pulled(a.agency, a.name, a.sub, k, ms);
  }

  /** One more acknowledged ID raises the join by the stamp it names, if any. */
  lemma JoinOneMore(s: Store, agency: string, ids: seq<string>, id: string, c0: string, c1: string, es: seq<Entity>)
    requires Inv(s) && IsJoin(c1, c0, KnownStamps(s, agency, ids))
    requires IsListing(es, s, MessageById(agency, id))
    ensures IsJoin(if es != [] && Less(c1, Stamp(es[0])) then Stamp(es[0]) else c1, c0, KnownStamps(s, agency, ids + [id]))
  {
    var found := if es == [] then {} else {Stamp(es[0])};
    var c2 := if es != [] && Less(c1, Stamp(es[0])) then Stamp(es[0]) else c1;
    LookupStamps(s, agency, id, es);
    KnownUnion(s, agency, ids, [id], ids + [id]);
    LessIrreflexive(c2);
    if es != [] {
      LessTotal(c1, Stamp(es[0]));
    }
    JoinCompose(c0, c1, c2, KnownStamps(s, agency, ids), found);
  }

  lemma LookupStamps(s: Store, agency: string, id: string, es: seq<Entity>)
    requires Inv(s) && IsListing(es, s, MessageById(agency, id))
    ensures KnownStamps(s, agency, [id]) == if es == [] then {} else {Stamp(es[0])}
  {
    assert forall x | x in s.entities && Named(s.entities[x], agency, [id]) :: x in Ids(es);
    if es != [] {
      assert es[0].id in Ids(es);
      assert Named(s.entities[es[0].id], agency, [id]);
    }
  }

  lemma RemoveBoth(s: Store, a: set<Id>, b: set<Id>)
    ensures RemoveAll(RemoveAll(s, a), b) == RemoveAll(s, a + b)
  {
  }

  lemma SubsOutliveTopic(s: Store, agency: string, name: string)
    ensures Matching(RemoveAll(s, Matching(s, TopicByName(agency, name))), SubsOnTopic(agency, name)) ==
            Matching(s, SubsOnTopic(agency, name))
  {
  }

  lemma RemoveMore(s: Store, gone: set<Id>, id: Id)
    ensures RemoveAll(RemoveAll(s, gone), {id}) == RemoveAll(s, gone + {id})
  {
  }

  lemma IdsTake(es: seq<Entity>, n: nat)
    requires n < |es| && DistinctIds(es)
    ensures Ids(es[..n + 1]) == Ids(es[..n]) + {es[n].id} && es[n].id !in Ids(es[..n])
  {
    assert es[..n + 1] == es[..n] + [es[n]];
    IdsAppend(es[..n], es[n]);
  }

  function MessageProps(id: string, topic: string, payload: string, attributes: string, now: Clock): Props {
    map[MessageId := id, TopicName := topic, Payload := payload, Attributes := attributes, PublishedAt := FormatNano(now)]
  }

  function TopicProps(name: string, description: string, now: Clock): Props {
    map[Name := name, Description := description, CreatedAt := FormatSeconds(now)]
  }

  function SubscriptionProps(name: string, topic: string, now: Clock): Props {
    map[Name := name, TopicName := topic, Cursor := "", CreatedAt := FormatSeconds(now)]
  }

  lemma MessageStores(m: Entity, agency: string, id: string, topic: string, payload: string, attributes: string, now: Reading)
    requires m == Entity(m.id, agency, MessageKind, MessageProps(id, topic, payload, attributes, now))
    ensures Stores(m, agency, id, topic, payload, attributes, now) && Stamp(m) != ""
    ensures NanoStamped(m) && ReadingOf(m) == now
  {
    assert FormatNano(now)[|FormatNano(now)| - 1] == 'Z';
    ReadingIs(m, now);
  }

  /** The subscription `u` is of that name to that topic, with nothing acknowledged yet. */
  predicate Subscribes(u: Entity, agency: string, topic: string, name: string, now: Clock) {
    && u.agency == agency && u.kind == SubscriptionKind && u.props.Keys == {Name, TopicName, Cursor, CreatedAt}
    && KeyIs(u, Name, name) && KeyIs(u, TopicName, topic) && KeyIs(u, Cursor, "") && KeyIs(u, CreatedAt, FormatSeconds(now))
  }

  lemma SubscriptionStored(u: Entity, agency: string, topic: string, name: string, now: Clock)
    requires u == Entity(u.id, agency, SubscriptionKind, SubscriptionProps(name, topic, now))
    ensures Subscribes(u, agency, topic, name, now)
  {
  }

  predicate Describes(t: Entity, agency: string, name: string, description: string, now: Clock) {
    && t.agency == agency && t.kind == TopicKind && t.props.Keys == {Name, Description, CreatedAt}
    && KeyIs(t, Name, name) && KeyIs(t, Description, description) && KeyIs(t, CreatedAt, FormatSeconds(now))
  }

  lemma TopicStored(t: Entity, agency: string, name: string, description: string, now: Clock)
    requires t == Entity(t.id, agency, TopicKind, TopicProps(name, description, now))
    ensures Describes(t, agency, name, description, now) && Get(t, Name) == name
  {
  }

  lemma KeepNext(all: seq<Entity>, i: nat, kept: seq<Entity>, cursor: string)
    requires i < |all| && DistinctIds(all)
    requires Distinct(kept) && Elements(kept) == Pending(Elements(all[..i]), cursor)
    ensures var next := if Passes(cursor, Stamp(all[i])) then kept + [all[i]] else kept;
            Distinct(next) && Elements(next) == Pending(Elements(all[..i + 1]), cursor)
  {
    var e := all[i];
    assert all[..i + 1] == all[..i] + [e];
    assert Elements(all[..i + 1]) == Elements(all[..i]) + {e};
    assert e !in Elements(all[..i]);
    assert forall j | 0 <= j < |kept| :: kept[j] in Elements(kept);
    assert Elements(kept + [e]) == Elements(kept) + {e};
  }

  lemma ListedMessages(s: Store, agency: string, topic: string, all: seq<Entity>)
    requires IsListing(all, s, MessagesOn(agency, topic))
    ensures Elements(all) == TopicMessages(s, agency, topic)
  {
    forall e | e in TopicMessages(s, agency, topic) ensures e in all {
      var id :| id in Matching(s, MessagesOn(agency, topic)) && s.entities[id] == e;
      assert id in Ids(all);
      var i :| 0 <= i < |all| && all[i].id == id;
    }
    forall e | e in all ensures e in TopicMessages(s, agency, topic) {
      var i :| 0 <= i < |all| && all[i] == e;
      assert e.id in Ids(all);
    }
  }

  /** The sorted messages are the messages of a sorting of the kept entities. */
  lemma SortedAlike(out: seq<Message>, kept: seq<Entity>, perm: seq<nat>, sorted: seq<Entity>,
                    agency: string, timeOf: Parser)
    requires Distinct(kept)
    requires Permutes(out, Messages(agency, kept, timeOf), perm) && InTimeOrder(out)
    requires |sorted| == |perm| && forall i | 0 <= i < |perm| :: sorted[i] == kept[perm[i]]
    ensures IsSorting(sorted, Elements(kept), timeOf)
    ensures |out| == |sorted| && forall i | 0 <= i < |out| :: out[i] == MessageFromEntity(agency, sorted[i], timeOf)
  {
    assert Distinct(sorted);
    forall i | 0 <= i < |sorted| ensures sorted[i] in Elements(kept) {
      assert kept[perm[i]] in Elements(kept);
    }
    assert Elements(sorted) <= Elements(kept);
    DistinctCount(sorted);
    DistinctCount(kept);
    SameSize(Elements(sorted), Elements(kept));
  }

  lemma SameSize(a: set<Entity>, b: set<Entity>)
    requires a <= b && |a| == |b|
    ensures a == b
  {
    assert b == a + (b - a);
    assert |b - a| == 0;
  }

  lemma MessagesMore(agency: string, es: seq<Entity>, e: Entity, timeOf: Parser)
    ensures Messages(agency, es + [e], timeOf) == Messages(agency, es, timeOf) + [MessageFromEntity(agency, e, timeOf)]
  {
    assert (es + [e])[..|es|] == es;
  }

  /** The filter of Pull: the messages of the listed entities that pass the cursor. */
  method KeepPending(agency: string, all: seq<Entity>, cursor: string, timeOf: Parser)
      returns (pending: seq<Message>, ghost kept: seq<Entity>)
    requires DistinctIds(all)
    ensures Distinct(kept) && Elements(kept) == Pending(Elements(all), cursor)
    ensures pending == Messages(agency, kept, timeOf)
  {
    pending, kept := [], [];
    for i := 0 to |all|
      invariant Distinct(kept) && Elements(kept) == Pending(Elements(all[..i]), cursor)
      invariant pending == Messages(agency, kept, timeOf)
    {
      KeepNext(all, i, kept, cursor);
      if cursor == "" || Less(cursor, Get(all[i], PublishedAt)) {
        MessagesMore(agency, kept, all[i], timeOf);
        pending := pending + [MessageFromEntity(agency, all[i], timeOf)];
        kept := kept + [all[i]];
      }
    }
    assert all[..|all|] == all;
  }

  /**
    The filter, sort and cut of Pull: from any listing, the messages of a batch of those
    that pass the cursor.
   */
  method SelectBatch(agency: string, all: seq<Entity>, cursor: string, maxMessages: int, timeOf: Parser)
      returns (pending: seq<Message>)
    requires DistinctIds(all)
    ensures exists batch :: IsBatch(batch, Pending(Elements(all), cursor), maxMessages, timeOf) &&
                            pending == Messages(agency, batch, timeOf)
  {
    ghost var kept, perm;
    pending, kept := KeepPending(agency, all, cursor, timeOf);
    pending, perm := SortMessages(pending);
    ghost var sorted := seq(|perm|, i requires 0 <= i < |perm| && perm[i] < |kept| => kept[perm[i]]);
    SortedAlike(pending, kept, perm, sorted, agency, timeOf);
    CutIsBatch(sorted, Elements(kept), maxMessages, timeOf);
    ghost var batch := sorted[..CutAt(|sorted|, maxMessages)];
    if maxMessages > 0 && |pending| > maxMessages {
      pending := pending[..maxMessages];
    }
    assert pending == Messages(agency, batch, timeOf);
  }

  /** The cursor loop of Acknowledge: lookups that fail or find nothing are skipped. */
  method RaiseCursor(dm: DataManager, agency: string, start: string, messageIds: seq<string>)
      returns (cursor: string, ghost answered: seq<string>)
    requires dm.Valid() && Inv(dm.store)
    modifies dm`calls
    ensures dm.calls == old(dm.calls) + |messageIds|
    ensures answered == Answered(messageIds, dm.faults, old(dm.calls))
    ensures IsJoin(cursor, start, KnownStamps(dm.store, agency, answered))
  {
    cursor, answered := start, [];
    LessIrreflexive(cursor);
    for i := 0 to |messageIds|
      invariant dm.calls == old(dm.calls) + i
      invariant answered == Answered(messageIds[..i], dm.faults, old(dm.calls))
      invariant IsJoin(cursor, start, KnownStamps(dm.store, agency, answered))
    {
      assert messageIds[..i + 1][..i] == messageIds[..i];
      var msgs := dm.ListEntities(MessageById(agency, messageIds[i]));
      if msgs.Success? {
        JoinOneMore(dm.store, agency, answered, messageIds[i], start, cursor, msgs.value);
        answered := answered + [messageIds[i]];
      }
      if msgs.Failure? || |msgs.value| == 0 {
        continue;
      }
      var pa := Get(msgs.value[0], PublishedAt);
      if Less(cursor, pa) {
        cursor := pa;
      }
    }
    assert messageIds[..|messageIds|] == messageIds;
  }

  /** From store `s` all of `all` was removed and some of `some`, and nothing else happened. */
  ghost predicate RemovesUpTo(s: Store, t: Store, all: set<Id>, some: set<Id>) {
    exists gone :: all <= gone <= all + some && t == RemoveAll(s, gone)
  }

  /** None of the `k` store calls from `n` on fails. */
  ghost predicate NoneFails(faults: nat -> bool, n: nat, k: nat) {
    forall i | n <= i < n + k :: !faults(i)
  }

  /**
    The outcome of a call that looks up `all`, deletes them in order and then, best effort, `more`, with store calls
    from `n` on: it fails exactly when there are none or one of the calls for `all` does, and
    then nothing else is gone; without faults all of both are.
   */
  ghost predicate Deletes(s: Store, t: Store, r: Result<()>, missing: Error, all: set<Id>, more: set<Id>,
                          faults: nat -> bool, n: nat) {
    && (r.Success? <==> all != {} && NoneFails(faults, n, 1 + |all|))
    && (r == Failure(missing) <==> all == {} && !faults(n))
    && (if r.Success? then RemovesUpTo(s, t, all, more) else RemovesUpTo(s, t, {}, if faults(n) then {} else all))
    && (r.Success? && NoFaultsFrom(faults, n) ==> t == RemoveAll(s, all + more))
  }

  lemma DeletesNone(s: Store, missing: Error, all: set<Id>, more: set<Id>, faults: nat -> bool, n: nat)
    requires missing != StoreFault && (faults(n) || all == {})
    ensures Deletes(s, s, Failure(if faults(n) then StoreFault else missing), missing, all, more, faults, n)
  {
    assert RemoveAll(s, {}) == s;
  }

  lemma DeletesPart(s: Store, missing: Error, all: set<Id>, more: set<Id>, gone: set<Id>, faults: nat -> bool, n: nat)
    requires missing != StoreFault && all != {} && gone <= all && !faults(n) && !NoneFails(faults, n + 1, |all|)
    ensures Deletes(s, RemoveAll(s, gone), Failure(StoreFault), missing, all, more, faults, n)
  {
  }

  lemma DeletesAll(s: Store, missing: Error, all: set<Id>, more: set<Id>, gone: set<Id>, faults: nat -> bool, n: nat)
    requires all != {} && gone <= more && !faults(n) && NoneFails(faults, n + 1, |all|)
    requires NoFaultsFrom(faults, n) ==> gone == more
    ensures Deletes(s, RemoveAll(s, all + gone), Success(()), missing, all, more, faults, n)
  {
  }

  /** Deletes the listed entities in order, up to the first that cannot be deleted. */
  method DeleteUntilFailure(dm: DataManager, agency: string, es: seq<Entity>) returns (r: Result<()>, ghost gone: set<Id>)
    requires dm.Valid() && DistinctIds(es) && StoredIn(es, dm.store)
    requires forall i | 0 <= i < |es| :: es[i].agency == agency
    modifies dm
    ensures dm.Valid()
    ensures gone <= Ids(es) && dm.store == RemoveAll(old(dm.store), gone)
    ensures r.Success? <==> NoneFails(dm.faults, old(dm.calls), |es|)
    ensures r.Success? ==> gone == Ids(es) && dm.calls == old(dm.calls) + |es|
    ensures r.Failure? ==> r.error == StoreFault
  {
    gone := {};
    for i := 0 to |es|
      invariant dm.Valid() && dm.calls == old(dm.calls) + i && NoneFails(dm.faults, old(dm.calls), i)
      invariant gone == Ids(es[..i]) && dm.store == RemoveAll(old(dm.store), gone)
    {
      IdsTake(es, i);
      var deleted := dm.DeleteEntity(agency, es[i].id);
      if deleted.Failure? {
        IdsSub(es, i);
        return Failure(deleted.error), gone;
      }
      RemoveMore(old(dm.store), gone, es[i].id);
      gone := gone + {es[i].id};
    }
    assert es[..|es|] == es;
    return Success(()), gone;
  }

  /** Deletes whatever of the listed entities can be deleted, ignoring failures. */
  method DeleteBestEffort(dm: DataManager, agency: string, es: seq<Entity>) returns (ghost gone: set<Id>)
    requires dm.Valid() && DistinctIds(es) && StoredIn(es, dm.store)
    requires forall i | 0 <= i < |es| :: es[i].agency == agency
    modifies dm
    ensures dm.Valid() && gone <= Ids(es) && dm.store == RemoveAll(old(dm.store), gone)
    ensures NoFaultsFrom(dm.faults, old(dm.calls)) ==> gone == Ids(es)
  {
    gone := {};
    ghost var quiet := NoFaultsFrom(dm.faults, dm.calls);
    for i := 0 to |es|
      invariant dm.Valid() && dm.calls >= old(dm.calls)
      invariant gone <= Ids(es[..i]) && dm.store == RemoveAll(old(dm.store), gone)
      invariant quiet ==> gone == Ids(es[..i])
    {
      IdsTake(es, i);
      var deleted := dm.DeleteEntity(agency, es[i].id);
      if deleted.Success? {
        RemoveMore(old(dm.store), gone, es[i].id);
        gone := gone + {es[i].id};
      }
    }
    assert es[..|es|] == es;
  }

  lemma IdsSub(es: seq<Entity>, n: nat)
    requires n <= |es|
    ensures Ids(es[..n]) <= Ids(es)
  {
    forall id | id in Ids(es[..n]) ensures id in Ids(es) {
      var i :| 0 <= i < n && es[..n][i].id == id;
      assert es[i].id == id;
    }
  }

  lemma ListingAgency(es: seq<Entity>, s: Store, f: Filter)
    requires IsListing(es, s, f)
    ensures forall i | 0 <= i < |es| :: es[i].agency == f.agency
    ensures |es| == |Matching(s, f)|
  {
    assert forall i | 0 <= i < |es| :: es[i].id in Ids(es);
    IdCount(es);
  }

  class Backend {
    const dm: DataManager
    const timeOf: Parser
    ghost const origin: Store        // the store this object was built over
    ghost var acts: seq<Act>         // what its calls did since

    ghost predicate Valid()
      reads this, dm
    {
      dm.Valid() && Inv(origin) && Possible(origin, acts, timeOf) && After(origin, acts) == dm.store && NanoActs(acts)
    }

    constructor (dm: DataManager, timeOf: Parser)
      requires dm.Valid() && Inv(dm.store)
      ensures Valid() && this.dm == dm && this.timeOf == timeOf && acts == [] && origin == dm.store
    {
      this.dm, this.timeOf := dm, timeOf;
      origin, acts := dm.store, [];
    }

    /** Every reachable store is well formed. */
    lemma Reachable()
      requires Valid()
      ensures Inv(dm.store)
    {
      InvRun(origin, acts, timeOf);
    }

    /** What was published through the object carries readings: of `Readings` only the parser is left to assume. */
    lemma Readable(u: Entity)
      requires Valid() && NanoStore(origin)
      ensures StampedFrom(PendingFor(dm.store, u), ReadingOf)
    {
      PublishedReadings(origin, acts, u, timeOf);
    }

    /**
      So for every subscription of a reached store: no round skips a message, if and only if no
      two pending readings are equal or misordered.
     */
    lemma LosslessIff(u: Entity)
      requires Valid() && NanoStore(origin) && ReadBack(PendingFor(dm.store, u), ReadingOf, timeOf)
      ensures var due := PendingFor(dm.store, u);
              (forall k: int, batch | IsBatch(batch, due, k, timeOf) :: KeepsRest(batch, due, Get(u, Cursor))) <==>
              forall a, b | a in due && b in due && a != b ::
                ReadingOf(a) != ReadingOf(b) && !Misordered(ReadingOf(a), ReadingOf(b))
    {
      Readable(u);
      LosslessIffClocksOrdered(PendingFor(dm.store, u), Get(u, Cursor), ReadingOf, timeOf);
    }

    ghost method Record(a: Act)
      requires dm.Valid() && Inv(origin) && Possible(origin, acts, timeOf) && NanoActs(acts)
      requires a.Published? ==> NanoStamped(a.message)
      requires Enabled(After(origin, acts), a, timeOf) && dm.store == Apply(After(origin, acts), a)
      modifies this`acts
      ensures Valid() && acts == old(acts) + [a]
    {
      RunMore(origin, acts, a, timeOf);
      acts := acts + [a];
    }

    method CreateTopic(agency: string, name: string, description: string, now: Reading) returns (r: Result<Entity>)
      requires Valid()
      modifies this`acts, dm
      ensures Valid()
      ensures r.Success? <==> !dm.faults(old(dm.calls)) && !dm.faults(old(dm.calls) + 1) &&
                              With(old(dm.store), agency, TopicKind, Name, name) == {}
      ensures r.Success? ==> acts == old(acts) + [CreatedTopic(r.value)] && InStore(dm.store, r.value) &&
                             Describes(r.value, agency, name, description, now)
      ensures r.Failure? ==> acts == old(acts) && dm.store == old(dm.store)
      ensures r == Failure(TopicAlreadyExists) <==>
              !dm.faults(old(dm.calls)) && With(old(dm.store), agency, TopicKind, Name, name) != {}
    {
      TopicFilter(dm.store, agency, name);
      var listed := dm.ListEntities(TopicByName(agency, name));
      assert Valid();
      if listed.Failure? {
        return Failure(StoreFault);
      }
      if |listed.value| > 0 {
        assert listed.value[0].id in Ids(listed.value);
        return Failure(TopicAlreadyExists);
      }
      var created := dm.CreateEntity(agency, TopicKind, TopicProps(name, description, now));
      if created.Failure? {
        return Failure(StoreFault);
      }
      TopicStored(created.value, agency, name, description, now);
      Record(CreatedTopic(created.value));
      return Success(created.value);
    }

    method Publish(agency: string, topic: string, payload: string, attributes: string, now: Reading)
        returns (r: Result<string>)
      requires Valid()
      modifies this`acts, dm
      ensures Valid()
      ensures r.Success? <==> !dm.faults(old(dm.calls))
      ensures r.Success? ==>
                FreshMessageId(old(dm.store), r.value) && |acts| == |old(acts)| + 1 && acts[..|old(acts)|] == old(acts) &&
                var a := acts[|old(acts)|];
                a.Published? && InStore(dm.store, a.message) &&
                Stores(a.message, agency, r.value, topic, payload, attributes, now) &&
                NanoStamped(a.message) && ReadingOf(a.message) == now
      ensures r.Failure? ==> acts == old(acts) && dm.store == old(dm.store)
    {
      var used := set id | id in dm.store.entities :: Get(dm.store.entities[id], MessageId);
      var messageId := NewId(used);
      var created := dm.CreateEntity(agency, MessageKind, MessageProps(messageId, topic, payload, attributes, now));
      if created.Failure? {
        return Failure(StoreFault);
      }
      MessageStores(created.value, agency, messageId, topic, payload, attributes, now);
      Record(Published(created.value));
      return Success(messageId);
    }

    method CreateSubscription(agency: string, topic: string, name: string, now: Reading) returns (r: Result<Entity>)
      requires Valid()
      modifies this`acts, dm
      ensures Valid()
      ensures r.Success? <==> !dm.faults(old(dm.calls)) && !dm.faults(old(dm.calls) + 1) &&
                              With(old(dm.store), agency, SubscriptionKind, Name, name) == {}
      ensures r.Success? ==> acts == old(acts) + [CreatedSubscription(r.value)] && InStore(dm.store, r.value) &&
                             Subscribes(r.value, agency, topic, name, now) &&
                             SubscribedTo(dm.store, r.value.id, agency, topic) &&
                             PendingFor(dm.store, r.value) == AllOn(dm.store, agency, topic)
      ensures r.Failure? ==> acts == old(acts) && dm.store == old(dm.store)
      ensures r == Failure(SubscriptionAlreadyExists) <==>
              !dm.faults(old(dm.calls)) && With(old(dm.store), agency, SubscriptionKind, Name, name) != {}
    {
      SubFilter(dm.store, agency, name);
      var listed := dm.ListEntities(SubByName(agency, name));
      assert Valid();
      if listed.Failure? {
        return Failure(StoreFault);
      }
      if |listed.value| > 0 {
        assert listed.value[0].id in Ids(listed.value);
        return Failure(SubscriptionAlreadyExists);
      }
      var created := dm.CreateEntity(agency, SubscriptionKind, SubscriptionProps(name, topic, now));
      if created.Failure? {
        return Failure(StoreFault);
      }
      SubscriptionStored(created.value, agency, topic, name, now);
      AllPending(dm.store, created.value);
      Record(CreatedSubscription(created.value));
      return Success(created.value);
    }

    /** Deletes the topic and, best effort, its subscriptions; a fault can leave a part behind. */
    method DeleteTopic(agency: string, name: string) returns (r: Result<()>)
      requires Valid()
      modifies this`acts, dm
      ensures Valid()
      ensures acts == old(acts) || exists gone :: acts == old(acts) + [DeletedTopic(agency, name, gone)]
      ensures Deletes(old(dm.store), dm.store, r, TopicNotFound, With(old(dm.store), agency, TopicKind, Name, name),
                      With(old(dm.store), agency, SubscriptionKind, TopicName, name), dm.faults, old(dm.calls))
    {
      ghost var s, n := dm.store, dm.calls;
      ghost var topics, subs := Matching(s, TopicByName(agency, name)), Matching(s, SubsOnTopic(agency, name));
      TopicFilter(s, agency, name);
      OnTopicFilter(s, agency, name);
      var listed := dm.ListEntities(TopicByName(agency, name));
      assert Valid();
      if listed.Failure? {
        DeletesNone(s, TopicNotFound, topics, subs, dm.faults, n);
        return Failure(StoreFault);
      }
      ListingAgency(listed.value, s, TopicByName(agency, name));
      if |listed.value| == 0 {
        DeletesNone(s, TopicNotFound, topics, subs, dm.faults, n);
        return Failure(TopicNotFound);
      }
      r := DeleteListed(agency, name, listed.value, s, n);
    }

    /** The rest of DeleteTopic, for the topics it found. */
    method DeleteListed(agency: string, name: string, listed: seq<Entity>, ghost s: Store, ghost n: nat)
        returns (r: Result<()>)
      requires Valid() && dm.store == s && dm.calls == n + 1 && !dm.faults(n)
      requires IsListing(listed, s, TopicByName(agency, name)) && listed != []
      modifies this`acts, dm
      ensures Valid()
      ensures exists gone :: acts == old(acts) + [DeletedTopic(agency, name, gone)]
      ensures Deletes(s, dm.store, r, TopicNotFound, Matching(s, TopicByName(agency, name)),
                      Matching(s, SubsOnTopic(agency, name)), dm.faults, n)
    {
      ghost var topics, subs := Matching(s, TopicByName(agency, name)), Matching(s, SubsOnTopic(agency, name));
      ListingAgency(listed, s, TopicByName(agency, name));
      ghost var gone;
      r, gone := DeleteUntilFailure(dm, agency, listed);
      if r.Failure? {
        DeletesPart(s, TopicNotFound, topics, subs, gone, dm.faults, n);
        Record(DeletedTopic(agency, name, gone));
        return;
      }
      SubsOutliveTopic(s, agency, name);
      ghost var more := Cascade(agency, name);
      RemoveBoth(s, gone, more);
      DeletesAll(s, TopicNotFound, topics, subs, more, dm.faults, n);
      Record(DeletedTopic(agency, name, gone + more));
      return Success(());
    }

    /** The cascade of DeleteTopic: the topic's subscriptions, best effort. */
    method Cascade(agency: string, name: string) returns (ghost more: set<Id>)
      requires dm.Valid()
      modifies dm
      ensures dm.Valid() && dm.store == RemoveAll(old(dm.store), more)
      ensures more <= Matching(old(dm.store), SubsOnTopic(agency, name))
      ensures NoFaultsFrom(dm.faults, old(dm.calls)) ==> more == Matching(old(dm.store), SubsOnTopic(agency, name))
    {
      more := {};
      var subs := dm.ListEntities(SubsOnTopic(agency, name));
      if subs.Success? {
        ListingAgency(subs.value, dm.store, SubsOnTopic(agency, name));
        more := DeleteBestEffort(dm, agency, subs.value);
      }
    }

    method DeleteSubscription(agency: string, name: string) returns (r: Result<()>)
      requires Valid()
      modifies this`acts, dm
      ensures Valid()
      ensures acts == old(acts) || exists gone :: acts == old(acts) + [DeletedSubscription(agency, name, gone)]
      ensures Deletes(old(dm.store), dm.store, r, SubscriptionNotFound,
                      With(old(dm.store), agency, SubscriptionKind, Name, name), {}, dm.faults, old(dm.calls))
    {
      ghost var s, n := dm.store, dm.calls;
      ghost var subs := Matching(s, SubByName(agency, name));
      SubFilter(s, agency, name);
      var listed := dm.ListEntities(SubByName(agency, name));
      assert Valid();
      if listed.Failure? {
        DeletesNone(s, SubscriptionNotFound, subs, {}, dm.faults, n);
        return Failure(StoreFault);
      }
      ListingAgency(listed.value, s, SubByName(agency, name));
      if |listed.value| == 0 {
        DeletesNone(s, SubscriptionNotFound, subs, {}, dm.faults, n);
        return Failure(SubscriptionNotFound);
      }
      ghost var gone;
      r, gone := DeleteUntilFailure(dm, agency, listed.value);
      if r.Failure? {
        DeletesPart(s, SubscriptionNotFound, subs, {}, gone, dm.faults, n);
      } else {
        DeletesAll(s, SubscriptionNotFound, subs, {}, {}, dm.faults, n);
        assert subs + {} == subs;
      }
      Record(DeletedSubscription(agency, name, gone));
    }

    /**
      A successful Pull returns a batch as `IsBatch` defines it from exactly the messages
      past the cursor, and changes nothing.
     */
    method Pull(agency: string, name: string, maxMessages: int) returns (r: Result<seq<Message>>)
      requires Valid()
      modifies this`acts, dm`calls
      ensures Valid()
      ensures r.Success? <==> !dm.faults(old(dm.calls)) && !dm.faults(old(dm.calls) + 1) &&
                              With(dm.store, agency, SubscriptionKind, Name, name) != {}
      ensures r.Success? ==>
                |acts| == |old(acts)| + 1 && acts[..|old(acts)|] == old(acts) &&
                var a := acts[|old(acts)|];
                a.Pulled? && a.agency == agency && a.name == name && a.k == maxMessages &&
                a.sub in With(dm.store, agency, SubscriptionKind, Name, name) &&
                Enabled(dm.store, a, timeOf) &&
                ShowsAll(r.value, a.batch, timeOf) && AnswerIds(r.value) == MessageIds(a.batch) &&
                var n := |PendingFor(dm.store, dm.store.entities[a.sub])|;
                |r.value| == if 0 < maxMessages < n then maxMessages else n
      ensures r.Failure? ==> acts == old(acts)
      ensures r == Failure(SubscriptionNotFound) <==>
              dm.faults(old(dm.calls)) || With(dm.store, agency, SubscriptionKind, Name, name) == {}
    {
      SubFilter(dm.store, agency, name);
      assert Inv(dm.store) by { Reachable(); }
      var subs := dm.ListEntities(SubByName(agency, name));
      assert Valid();
      if subs.Failure? {
        return Failure(SubscriptionNotFound);
      }
      ListingAgency(subs.value, dm.store, SubByName(agency, name));
      if |subs.value| == 0 {
        return Failure(SubscriptionNotFound);
      }
      var sub := subs.value[0];
      assert sub.id in Ids(subs.value);
      var cursor := Get(sub, Cursor);
      var all := dm.ListEntities(MessagesOn(agency, Get(sub, TopicName)));
      if all.Failure? {
        return Failure(StoreFault);
      }
      ListedMessages(dm.store, agency, Get(sub, TopicName), all.value);
      var pending := SelectBatch(agency, all.value, cursor, maxMessages, timeOf);
      ghost var batch :| IsBatch(batch, Pending(Elements(all.value), cursor), maxMessages, timeOf) &&
                         pending == Messages(agency, batch, timeOf);
      ghost var a := Pulled(agency, name, sub.id, maxMessages, batch);
      BatchShown(dm.store, a, timeOf);
      ShownIds(pending, batch, timeOf);
      Record(a);
      return Success(pending);
    }

    /**
      Raises the cursor to the string maximum of itself and the stamps of those given IDs
      that name messages of the agency and whose lookup did not fail.
     */
    method Acknowledge(agency: string, name: string, messageIds: seq<string>) returns (r: Result<()>)
      requires Valid()
      modifies this`acts, dm
      ensures Valid()
      ensures r.Success? <==> !dm.faults(old(dm.calls)) && !dm.faults(old(dm.calls) + 1 + |messageIds|) &&
                              With(old(dm.store), agency, SubscriptionKind, Name, name) != {}
      ensures r.Success? ==>
                |acts| == |old(acts)| + 1 && acts[..|old(acts)|] == old(acts) &&
                var a := acts[|old(acts)|];
                a.Acknowledged? && a.agency == agency && a.name == name &&
                a.sub in With(old(dm.store), agency, SubscriptionKind, Name, name) &&
                a.ids == Answered(messageIds, dm.faults, old(dm.calls) + 1) &&
                Enabled(old(dm.store), a, timeOf) && dm.store == Apply(old(dm.store), a)
      ensures r.Failure? ==> acts == old(acts) && dm.store == old(dm.store)
      ensures r == Failure(SubscriptionNotFound) <==>
              dm.faults(old(dm.calls)) || With(old(dm.store), agency, SubscriptionKind, Name, name) == {}
    {
      SubFilter(dm.store, agency, name);
      assert Inv(dm.store) by { Reachable(); }
      var subs := dm.ListEntities(SubByName(agency, name));
      assert Valid();
      if subs.Failure? {
        return Failure(SubscriptionNotFound);
      }
      ListingAgency(subs.value, dm.store, SubByName(agency, name));
      if |subs.value| == 0 {
        return Failure(SubscriptionNotFound);
      }
      var sub := subs.value[0];
      assert sub.id in Ids(subs.value);
      r := MoveCursor(agency, name, sub, messageIds);
    }

    /** The second half of Acknowledge, for the subscription the first half found. */
    method MoveCursor(agency: string, name: string, sub: Entity, messageIds: seq<string>) returns (r: Result<()>)
      requires Valid() && Inv(dm.store)
      requires sub.id in Matching(dm.store, SubByName(agency, name)) && dm.store.entities[sub.id] == sub
      modifies this`acts, dm
      ensures Valid()
      ensures r.Success? <==> !dm.faults(old(dm.calls) + |messageIds|)
      ensures r.Success? ==>
                |acts| == |old(acts)| + 1 && acts[..|old(acts)|] == old(acts) &&
                var a := acts[|old(acts)|];
                a.Acknowledged? && a.agency == agency && a.name == name && a.sub == sub.id &&
                a.ids == Answered(messageIds, dm.faults, old(dm.calls)) &&
                Enabled(old(dm.store), a, timeOf) && dm.store == Apply(old(dm.store), a)
      ensures r.Failure? ==> r.error == StoreFault && acts == old(acts) && dm.store == old(dm.store)
    {
      var cursor, answered := RaiseCursor(dm, agency, Get(sub, Cursor), messageIds);
      var updated := dm.UpdateEntity(agency, sub.id, map[Cursor := cursor]);
      if updated.Failure? {
        return Failure(updated.error);
      }
      Record(Acknowledged(agency, name, sub.id, answered, cursor));
      return Success(());
    }
  }
}
