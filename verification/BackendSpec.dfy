/**
  Runs of the message backend. An `Act` records what one call did to the store and what
  it returned; a call that failed without effect leaves no act. Acts carry every choice
  the code leaves open (fresh IDs, listing order, tie-breaking, which calls failed), so
  a run is a starting store and a sequence of acts.
 */
module BackendSpec {
  import opened Text
  import opened EntityStore
  import opened PullSpec

  datatype Act =
    | CreatedTopic(topic: Entity)
    | DeletedTopic(agency: string, name: string, gone: set<Id>)
    | Published(message: Entity)
    | CreatedSubscription(created: Entity)
    | DeletedSubscription(agency: string, name: string, gone: set<Id>)
    | Pulled(agency: string, name: string, sub: Id, k: int, batch: seq<Entity>)
    // `ids`: the acknowledged IDs whose lookup did not fail; a failed one has no effect and no error
    | Acknowledged(agency: string, name: string, sub: Id, ids: seq<string>, cursor: string)

  function TopicByName(agency: string, name: string): Filter {
    Filter(agency, TopicKind, map[Name := name])
  }

  function SubByName(agency: string, name: string): Filter {
    Filter(agency, SubscriptionKind, map[Name := name])
  }

  function SubsOnTopic(agency: string, topic: string): Filter {
    Filter(agency, SubscriptionKind, map[TopicName := topic])
  }

  function MessagesOn(agency: string, topic: string): Filter {
    Filter(agency, MessageKind, map[TopicName := topic])
  }

  function MessageById(agency: string, id: string): Filter {
    Filter(agency, MessageKind, map[MessageId := id])
  }

  // ── What these filters select, said of the entities ───────────────────────

  lemma TopicFilter(s: Store, agency: string, name: string)
    ensures Matching(s, TopicByName(agency, name)) == With(s, agency, TopicKind, Name, name)
  {
  }

  lemma SubFilter(s: Store, agency: string, name: string)
    ensures Matching(s, SubByName(agency, name)) == With(s, agency, SubscriptionKind, Name, name)
  {
  }

  lemma OnTopicFilter(s: Store, agency: string, topic: string)
    ensures Matching(s, SubsOnTopic(agency, topic)) == With(s, agency, SubscriptionKind, TopicName, topic)
  {
  }

  lemma MessageFilter(s: Store, agency: string, topic: string)
    ensures Matching(s, MessagesOn(agency, topic)) == With(s, agency, MessageKind, TopicName, topic)
  {
  }

  lemma IdFilter(s: Store, agency: string, id: string)
    ensures Matching(s, MessageById(agency, id)) == With(s, agency, MessageKind, MessageId, id)
  {
  }

  function TopicMessages(s: Store, agency: string, topic: string): set<Entity> {
    set id | id in Matching(s, MessagesOn(agency, topic)) :: s.entities[id]
  }

  /** What a Pull on `sub` chooses from. */
  function PendingFor(s: Store, sub: Entity): set<Entity> {
    Pending(TopicMessages(s, sub.agency, Get(sub, TopicName)), Get(sub, Cursor))
  }

  predicate Named(e: Entity, agency: string, ids: seq<string>) {
    e.agency == agency && e.kind == MessageKind && MessageId in e.props && e.props[MessageId] in ids
  }

  /** The stamps of those messages of the agency that `ids` names; unknown IDs name none. */
  function KnownStamps(s: Store, agency: string, ids: seq<string>): set<string> {
    set id | id in s.entities && Named(s.entities[id], agency, ids) :: Stamp(s.entities[id])
  }

  predicate New(s: Store, e: Entity) {
    e.id !in s.issued
  }

  ghost predicate FreshMessageId(s: Store, id: string) {
    forall x | x in s.entities && s.entities[x].kind == MessageKind :: Get(s.entities[x], MessageId) != id
  }

  ghost predicate Enabled(s: Store, a: Act, timeOf: Parser) {
    match a
    case CreatedTopic(t) =>
      New(s, t) && t.kind == TopicKind && Matching(s, TopicByName(t.agency, Get(t, Name))) == {}
    case DeletedTopic(agency, name, gone) =>
      gone <= Matching(s, TopicByName(agency, name)) + Matching(s, SubsOnTopic(agency, name))
    case Published(m) =>
      New(s, m) && m.kind == MessageKind && MessageId in m.props && FreshMessageId(s, m.props[MessageId]) &&
      TopicName in m.props && Stamp(m) != ""
    case CreatedSubscription(u) =>
      New(s, u) && u.kind == SubscriptionKind && Name in u.props && Get(u, Cursor) == "" &&
      Matching(s, SubByName(u.agency, u.props[Name])) == {}
    case DeletedSubscription(agency, name, gone) =>
      gone <= Matching(s, SubByName(agency, name))
    case Pulled(agency, name, sub, k, batch) =>
      sub in Matching(s, SubByName(agency, name)) && IsBatch(batch, PendingFor(s, s.entities[sub]), k, timeOf)
    case Acknowledged(agency, name, sub, ids, cursor) =>
      sub in Matching(s, SubByName(agency, name)) &&
      IsJoin(cursor, Get(s.entities[sub], Cursor), KnownStamps(s, agency, ids))
  }

  function Apply(s: Store, a: Act): Store {
    match a
    case CreatedTopic(t) => Put(s, t)
    case DeletedTopic(_, _, gone) => RemoveAll(s, gone)
    case Published(m) => Put(s, m)
    case CreatedSubscription(u) => Put(s, u)
    case DeletedSubscription(_, _, gone) => RemoveAll(s, gone)
    case Pulled(_, _, _, _, _) => s
    case Acknowledged(_, _, sub, _, cursor) => if sub in s.entities then Merge(s, sub, map[Cursor := cursor]) else s
  }

  function After(s: Store, acts: seq<Act>): Store {
    if acts == [] then s else Apply(After(s, acts[..|acts| - 1]), acts[|acts| - 1])
  }

  /** `acts` can happen in this order from `s`. */
  ghost predicate Possible(s: Store, acts: seq<Act>, timeOf: Parser) {
    acts != [] ==>
      Possible(s, acts[..|acts| - 1], timeOf) && Enabled(After(s, acts[..|acts| - 1]), acts[|acts| - 1], timeOf)
  }

  lemma RunMore(s: Store, acts: seq<Act>, a: Act, timeOf: Parser)
    requires Possible(s, acts, timeOf) && Enabled(After(s, acts), a, timeOf)
    ensures Possible(s, acts + [a], timeOf) && After(s, acts + [a]) == Apply(After(s, acts), a)
  {
    assert (acts + [a])[..|acts|] == acts;
  }

  lemma {:induction false} RunPrefix(s: Store, acts: seq<Act>, n: nat, timeOf: Parser)
    requires Possible(s, acts, timeOf) && n <= |acts|
    ensures Possible(s, acts[..n], timeOf)
    ensures n < |acts| ==> Enabled(After(s, acts[..n]), acts[n], timeOf)
    ensures n < |acts| ==> After(s, acts[..n + 1]) == Apply(After(s, acts[..n]), acts[n])
  {
    if n < |acts| {
      var init := acts[..|acts| - 1];
      assert acts[..n + 1][..n] == acts[..n];
      if n < |init| {
        RunPrefix(s, init, n, timeOf);
        assert init[..n] == acts[..n];
      }
    } else {
      assert acts[..n] == acts;
    }
  }

  // ── What every run keeps ──────────────────────────────────────────────────

  ghost predicate SubNamesUnique(s: Store) {
    forall x, y | x in s.entities && y in s.entities &&
      s.entities[x].kind == SubscriptionKind && s.entities[y].kind == SubscriptionKind &&
      s.entities[x].agency == s.entities[y].agency &&
      Name in s.entities[x].props && Name in s.entities[y].props &&
      s.entities[x].props[Name] == s.entities[y].props[Name] :: x == y
  }

  ghost predicate MessageIdsUnique(s: Store) {
    forall x, y | x in s.entities && y in s.entities &&
      s.entities[x].kind == MessageKind && s.entities[y].kind == MessageKind &&
      Get(s.entities[x], MessageId) == Get(s.entities[y], MessageId) :: x == y
  }

  ghost predicate MessagesStamped(s: Store) {
    forall x | x in s.entities && s.entities[x].kind == MessageKind :: Stamp(s.entities[x]) != ""
  }

  ghost predicate MessagesNamed(s: Store) {
    forall x | x in s.entities && s.entities[x].kind == MessageKind :: MessageId in s.entities[x].props
  }

  ghost predicate Inv(s: Store) {
    WellKeyed(s) && SubNamesUnique(s) && MessageIdsUnique(s) && MessagesNamed(s) && MessagesStamped(s)
  }

  lemma InvStep(s: Store, a: Act, timeOf: Parser)
    requires Inv(s) && Enabled(s, a, timeOf)
    ensures Inv(Apply(s, a))
  {
    match a {
      case CreatedTopic(t) =>
      case DeletedTopic(_, _, gone) => InvRemove(s, gone);
      case Published(m) =>
      case CreatedSubscription(u) => InvCreateSub(s, u);
      case DeletedSubscription(_, _, gone) => InvRemove(s, gone);
      case Pulled(_, _, _, _, _) =>
      case Acknowledged(_, _, sub, _, cursor) => InvAck(s, sub, cursor);
    }
  }

  lemma InvCreateSub(s: Store, u: Entity)
    requires Inv(s) && New(s, u) && u.kind == SubscriptionKind && Name in u.props
    requires Matching(s, SubByName(u.agency, u.props[Name])) == {}
    ensures Inv(Put(s, u))
  {
    forall x | x in s.entities && s.entities[x].kind == SubscriptionKind && s.entities[x].agency == u.agency
      ensures Name in s.entities[x].props ==> s.entities[x].props[Name] != u.props[Name]
    {
      assert x !in Matching(s, SubByName(u.agency, u.props[Name]));
    }
  }

  lemma InvRemove(s: Store, gone: set<Id>)
    requires Inv(s)
    ensures Inv(RemoveAll(s, gone))
  {
  }

  lemma InvAck(s: Store, sub: Id, cursor: string)
    requires Inv(s) && sub in s.entities && s.entities[sub].kind == SubscriptionKind
    ensures Inv(Merge(s, sub, map[Cursor := cursor]))
  {
  }

  /** Names, message IDs and stamps stay well formed in every run, faults included. */
  lemma {:induction false} InvRun(s: Store, acts: seq<Act>, timeOf: Parser)
    requires Inv(s) && Possible(s, acts, timeOf)
    ensures Inv(After(s, acts))
  {
    if acts != [] {
      InvRun(s, acts[..|acts| - 1], timeOf);
      InvStep(After(s, acts[..|acts| - 1]), acts[|acts| - 1], timeOf);
    }
  }

  // ── Acknowledge is a join ─────────────────────────────────────────────────

  lemma JoinCompose(c0: string, c1: string, c2: string, a: set<string>, b: set<string>)
    requires IsJoin(c1, c0, a) && IsJoin(c2, c1, b)
    ensures IsJoin(c2, c0, a + b)
  {
    NotLessChain(c0, c1, c2);
    forall x | x in a ensures !Less(c2, x) {
      NotLessChain(x, c1, c2);
    }
  }

  /**
    Two acknowledgements in a row leave the same store as one for both lists in either
    order: order, repetition and unknown IDs are immaterial.
   */
  lemma AckComposes(s: Store, first: Act, second: Act, both: Act, timeOf: Parser)
    requires first.Acknowledged? && second.Acknowledged? && both.Acknowledged?
    requires first.sub == second.sub == both.sub
    requires first.agency == second.agency == both.agency
    requires Enabled(s, first, timeOf) && Enabled(Apply(s, first), second, timeOf) && Enabled(s, both, timeOf)
    requires forall id :: id in both.ids <==> id in first.ids || id in second.ids
    ensures Apply(Apply(s, first), second) == Apply(s, both)
  {
    var s1 := Apply(s, first);
    var c0 := Get(s.entities[first.sub], Cursor);
    KnownAfterAck(s, first, first.agency, second.ids);
    KnownUnion(s, first.agency, first.ids, second.ids, both.ids);
    JoinCompose(c0, first.cursor, second.cursor,
                KnownStamps(s, first.agency, first.ids), KnownStamps(s, first.agency, second.ids));
    JoinUnique(second.cursor, both.cursor, c0, KnownStamps(s, first.agency, both.ids));
    MergeTwice(s, first.sub, first.cursor, second.cursor);
  }

  lemma MergeTwice(s: Store, sub: Id, c: string, d: string)
    requires sub in s.entities
    ensures Merge(Merge(s, sub, map[Cursor := c]), sub, map[Cursor := d]) == Merge(s, sub, map[Cursor := d])
  {
    var p := s.entities[sub].props;
    assert p + map[Cursor := c] + map[Cursor := d] == p + map[Cursor := d];
  }

  lemma KnownAfterAck(s: Store, a: Act, agency: string, ids: seq<string>)
    requires a.Acknowledged? && a.sub in s.entities && s.entities[a.sub].kind == SubscriptionKind
    ensures KnownStamps(Apply(s, a), agency, ids) == KnownStamps(s, agency, ids)
  {
    var s1 := Apply(s, a);
    assert forall x | x in s.entities && s.entities[x].kind == MessageKind :: s1.entities[x] == s.entities[x];
    assert forall x | x in s1.entities && s1.entities[x].kind == MessageKind :: s1.entities[x] == s.entities[x];
  }

  lemma KnownUnion(s: Store, agency: string, xs: seq<string>, ys: seq<string>, both: seq<string>)
    requires forall id :: id in both <==> id in xs || id in ys
    ensures KnownStamps(s, agency, both) == KnownStamps(s, agency, xs) + KnownStamps(s, agency, ys)
  {
    assert forall id | id in s.entities ::
        Named(s.entities[id], agency, both) <==>
        Named(s.entities[id], agency, xs) || Named(s.entities[id], agency, ys);
  }

  // ── No redelivery ─────────────────────────────────────────────────────────

  /** Message `m` is stored, and `sub`, while it exists, has its cursor at or past `m`. */
  ghost predicate Retired(s: Store, sub: Id, m: Entity) {
    && sub in s.issued && m.id in s.entities && s.entities[m.id] == m && m.kind == MessageKind
    && (sub in s.entities ==>
          s.entities[sub].kind == SubscriptionKind && !Less(Get(s.entities[sub], Cursor), Stamp(m)))
  }

  lemma RetiredStep(s: Store, a: Act, sub: Id, m: Entity, timeOf: Parser)
    requires Inv(s) && Enabled(s, a, timeOf) && Retired(s, sub, m)
    ensures Retired(Apply(s, a), sub, m)
  {
    if a.Acknowledged? && a.sub == sub {
      NotLessChain(Stamp(m), Get(s.entities[sub], Cursor), a.cursor);
    }
  }

  lemma {:induction false} RetiredRun(s: Store, acts: seq<Act>, i: nat, j: nat, sub: Id, m: Entity, timeOf: Parser)
    requires Inv(s) && Possible(s, acts, timeOf) && i <= j <= |acts|
    requires Retired(After(s, acts[..i]), sub, m)
    ensures Retired(After(s, acts[..j]), sub, m)
    decreases j - i
  {
    if i < j {
      RunPrefix(s, acts, j - 1, timeOf);
      InvRun(s, acts[..j - 1], timeOf);
      RetiredRun(s, acts, i, j - 1, sub, m, timeOf);
      RetiredStep(After(s, acts[..j - 1]), acts[j - 1], sub, m, timeOf);
    }
  }

  lemma AckRetires(s: Store, a: Act, m: Entity, timeOf: Parser)
    requires Inv(s) && a.Acknowledged? && Enabled(s, a, timeOf)
    requires m.id in s.entities && s.entities[m.id] == m && Named(m, a.agency, a.ids)
    ensures Retired(Apply(s, a), a.sub, m)
  {
    assert Stamp(m) in KnownStamps(s, a.agency, a.ids);
  }

  /** A message the cursor has reached, acknowledged or merely overtaken, is never pulled again. */
  lemma OvertakenNeverPulled(s: Store, acts: seq<Act>, i: nat, j: nat, m: Entity, timeOf: Parser)
    requires Inv(s) && Possible(s, acts, timeOf)
    requires i <= j < |acts| && acts[j].Pulled? && Retired(After(s, acts[..i]), acts[j].sub, m)
    ensures forall e | e in acts[j].batch :: Get(e, MessageId) != Get(m, MessageId)
  {
    RetiredRun(s, acts, i, j, acts[j].sub, m, timeOf);
    RunPrefix(s, acts, j, timeOf);
    InvRun(s, acts[..j], timeOf);
    RetiredNotPulled(After(s, acts[..j]), acts[j], m, timeOf);
  }

  /**
    Once an acknowledgement on a subscription names a published message and finds it (its
    lookup did not fail), no later Pull on that subscription returns it: in every run,
    whatever else fails, whatever the stamps and however other calls interleave.
   */
  lemma NoRedelivery(s: Store, acts: seq<Act>, i: nat, j: nat, m: Entity, timeOf: Parser)
    requires Inv(s) && Possible(s, acts, timeOf)
    requires i < j < |acts| && acts[i].Acknowledged? && acts[j].Pulled? && acts[i].sub == acts[j].sub
    requires var s1 := After(s, acts[..i]);
             m.id in s1.entities && s1.entities[m.id] == m && Named(m, acts[i].agency, acts[i].ids)
    ensures forall e | e in acts[j].batch :: Get(e, MessageId) != Get(m, MessageId)
  {
    RunPrefix(s, acts, i, timeOf);
    InvRun(s, acts[..i], timeOf);
    AckRetires(After(s, acts[..i]), acts[i], m, timeOf);
    OvertakenNeverPulled(s, acts, i + 1, j, m, timeOf);
  }

  /** `m` is a message on the topic that `u` subscribes to. */
  predicate KeyOn(m: Entity, u: Entity) {
    m.agency == u.agency && TopicName in m.props && m.props[TopicName] == Get(u, TopicName)
  }

  /** A stamp is past a join exactly when it is past everything joined. */
  lemma PastJoinIff(c: string, start: string, stamps: set<string>, stamp: string)
    requires IsJoin(c, start, stamps) && stamp != ""
    ensures Passes(c, stamp) <==> Less(start, stamp) && forall x | x in stamps :: Less(x, stamp)
  {
    assert Less("", stamp);
    if Less(c, stamp) {
      NotLessChain(start, c, stamp);
      forall x | x in stamps ensures Less(x, stamp) {
        NotLessChain(x, c, stamp);
      }
    }
  }

  /**
    What an acknowledgement leaves pending: a stored message of the topic that is past the
    old cursor and past everything the acknowledgement names and finds, and no other.
   */
  lemma AckLeavesPendingIff(s: Store, a: Act, m: Entity, timeOf: Parser)
    requires Inv(s) && a.Acknowledged? && Enabled(s, a, timeOf)
    requires m.id in s.entities && s.entities[m.id] == m && m.kind == MessageKind && KeyOn(m, s.entities[a.sub])
    ensures var t := Apply(s, a);
            m in PendingFor(t, t.entities[a.sub]) <==>
              Less(Get(s.entities[a.sub], Cursor), Stamp(m)) &&
              forall x | x in KnownStamps(s, a.agency, a.ids) :: Less(x, Stamp(m))
  {
    var t := Apply(s, a);
    assert t.entities[m.id] == m && Get(t.entities[a.sub], Cursor) == a.cursor;
    assert m.id in Matching(t, MessagesOn(m.agency, Get(m, TopicName)));
    assert m in PendingFor(t, t.entities[a.sub]) <==> Passes(a.cursor, Stamp(m));
    PastJoinIff(a.cursor, Get(s.entities[a.sub], Cursor), KnownStamps(s, a.agency, a.ids), Stamp(m));
  }

  /**
    Acknowledge reads the cursor and writes it back without a lock. When two calls both
    read before either writes, a message that the first writer acknowledged is pending
    again if and only if it is past the cursor both had read and past everything the last
    writer acknowledges.
   */
  lemma OverlappingAcksRedeliverIff(s: Store, newer: Act, older: Act, m: Entity, timeOf: Parser)
    requires Inv(s) && newer.Acknowledged? && older.Acknowledged? && newer.sub == older.sub
    requires Enabled(s, newer, timeOf) && Enabled(s, older, timeOf)
    requires m.id in s.entities && s.entities[m.id] == m && Named(m, newer.agency, newer.ids)
    requires KeyOn(m, s.entities[newer.sub])
    ensures var t := Apply(Apply(s, newer), older);
            m in PendingFor(t, t.entities[older.sub]) <==>
              Less(Get(s.entities[older.sub], Cursor), Stamp(m)) &&
              forall x | x in KnownStamps(s, older.agency, older.ids) :: Less(x, Stamp(m))
  {
    var t := Apply(s, newer);
    InvStep(s, newer, timeOf);
    KnownAfterAck(s, newer, older.agency, older.ids);
    MergeTwice(s, newer.sub, newer.cursor, older.cursor);
    AckLeavesPendingIff(s, older, m, timeOf);
  }

  lemma RetiredNotPulled(s: Store, a: Act, m: Entity, timeOf: Parser)
    requires Inv(s) && a.Pulled? && Enabled(s, a, timeOf) && Retired(s, a.sub, m)
    ensures forall e | e in a.batch :: Get(e, MessageId) != Get(m, MessageId)
  {
    assert Less("", Stamp(m));
    assert !Passes(Get(s.entities[a.sub], Cursor), Stamp(m));
    forall e | e in a.batch ensures Get(e, MessageId) != Get(m, MessageId) {
      assert e in Elements(a.batch) && e != m;
    }
  }
}
