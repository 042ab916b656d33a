/**
  The calls an agency makes on the manager, and which answers each can get: what it changes
  and returns is decided by the state, by fresh IDs, and by which of its store calls fail.
 */
module Requests {
  import opened Wrappers
  import opened Text
  import opened EntityStore
  import opened ManagerSpec
  import opened HashCache

  /** A topic to register, and whether its lookup and its creation succeed. */
  datatype TopicAsk = TopicAsk(props: Props, lists: bool, writes: bool)

  /** Which store calls of RecordEvent succeed; `lost` are the subscriptions whose delivery failed. */
  datatype Luck = Luck(finds: bool, findsAgain: bool, writes: bool, links: bool, fansOut: bool, lost: set<Id>)

  /** One call: its arguments, and what the faults decided for the store calls it may make. */
  datatype Ask =
    | AskTopic(agency: string, topic: TopicAsk)
    | AskTopics(agency: string, service: string, hash: string, topics: seq<TopicAsk>)
    | AskEvent(agency: string, props: Props, now: string, topic: TopicAsk, luck: Luck)
    | AskSubscription(agency: string, props: Props, topicId: string, lists: bool, writes: bool, links: bool)
    | AskStatus(agency: string, id: Id, status: string, now: string, writes: bool)
    | AskRemoval(agency: string, id: Id, ofTopic: bool, writes: bool)
    | AskDelivered(agency: string, id: Id, now: string, writes: bool)
    | AskAck(agency: string, sub: Id, event: Id, now: string, lists: bool, writes: bool)

  /** A call with its answer: what it changed, the error it gave, the subscription it returned. */
  datatype Exchange = Exchange(ask: Ask, acts: seq<Act>, error: Option<Error>, found: Option<Id>)

  function Value(props: Props, p: Prop): string {
    if p in props then props[p] else ""
  }

  function WithPattern(agency: string, props: Props): Filter {
    TopicByPattern(agency, Value(props, Pattern))
  }

  function OnTopic(agency: string, props: Props): Filter {
    TopicByPattern(agency, Value(props, EventTopic))
  }

  function WithKey(agency: string, props: Props): Filter {
    SubByKey(agency, Value(props, SubscriberService), Value(props, TopicPattern))
  }

  predicate Known(s: Store, agency: string, t: TopicAsk) {
    Matching(s, WithPattern(agency, t.props)) != {}
  }

  predicate Registers(a: Act, agency: string, props: Props) {
    a.RegisteredTopic? && a.topic == Entity(a.topic.id, agency, TopicKind, props)
  }

  predicate Fails(acts: seq<Act>, error: Option<Error>, why: Error) {
    acts == [] && error == Some(why)
  }

  predicate Does(acts: seq<Act>, error: Option<Error>, a: Act) {
    acts == [a] && error == None
  }

  ghost predicate AnswersTopic(z: Sys, agency: string, t: TopicAsk, acts: seq<Act>, error: Option<Error>) {
    if !t.lists then Fails(acts, error, StoreFault)
    else if Known(z.store, agency, t) then Fails(acts, error, TopicAlreadyRegistered)
    else if !t.writes then Fails(acts, error, StoreFault)
    else |acts| == 1 && error == None && Registers(acts[0], agency, t.props)
  }

  /** The upsert of `t` meets a fault. */
  predicate Stopped(z: Sys, agency: string, t: TopicAsk) {
    !t.lists || (!Known(z.store, agency, t) && !t.writes)
  }

  /** The upserts of RegisterTopics in order, up to the first fault, and `done` when there was none. */
  ghost predicate AnswersTopics(z: Sys, agency: string, ts: seq<TopicAsk>, done: Act, acts: seq<Act>, error: Option<Error>)
    decreases |ts|
  {
    if ts == [] then Does(acts, error, done)
    else
      if Stopped(z, agency, ts[0]) then Fails(acts, error, StoreFault)
      else if Known(z.store, agency, ts[0]) then AnswersTopics(z, agency, ts[1..], done, acts, error)
      else
        acts != [] && Registers(acts[0], agency, ts[0].props) &&
        AnswersTopics(Apply(z, acts[0]), agency, ts[1..], done, acts[1..], error)
  }

  function PatternsOf(ts: seq<TopicAsk>): set<string> {
    set t | t in ts :: Value(t.props, Pattern)
  }

  /** The event is recorded on a topic of its name, linked, and fanned out, as far as the faults allow. */
  ghost predicate RecordsFor(z: Sys, a: Act, agency: string, props: Props, now: string, luck: Luck) {
    && a.RecordedEvent? && a.event == Entity(a.event.id, agency, EventKind, props) && a.linked == luck.links
    && a.topicId in Matching(z.store, OnTopic(agency, props))
    && SubRefs(a.deliveries) ==
         (if luck.fansOut then Matching(z.store, ActiveSubs(agency, Value(props, EventTopic))) - luck.lost else {})
    && WrittenFor(a.deliveries, a.event.id, now)
  }

  ghost predicate AnswersRecording(z: Sys, agency: string, props: Props, now: string, luck: Luck,
                                   acts: seq<Act>, error: Option<Error>) {
    if !luck.writes then Fails(acts, error, StoreFault)
    else |acts| == 1 && error == None && RecordsFor(z, acts[0], agency, props, now, luck)
  }

  /** RecordEvent: a missing topic is registered and looked up again before the event is recorded. */
  ghost predicate AnswersEvent(z: Sys, agency: string, props: Props, now: string, t: TopicAsk, luck: Luck,
                               acts: seq<Act>, error: Option<Error>) {
    if !luck.finds then Fails(acts, error, StoreFault)
    else if Matching(z.store, OnTopic(agency, props)) != {} then
      AnswersRecording(z, agency, props, now, luck, acts, error)
    else if !t.lists || !t.writes then Fails(acts, error, StoreFault)
    else
      acts != [] && Registers(acts[0], agency, t.props) &&
      if !luck.findsAgain then |acts| == 1 && error == Some(StoreFault)
      else AnswersRecording(Apply(z, acts[0]), agency, props, now, luck, acts[1..], error)
  }

  ghost predicate AnswersSubscription(z: Sys, agency: string, props: Props, topicId: string,
                                      lists: bool, writes: bool, links: bool,
                                      acts: seq<Act>, error: Option<Error>, found: Option<Id>) {
    var existing := Matching(z.store, WithKey(agency, props));
    if !lists then Fails(acts, error, StoreFault) && found == None
    else if existing != {} then acts == [] && error == None && found.Some? && found.value in existing
    else if !writes then Fails(acts, error, StoreFault) && found == None
    else
      |acts| == 1 && error == None && acts[0].Subscribed? && found == Some(acts[0].sub.id) &&
      acts[0].sub == Entity(acts[0].sub.id, agency, SubscriptionKind, props) &&
      (acts[0].link.Some? <==> topicId != "" && links)
  }

  /** A call that writes one given entity. */
  ghost predicate AnswersWrite(z: Sys, agency: string, id: Id, writes: bool, a: Act, acts: seq<Act>, error: Option<Error>) {
    if !writes then Fails(acts, error, StoreFault)
    else if !Present(z.store, agency, id) then Fails(acts, error, EntityNotFound)
    else Does(acts, error, a)
  }

  ghost predicate AnswersAck(z: Sys, agency: string, sub: Id, event: Id, now: string, lists: bool, writes: bool,
                             acts: seq<Act>, error: Option<Error>) {
    var listed := Matching(z.store, DeliveryFor(agency, sub, event));
    if !lists then Fails(acts, error, StoreFault)
    else if listed == {} then Fails(acts, error, DeliveryNotFound)
    else exists x | x in listed :: AcksOne(agency, x, Get(z.store.entities[x], Status), now, writes, acts, error)
  }

  /** The delivery that Ack found first, with its status. */
  predicate AcksOne(agency: string, x: Id, status: string, now: string, writes: bool, acts: seq<Act>, error: Option<Error>) {
    if status == ACKED then acts == [] && error == None
    else if !writes then Fails(acts, error, StoreFault)
    else Does(acts, error, Acked(agency, x, now))
  }

  /** A call that writes or removes the one entity it is given. */
  predicate WritesGiven(a: Ask) {
    a.AskStatus? || a.AskRemoval? || a.AskDelivered?
  }

  function WriteOf(a: Ask): Act
    requires WritesGiven(a)
  {
    match a
    case AskStatus(agency, id, status, now, _) => UpdatedSubscription(agency, id, status, now)
    case AskRemoval(agency, id, ofTopic, _) => if ofTopic then DeletedTopic(agency, id) else Unsubscribed(agency, id)
    case AskDelivered(agency, id, now, _) => MarkedDelivered(agency, id, now)
  }

  ghost predicate Answers(z: Sys, x: Exchange) {
    match x.ask
    case AskTopic(agency, t) => AnswersTopic(z, agency, t, x.acts, x.error) && x.found == None
    case AskTopics(agency, service, hash, ts) =>
      x.found == None &&
      if Cached(z.hashes, Key(agency, service)) == hash then x.acts == [] && x.error == None
      else AnswersTopics(z, agency, ts, StoredHash(agency, service, hash, PatternsOf(ts)), x.acts, x.error)
    case AskEvent(agency, props, now, t, luck) =>
      AnswersEvent(z, agency, props, now, t, luck, x.acts, x.error) && x.found == None
    case AskSubscription(agency, props, topicId, lists, writes, links) =>
      AnswersSubscription(z, agency, props, topicId, lists, writes, links, x.acts, x.error, x.found)
    case AskStatus(agency, id, _, _, writes) =>
      AnswersWrite(z, agency, id, writes, WriteOf(x.ask), x.acts, x.error) && x.found == None
    case AskRemoval(agency, id, _, writes) =>
      AnswersWrite(z, agency, id, writes, WriteOf(x.ask), x.acts, x.error) && x.found == None
    case AskDelivered(agency, id, _, writes) =>
      AnswersWrite(z, agency, id, writes, WriteOf(x.ask), x.acts, x.error) && x.found == None
    case AskAck(agency, sub, event, now, lists, writes) =>
      AnswersAck(z, agency, sub, event, now, lists, writes, x.acts, x.error) && x.found == None
  }

  predicate ActsOf(acts: seq<Act>, agency: string) {
    forall i | 0 <= i < |acts| :: AgencyOfAct(acts[i]) == agency && !acts[i].RecordedDelivery?
  }

  /** `x` can happen in `z`. */
  ghost predicate Happens(z: Sys, x: Exchange) {
    Possible(z, x.acts) && ActsOf(x.acts, x.ask.agency) && Answers(z, x)
  }

  /** These calls with these answers can happen from `z`, one after the other. */
  ghost predicate Goes(z: Sys, xs: seq<Exchange>)
    decreases |xs|
  {
    xs != [] ==> Happens(z, xs[0]) && Goes(After(z, xs[0].acts), xs[1..])
  }

  function End(z: Sys, xs: seq<Exchange>): Sys
    decreases |xs|
  {
    if xs == [] then z else End(After(z, xs[0].acts), xs[1..])
  }

  /** The agency's own calls. */
  function Own(xs: seq<Exchange>, agency: string): seq<Exchange>
    decreases |xs|
  {
    if xs == [] then []
    else (if xs[0].ask.agency == agency then [xs[0]] else []) + Own(xs[1..], agency)
  }

  function ErrorOf<T>(r: Result<T>): Option<Error> {
    if r.Failure? then Some(r.error) else None
  }

  lemma OneHappens(z: Sys, ask: Ask, a: Act, error: Option<Error>, found: Option<Id>)
    requires Enabled(z, a) && AgencyOfAct(a) == ask.agency && !a.RecordedDelivery?
    requires Answers(z, Exchange(ask, [a], error, found))
    ensures Happens(z, Exchange(ask, [a], error, found))
  {
    assert [a][..0] == [];
  }

  /** Between `before` and `after` the call was made in `z` and got this answer. */
  ghost predicate Made(z: Sys, before: seq<Act>, after: seq<Act>, ask: Ask, error: Option<Error>, found: Option<Id>) {
    exists acts :: after == before + acts && Happens(z, Exchange(ask, acts, error, found))
  }

  lemma MadeNothing(z: Sys, before: seq<Act>, ask: Ask, error: Option<Error>, found: Option<Id>)
    requires Answers(z, Exchange(ask, [], error, found))
    ensures Made(z, before, before, ask, error, found)
  {
    assert before + [] == before && Happens(z, Exchange(ask, [], error, found));
  }

  lemma MadeOne(z: Sys, before: seq<Act>, ask: Ask, a: Act, error: Option<Error>, found: Option<Id>)
    requires Enabled(z, a) && AgencyOfAct(a) == ask.agency && !a.RecordedDelivery?
    requires Answers(z, Exchange(ask, [a], error, found))
    ensures Made(z, before, before + [a], ask, error, found)
  {
    OneHappens(z, ask, a, error, found);
  }

  lemma MadeOf(z: Sys, before: seq<Act>, ask: Ask, acts: seq<Act>, more: seq<Act>, error: Option<Error>)
    requires Answers(z, Exchange(ask, acts + more, error, None)) && Possible(z, acts + more) && ActsOf(acts + more, ask.agency)
    ensures Made(z, before, before + acts + more, ask, error, None)
  {
    assert before + acts + more == before + (acts + more);
    assert Happens(z, Exchange(ask, acts + more, error, None));
  }

  /** Some outcome of the call's store calls explains its answer. */
  ghost predicate SubscribeMade(z: Sys, before: seq<Act>, after: seq<Act>, agency: string, props: Props, topicId: string,
                                  error: Option<Error>, found: Option<Id>) {
    exists lists, writes, links ::
      Made(z, before, after, AskSubscription(agency, props, topicId, lists, writes, links), error, found)
  }

  lemma SubscribeFinds(z: Sys, before: seq<Act>, agency: string, props: Props, topicId: string, x: Id)
    requires x in Matching(z.store, WithKey(agency, props))
    ensures SubscribeMade(z, before, before, agency, props, topicId, None, Some(x))
  {
    MadeNothing(z, before, AskSubscription(agency, props, topicId, true, true, true), None, Some(x));
  }

  /** A fault on the deciding lookup, or on creating what it did not find. */
  lemma SubscribeFails(z: Sys, before: seq<Act>, agency: string, props: Props, topicId: string, lists: bool)
    requires lists ==> Matching(z.store, WithKey(agency, props)) == {}
    ensures SubscribeMade(z, before, before, agency, props, topicId, Some(StoreFault), None)
  {
    MadeNothing(z, before, AskSubscription(agency, props, topicId, lists, false, true), Some(StoreFault), None);
  }

  lemma SubscribeCreates(z: Sys, before: seq<Act>, agency: string, props: Props, topicId: string, a: Act)
    requires Matching(z.store, WithKey(agency, props)) == {} && Enabled(z, a) && a.Subscribed?
    requires a.sub == Entity(a.sub.id, agency, SubscriptionKind, props) && (a.link.Some? ==> topicId != "")
    ensures SubscribeMade(z, before, before + [a], agency, props, topicId, None, Some(a.sub.id))
  {
    MadeOne(z, before, AskSubscription(agency, props, topicId, true, true, a.link.Some?), a, None, Some(a.sub.id));
  }

  // ── RegisterTopics, topic by topic ────────────────────────────────────────

  /** All topics were upserted without a fault. */
  ghost predicate Upserts(z: Sys, agency: string, ts: seq<TopicAsk>, acts: seq<Act>)
    decreases |ts|
  {
    if ts == [] then acts == []
    else
      !Stopped(z, agency, ts[0]) &&
      if Known(z.store, agency, ts[0]) then Upserts(z, agency, ts[1..], acts)
      else
        acts != [] && Registers(acts[0], agency, ts[0].props) &&
        Upserts(Apply(z, acts[0]), agency, ts[1..], acts[1..])
  }

  /** From `z` to `y` all topics were upserted without a fault, by `acts`. */
  ghost predicate Upserted(z: Sys, agency: string, ts: seq<TopicAsk>, acts: seq<Act>, y: Sys) {
    Upserts(z, agency, ts, acts) && Possible(z, acts) && ActsOf(acts, agency) && After(z, acts) == y
  }

  /** From `z` to `y` the topics were upserted up to one that met a fault. */
  ghost predicate UpsertedInPart(z: Sys, agency: string, ts: seq<TopicAsk>, acts: seq<Act>, y: Sys) {
    exists n | 0 <= n < |ts| :: Upserted(z, agency, ts[..n], acts, y) && Stopped(y, agency, ts[n])
  }

  lemma UpsertRegisters(z: Sys, agency: string, t: TopicAsk, a: Act)
    requires !Stopped(z, agency, t) && !Known(z.store, agency, t) && Enabled(z, a) && Registers(a, agency, t.props)
    ensures Upserted(z, agency, [t], [a], Apply(z, a))
  {
    RunTail(z, [a]);
    assert [t][1..] == [] && [a][1..] == [];
    assert Upserts(Apply(z, a), agency, [t][1..], [a][1..]);
  }

  lemma UpsertFinds(z: Sys, agency: string, t: TopicAsk)
    requires !Stopped(z, agency, t) && Known(z.store, agency, t)
    ensures Upserted(z, agency, [t], [], z)
  {
    assert [t][1..] == [];
    assert Upserts(z, agency, [t][1..], []);
  }

  lemma OneUpsert(z: Sys, agency: string, t: TopicAsk, acts: seq<Act>)
    requires Upserts(z, agency, [t], acts) && acts != []
    ensures acts == [acts[0]]
  {
    assert [t][1..] == [];
    if !Known(z.store, agency, t) {
      assert Upserts(Apply(z, acts[0]), agency, [], acts[1..]);
    }
  }

  lemma UpsertedMore(z: Sys, agency: string, ts: seq<TopicAsk>, acts: seq<Act>, y: Sys, t: TopicAsk, more: seq<Act>, x: Sys)
    requires Upserted(z, agency, ts, acts, y) && Upserted(y, agency, [t], more, x)
    ensures Upserted(z, agency, ts + [t], acts + more, x)
  {
    UpsertsMore(z, agency, ts, acts, t, more);
    if more == [] {
      assert acts + more == acts;
    } else {
      OneUpsert(y, agency, t, more);
      RunTail(y, more);
      RunMore(z, acts, more[0]);
    }
  }

  lemma UpsertedThenStopped(z: Sys, agency: string, ts: seq<TopicAsk>, acts: seq<Act>, y: Sys, t: TopicAsk, rest: seq<TopicAsk>)
    requires Upserted(z, agency, ts, acts, y) && Stopped(y, agency, t)
    ensures UpsertedInPart(z, agency, ts + [t] + rest, acts, y)
  {
    var all := ts + [t] + rest;
    assert all[..|ts|] == ts && all[|ts|] == t;
  }

  lemma {:induction false} UpsertsMore(z: Sys, agency: string, ts: seq<TopicAsk>, acts: seq<Act>, t: TopicAsk, more: seq<Act>)
    requires Upserts(z, agency, ts, acts) && Upserts(After(z, acts), agency, [t], more)
    ensures Upserts(z, agency, ts + [t], acts + more)
    decreases |ts|
  {
    if ts == [] {
      assert ts + [t] == [t] && acts + more == more;
    } else {
      assert (ts + [t])[1..] == ts[1..] + [t];
      if Known(z.store, agency, ts[0]) {
        UpsertsMore(z, agency, ts[1..], acts, t, more);
      } else {
        RunTail(z, acts);
        assert (acts + more)[1..] == acts[1..] + more;
        UpsertsMore(Apply(z, acts[0]), agency, ts[1..], acts[1..], t, more);
      }
    }
  }

  /** After some upserts without a fault the answer is decided by the others. */
  lemma {:induction false} UpsertsThen(z: Sys, agency: string, ts: seq<TopicAsk>, acts: seq<Act>, rest: seq<TopicAsk>,
                                       done: Act, more: seq<Act>, error: Option<Error>)
    requires Upserts(z, agency, ts, acts) && AnswersTopics(After(z, acts), agency, rest, done, more, error)
    ensures AnswersTopics(z, agency, ts + rest, done, acts + more, error)
    decreases |ts|
  {
    if ts == [] {
      assert ts + rest == rest && acts + more == more;
    } else {
      assert (ts + rest)[1..] == ts[1..] + rest;
      if Known(z.store, agency, ts[0]) {
        UpsertsThen(z, agency, ts[1..], acts, rest, done, more, error);
      } else {
        RunTail(z, acts);
        assert (acts + more)[1..] == acts[1..] + more;
        UpsertsThen(Apply(z, acts[0]), agency, ts[1..], acts[1..], rest, done, more, error);
      }
    }
  }

  /** A registered topic is found by its pattern, and hides no other topic. */
  lemma Registered(s: Store, t: Entity)
    requires WellKeyed(s) && New(s, t) && t.kind == TopicKind && Pattern in t.props
    ensures Matching(Put(s, t), TopicByPattern(t.agency, t.props[Pattern])) != {}
    ensures forall p | Matching(s, TopicByPattern(t.agency, p)) != {} ::
              Matching(Put(s, t), TopicByPattern(t.agency, p)) != {}
  {
    assert t.id in Matching(Put(s, t), TopicByPattern(t.agency, t.props[Pattern]));
    forall p | Matching(s, TopicByPattern(t.agency, p)) != {}
      ensures Matching(Put(s, t), TopicByPattern(t.agency, p)) != {}
    {
      var x :| x in Matching(s, TopicByPattern(t.agency, p));
      assert x in Matching(Put(s, t), TopicByPattern(t.agency, p));
    }
  }

  predicate RegistersOneOf(a: Act, agency: string, ts: seq<TopicAsk>) {
    a.RegisteredTopic? && a.topic.agency == agency && exists k :: 0 <= k < |ts| && ts[k].props == a.topic.props
  }

  lemma {:induction false} UpsertsKeep(z: Sys, agency: string, ts: seq<TopicAsk>, acts: seq<Act>, p: string)
    requires WellKeyed(z.store) && Upserts(z, agency, ts, acts) && Possible(z, acts)
    requires Matching(z.store, TopicByPattern(agency, p)) != {}
    ensures Matching(After(z, acts).store, TopicByPattern(agency, p)) != {}
    decreases |ts|
  {
    if ts != [] {
      if Known(z.store, agency, ts[0]) {
        UpsertsKeep(z, agency, ts[1..], acts, p);
      } else {
        RunTail(z, acts);
        Registered(z.store, acts[0].topic);
        UpsertsKeep(Apply(z, acts[0]), agency, ts[1..], acts[1..], p);
      }
    }
  }

  /** Upserts leave a topic for every pattern. */
  lemma {:induction false} UpsertsCover(z: Sys, agency: string, ts: seq<TopicAsk>, acts: seq<Act>)
    requires WellKeyed(z.store) && Upserts(z, agency, ts, acts) && Possible(z, acts)
    ensures AllRegistered(After(z, acts).store, agency, PatternsOf(ts))
    decreases |ts|
  {
    if ts != [] {
      assert ts == [ts[0]] + ts[1..];
      assert PatternsOf(ts) == {Value(ts[0].props, Pattern)} + PatternsOf(ts[1..]);
      if Known(z.store, agency, ts[0]) {
        UpsertsCover(z, agency, ts[1..], acts);
        UpsertsKeep(z, agency, ts[1..], acts, Value(ts[0].props, Pattern));
      } else {
        RunTail(z, acts);
        Registered(z.store, acts[0].topic);
        UpsertsCover(Apply(z, acts[0]), agency, ts[1..], acts[1..]);
        UpsertsKeep(Apply(z, acts[0]), agency, ts[1..], acts[1..], Value(ts[0].props, Pattern));
      }
    }
  }

  /** Upserts register nothing but what was asked for. */
  lemma {:induction false} UpsertsOnly(z: Sys, agency: string, ts: seq<TopicAsk>, acts: seq<Act>, i: nat)
    requires Upserts(z, agency, ts, acts) && i < |acts|
    ensures RegistersOneOf(acts[i], agency, ts)
    decreases |ts|
  {
    if Known(z.store, agency, ts[0]) {
      UpsertsOnly(z, agency, ts[1..], acts, i);
      OneOfMore(acts[i], agency, ts);
    } else if i > 0 {
      UpsertsOnly(Apply(z, acts[0]), agency, ts[1..], acts[1..], i - 1);
      OneOfMore(acts[i], agency, ts);
    }
  }

  lemma OneOfMore(a: Act, agency: string, ts: seq<TopicAsk>)
    requires ts != [] && RegistersOneOf(a, agency, ts[1..])
    ensures RegistersOneOf(a, agency, ts)
  {
    var k :| 0 <= k < |ts[1..]| && ts[1..][k].props == a.topic.props;
    assert ts[k + 1] == ts[1..][k];
  }

  predicate AsksFor(ts: seq<TopicAsk>, requested: seq<Props>) {
    |ts| == |requested| && forall i | 0 <= i < |ts| :: ts[i].props == requested[i]
  }

  lemma JoinedAsks(ts: seq<TopicAsk>, t: TopicAsk, rest: seq<TopicAsk>, requested: seq<Props>)
    requires |ts| + 1 + |rest| == |requested|
    requires forall i | 0 <= i < |ts| :: ts[i].props == requested[i]
    requires t.props == requested[|ts|]
    requires forall i | 0 <= i < |rest| :: rest[i].props == requested[|ts| + 1 + i]
    ensures AsksFor(ts + [t] + rest, requested)
  {
    var all := ts + [t] + rest;
    forall i | 0 <= i < |all| ensures all[i].props == requested[i] {
      if i > |ts| {
        assert all[i] == rest[i - |ts| - 1];
      }
    }
  }

  function PatternsIn(requested: seq<Props>): set<string> {
    set p | p in requested :: Value(p, Pattern)
  }

  lemma SamePatterns(ts: seq<TopicAsk>, requested: seq<Props>)
    requires AsksFor(ts, requested)
    ensures PatternsOf(ts) == PatternsIn(requested)
  {
    forall p | p in PatternsIn(requested) ensures p in PatternsOf(ts) {
      var i :| 0 <= i < |requested| && Value(requested[i], Pattern) == p;
      assert ts[i] in ts;
    }
  }

  /** What the loop of RegisterTopics did, for some outcome of its store calls. */
  ghost predicate LoopMade(z: Sys, agency: string, requested: seq<Props>, acts: seq<Act>, y: Sys, ok: bool) {
    exists ts :: AsksFor(ts, requested) &&
      if ok then Upserted(z, agency, ts, acts, y) else UpsertedInPart(z, agency, ts, acts, y)
  }

  /** Some outcome of the call's store calls explains its answer. */
  ghost predicate TopicsMade(z: Sys, before: seq<Act>, after: seq<Act>, agency: string, service: string, hash: string,
                             requested: seq<Props>, error: Option<Error>) {
    exists ts :: AsksFor(ts, requested) && Made(z, before, after, AskTopics(agency, service, hash, ts), error, None)
  }

  function AllGood(requested: seq<Props>): seq<TopicAsk> {
    seq(|requested|, i requires 0 <= i < |requested| => TopicAsk(requested[i], true, true))
  }

  lemma TopicsSkipped(z: Sys, before: seq<Act>, agency: string, service: string, hash: string, requested: seq<Props>)
    requires Cached(z.hashes, Key(agency, service)) == hash
    ensures TopicsMade(z, before, before, agency, service, hash, requested, None)
  {
    MadeNothing(z, before, AskTopics(agency, service, hash, AllGood(requested)), None, None);
  }

  lemma TopicsStopped(z: Sys, before: seq<Act>, agency: string, service: string, hash: string, requested: seq<Props>,
                      acts: seq<Act>, y: Sys)
    requires Cached(z.hashes, Key(agency, service)) != hash && LoopMade(z, agency, requested, acts, y, false)
    ensures TopicsMade(z, before, before + acts, agency, service, hash, requested, Some(StoreFault))
  {
    var ts :| AsksFor(ts, requested) && UpsertedInPart(z, agency, ts, acts, y);
    PartAnswers(z, agency, ts, StoredHash(agency, service, hash, PatternsOf(ts)), acts, y);
    assert Happens(z, Exchange(AskTopics(agency, service, hash, ts), acts, Some(StoreFault), None));
  }

  lemma PartAnswers(z: Sys, agency: string, ts: seq<TopicAsk>, done: Act, acts: seq<Act>, y: Sys)
    requires UpsertedInPart(z, agency, ts, acts, y)
    ensures AnswersTopics(z, agency, ts, done, acts, Some(StoreFault)) && Possible(z, acts) && ActsOf(acts, agency)
  {
    var n :| 0 <= n < |ts| && Upserted(z, agency, ts[..n], acts, y) && Stopped(y, agency, ts[n]);
    StopAnswers(y, agency, ts[n..], done);
    UpsertsThen(z, agency, ts[..n], acts, ts[n..], done, [], Some(StoreFault));
    assert ts[..n] + ts[n..] == ts && acts + [] == acts;
  }

  lemma StopAnswers(y: Sys, agency: string, ts: seq<TopicAsk>, done: Act)
    requires ts != [] && Stopped(y, agency, ts[0])
    ensures AnswersTopics(y, agency, ts, done, [], Some(StoreFault))
  {
  }

  lemma TopicsStored(z: Sys, before: seq<Act>, agency: string, service: string, hash: string, requested: seq<Props>,
                     acts: seq<Act>, y: Sys, done: Act)
    requires Cached(z.hashes, Key(agency, service)) != hash && LoopMade(z, agency, requested, acts, y, true)
    requires done == StoredHash(agency, service, hash, PatternsIn(requested)) && Enabled(y, done)
    ensures TopicsMade(z, before, before + acts + [done], agency, service, hash, requested, None)
  {
    var ts :| AsksFor(ts, requested) && Upserted(z, agency, ts, acts, y);
    SamePatterns(ts, requested);
    UpsertsThen(z, agency, ts, acts, [], done, [done], None);
    assert ts + [] == ts;
    RunMore(z, acts, done);
    MadeOf(z, before, AskTopics(agency, service, hash, ts), acts, [done], None);
  }

  // ── RecordEvent, half by half ─────────────────────────────────────────────

  /** From `z` to `y` the topic was looked for, and registered where it was missing; `ok` says if it was found. */
  ghost predicate Finds(z: Sys, agency: string, props: Props, t: TopicAsk, finds: bool, again: bool,
                           acts: seq<Act>, y: Sys, ok: bool) {
    && Possible(z, acts) && ActsOf(acts, agency) && After(z, acts) == y
    && if !finds then acts == [] && !ok
       else if Matching(z.store, OnTopic(agency, props)) != {} then acts == [] && ok
       else if !t.lists || !t.writes then acts == [] && !ok
       else |acts| == 1 && Registers(acts[0], agency, t.props) && (ok <==> again)
  }

  ghost predicate ResolveMade(z: Sys, agency: string, props: Props, lazy: Props, acts: seq<Act>, y: Sys, ok: bool) {
    exists lists, writes, finds, again :: Finds(z, agency, props, TopicAsk(lazy, lists, writes), finds, again, acts, y, ok)
  }

  ghost predicate RecordingMade(y: Sys, agency: string, props: Props, now: string, acts: seq<Act>, error: Option<Error>) {
    Possible(y, acts) && ActsOf(acts, agency) && exists luck :: AnswersRecording(y, agency, props, now, luck, acts, error)
  }

  /** Some outcome of the call's store calls explains its answer. */
  ghost predicate EventMade(z: Sys, before: seq<Act>, after: seq<Act>, agency: string, props: Props, now: string, lazy: Props,
                            error: Option<Error>) {
    exists lists, writes, luck ::
      Made(z, before, after, AskEvent(agency, props, now, TopicAsk(lazy, lists, writes), luck), error, None)
  }

  /** The lookup failed, or the registration did. */
  lemma ResolveFails(z: Sys, agency: string, props: Props, lazy: Props)
    ensures ResolveMade(z, agency, props, lazy, [], z, false)
  {
    assert Finds(z, agency, props, TopicAsk(lazy, true, true), false, true, [], z, false);
  }

  lemma ResolveFinds(z: Sys, agency: string, props: Props, lazy: Props)
    requires Matching(z.store, OnTopic(agency, props)) != {}
    ensures ResolveMade(z, agency, props, lazy, [], z, true)
  {
    assert Finds(z, agency, props, TopicAsk(lazy, true, true), true, true, [], z, true);
  }

  lemma ResolveRegisters(z: Sys, agency: string, props: Props, lazy: Props, a: Act, ok: bool)
    requires Matching(z.store, OnTopic(agency, props)) == {} && Enabled(z, a) && Registers(a, agency, lazy)
    ensures ResolveMade(z, agency, props, lazy, [a], Apply(z, a), ok)
  {
    RunTail(z, [a]);
    assert Finds(z, agency, props, TopicAsk(lazy, true, true), true, ok, [a], Apply(z, a), ok);
  }

  lemma RecordingFails(y: Sys, agency: string, props: Props, now: string)
    ensures RecordingMade(y, agency, props, now, [], Some(StoreFault))
  {
    assert AnswersRecording(y, agency, props, now, Luck(true, true, false, true, true, {}), [], Some(StoreFault));
  }

  lemma RecordingWrites(y: Sys, agency: string, props: Props, now: string, luck: Luck, a: Act)
    requires Enabled(y, a) && RecordsFor(y, a, agency, props, now, luck) && luck.writes
    ensures RecordingMade(y, agency, props, now, [a], None)
  {
    RunTail(y, [a]);
    assert AnswersRecording(y, agency, props, now, luck, [a], None);
  }

  lemma EventStopped(z: Sys, before: seq<Act>, agency: string, props: Props, now: string, lazy: Props, acts: seq<Act>, y: Sys)
    requires ResolveMade(z, agency, props, lazy, acts, y, false)
    ensures EventMade(z, before, before + acts, agency, props, now, lazy, Some(StoreFault))
  {
    var lists, writes, finds, again :|
      Finds(z, agency, props, TopicAsk(lazy, lists, writes), finds, again, acts, y, false);
    var ask := AskEvent(agency, props, now, TopicAsk(lazy, lists, writes), Luck(finds, again, true, true, true, {}));
    assert Happens(z, Exchange(ask, acts, Some(StoreFault), None));
  }

  lemma EventRecorded(z: Sys, before: seq<Act>, agency: string, props: Props, now: string, lazy: Props, acts: seq<Act>, y: Sys,
                      more: seq<Act>, error: Option<Error>)
    requires ResolveMade(z, agency, props, lazy, acts, y, true) && RecordingMade(y, agency, props, now, more, error)
    ensures EventMade(z, before, before + acts + more, agency, props, now, lazy, error)
  {
    var lists, writes, finds, again :|
      Finds(z, agency, props, TopicAsk(lazy, lists, writes), finds, again, acts, y, true);
    var l :| AnswersRecording(y, agency, props, now, l, more, error);
    BothHalvesMade(z, before, agency, props, now, TopicAsk(lazy, lists, writes),
                   Luck(finds, again, l.writes, l.links, l.fansOut, l.lost), acts, y, more, error);
  }

  lemma BothHalvesMade(z: Sys, before: seq<Act>, agency: string, props: Props, now: string, t: TopicAsk, luck: Luck,
                       acts: seq<Act>, y: Sys, more: seq<Act>, error: Option<Error>)
    requires Finds(z, agency, props, t, luck.finds, luck.findsAgain, acts, y, true)
    requires AnswersRecording(y, agency, props, now, luck, more, error) && Possible(y, more) && ActsOf(more, agency)
    ensures Made(z, before, before + acts + more, AskEvent(agency, props, now, t, luck), error, None)
  {
    RecordingJoins(z, agency, props, now, t, luck, acts, y, more, error);
    MadeOf(z, before, AskEvent(agency, props, now, t, luck), acts, more, error);
  }

  lemma RecordingJoins(z: Sys, agency: string, props: Props, now: string, t: TopicAsk, luck: Luck, acts: seq<Act>, y: Sys,
                       more: seq<Act>, error: Option<Error>)
    requires Finds(z, agency, props, t, luck.finds, luck.findsAgain, acts, y, true)
    requires AnswersRecording(y, agency, props, now, luck, more, error) && Possible(y, more) && ActsOf(more, agency)
    ensures AnswersEvent(z, agency, props, now, t, luck, acts + more, error)
    ensures Possible(z, acts + more) && ActsOf(acts + more, agency)
  {
    if acts == [] {
      assert acts + more == more;
    } else {
      RunTail(z, acts);
      assert (acts + more)[1..] == more && acts[1..] == [];
      RunTail(z, acts + more);
    }
  }
}
