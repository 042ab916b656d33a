/**
  Non-interference on requests. In two runs an agency makes the same calls, with the same
  faults; the other agencies do what they like in either. Then it gets the same answers and
  finds the same store, up to a one-to-one renaming of IDs.
 */
module TwoRuns {
  import opened Wrappers
  import opened Text
  import opened EntityStore
  import opened ManagerSpec
  import opened HashCache
  import opened Isolation
  import opened Requests
  import opened Renaming
  import opened Twins
  import Uniqueness

  // ── The same request, the same answer ─────────────────────────────────────

  /** Equal arguments and equal faults, where IDs are called by their partners. */
  ghost predicate SameAsk(r: Pairing, a: Ask, b: Ask) {
    match a
    case AskTopic(_, _) => b == a
    case AskTopics(_, _, _, _) => b == a
    case AskEvent(g, props, now, topic, luck) =>
      b.AskEvent? && b == AskEvent(g, props, now, topic, luck.(lost := b.luck.lost)) &&
      forall u | u in r.to :: u in luck.lost <==> r.to[u] in b.luck.lost
    case AskSubscription(g, props, topicId, lists, writes, links) =>
      b.AskSubscription? && b == AskSubscription(g, props, b.topicId, lists, writes, links) &&
      SameId(r, topicId, b.topicId) && (topicId == "" <==> b.topicId == "")
    case AskStatus(g, id, status, now, writes) =>
      b.AskStatus? && b == AskStatus(g, b.id, status, now, writes) && SameId(r, id, b.id)
    case AskRemoval(g, id, ofTopic, writes) =>
      b.AskRemoval? && b == AskRemoval(g, b.id, ofTopic, writes) && SameId(r, id, b.id)
    case AskDelivered(g, id, now, writes) =>
      b.AskDelivered? && b == AskDelivered(g, b.id, now, writes) && SameId(r, id, b.id)
    case AskAck(g, sub, event, now, lists, writes) =>
      b.AskAck? && b == AskAck(g, b.sub, b.event, now, lists, writes) && SameId(r, sub, b.sub) && SameId(r, event, b.event)
  }

  /** The same error or success, the same changes, the same subscription returned. */
  ghost predicate SameAnswer(q: Pairing, x: Exchange, y: Exchange) {
    y.error == x.error && SameActs(q, x.acts, y.acts) &&
    (x.found.Some? <==> y.found.Some?) && (x.found.Some? ==> Linked(q, x.found.value, y.found.value))
  }

  /** The IDs that two sequences of calls have brought up side by side. */
  ghost function PairRuns(r: Pairing, xs: seq<Exchange>, ys: seq<Exchange>): Pairing
    decreases |xs|
  {
    if xs == [] || ys == [] then r else PairRuns(PairActs(r, xs[0].acts, ys[0].acts), xs[1..], ys[1..])
  }

  /** Call by call the same request, in the names that the calls before it have brought up. */
  ghost predicate SameAsks(r: Pairing, xs: seq<Exchange>, ys: seq<Exchange>)
    decreases |xs|
  {
    |xs| == |ys| &&
    (xs != [] ==> SameAsk(r, xs[0].ask, ys[0].ask) && SameAsks(PairActs(r, xs[0].acts, ys[0].acts), xs[1..], ys[1..]))
  }

  ghost predicate SameAnswers(q: Pairing, xs: seq<Exchange>, ys: seq<Exchange>) {
    |xs| == |ys| && forall i | 0 <= i < |xs| :: SameAnswer(q, xs[i], ys[i])
  }

  lemma SameAnswerGrows(r: Pairing, q: Pairing, x: Exchange, y: Exchange)
    requires Grows(r, q) && SameAnswer(r, x, y)
    ensures SameAnswer(q, x, y)
  {
    forall i | 0 <= i < |x.acts| ensures SameAct(q, x.acts[i], y.acts[i]) {
      SameActGrows(r, q, x.acts[i], y.acts[i]);
    }
  }

  // ── Each kind of call ─────────────────────────────────────────────────────

  lemma TopicInStep(z: Sys, y: Sys, agency: string, r: Pairing, t: TopicAsk, acts: seq<Act>, acts': seq<Act>,
                    error: Option<Error>, error': Option<Error>)
    requires Renamed(z, y, agency, r) && Possible(z, acts) && Possible(y, acts')
    requires AnswersTopic(z, agency, t, acts, error) && AnswersTopic(y, agency, t, acts', error')
    ensures error' == error && InStep(z, y, agency, r, acts, acts')
  {
    ListingsCorrespond(z.store, y.store, agency, r, WithPattern(agency, t.props));
    if acts == [] {
      NothingDone(z, y, agency, r);
    } else {
      OneEach(z, y, agency, r, acts, acts');
    }
  }

  lemma {:induction false} TopicsInStep(z: Sys, y: Sys, agency: string, r: Pairing, ts: seq<TopicAsk>, done: Act,
                                        acts: seq<Act>, acts': seq<Act>, error: Option<Error>, error': Option<Error>)
    requires Renamed(z, y, agency, r) && Possible(z, acts) && Possible(y, acts')
    requires done.StoredHash? && done.agency == agency
    requires AnswersTopics(z, agency, ts, done, acts, error) && AnswersTopics(y, agency, ts, done, acts', error')
    ensures error' == error && InStep(z, y, agency, r, acts, acts')
    decreases |ts|
  {
    if ts == [] {
      OneEach(z, y, agency, r, acts, acts');
    } else {
      var t := ts[0];
      ListingsCorrespond(z.store, y.store, agency, r, WithPattern(agency, t.props));
      if Stopped(z, agency, t) {
        NothingDone(z, y, agency, r);
      } else if Known(z.store, agency, t) {
        TopicsInStep(z, y, agency, r, ts[1..], done, acts, acts', error, error');
      } else {
        FirstThenRest(z, y, agency, r, acts, acts');
        TopicsInStep(Apply(z, acts[0]), Apply(y, acts'[0]), agency, PairAct(r, acts[0], acts'[0]), ts[1..], done,
                     acts[1..], acts'[1..], error, error');
      }
    }
  }

  // ── RecordEvent in step ───────────────────────────────────────────────────

  /** Of the active subscriptions, the same ones lost their delivery. */
  ghost predicate LostAlike(z: Sys, agency: string, topic: string, r: Pairing, lost: set<Id>, lost': set<Id>) {
    forall u | u in Matching(z.store, ActiveSubs(agency, topic)) :: u in r.to && (u in lost <==> r.to[u] in lost')
  }

  lemma DeliveryPropsAlike(p: Pairing, u: Id, v: Id, e: Id, d: Id, now: string)
    requires Linked(p, u, v) && Linked(p, e, d)
    ensures SameProps(p, DeliveryProps(u, e, now), DeliveryProps(v, d, now))
  {
  }

  /** The subscriptions served on one side are the partners of those served on the other. */
  lemma ServedAlike(z: Sys, y: Sys, agency: string, r: Pairing, a: Act, b: Act, topic: string, fansOut: bool,
                    lost: set<Id>, lost': set<Id>)
    requires Renamed(z, y, agency, r) && LostAlike(z, agency, topic, r, lost, lost')
    requires a.RecordedEvent? && b.RecordedEvent? && New(z.store, a.event) && New(y.store, b.event)
    requires DistinctRefs(a.deliveries) && DistinctRefs(b.deliveries)
    requires SubRefs(a.deliveries) == if fansOut then Matching(z.store, ActiveSubs(agency, topic)) - lost else {}
    requires SubRefs(b.deliveries) == if fansOut then Matching(y.store, ActiveSubs(agency, topic)) - lost' else {}
    ensures ServeAlike(a.deliveries, b.deliveries, Pair(r, a.event.id, b.event.id))
  {
    var p, f := Pair(r, a.event.id, b.event.id), ActiveSubs(agency, topic);
    ListingsCorrespond(z.store, y.store, agency, r, f);
    forall u | u in SubRefs(a.deliveries) ensures u in p.to && p.to[u] in SubRefs(b.deliveries) {
      assert u in Matching(z.store, f) && u in r.to && r.to[u] in Matching(y.store, f);
    }
    forall v | v in SubRefs(b.deliveries) ensures v in p.from && p.from[v] in SubRefs(a.deliveries) {
      assert v in Matching(y.store, f) && v in r.from && r.from[v] in Matching(z.store, f);
    }
  }

  lemma PropsFor(ds: seq<Entity>, es: seq<Entity>, p: Pairing, e: Id, d: Id, now: string)
    requires Linked(p, e, d)
    requires forall i | 0 <= i < |ds| :: ds[i].props == DeliveryProps(Get(ds[i], SubscriptionRef), e, now)
    requires forall j | 0 <= j < |es| :: es[j].props == DeliveryProps(Get(es[j], SubscriptionRef), d, now)
    ensures PropsAlike(ds, es, p)
  {
    forall i, j | 0 <= i < |ds| && 0 <= j < |es| &&
      Linked(p, Get(ds[i], SubscriptionRef), Get(es[j], SubscriptionRef))
      ensures SameProps(p, ds[i].props, es[j].props)
    {
      DeliveryPropsAlike(p, Get(ds[i], SubscriptionRef), Get(es[j], SubscriptionRef), e, d, now);
    }
  }

  /** Both events are on the only topic of their name. */
  lemma TopicsLinked(z: Sys, y: Sys, agency: string, r: Pairing, pattern: string, x: Id, x': Id)
    requires Renamed(z, y, agency, r) && Uniqueness.Inv(y.store)
    requires x in Matching(z.store, TopicByPattern(agency, pattern)) && x' in Matching(y.store, TopicByPattern(agency, pattern))
    ensures Linked(r, x, x')
  {
    ListingsCorrespond(z.store, y.store, agency, r, TopicByPattern(agency, pattern));
    Uniqueness.LookupsAreSingle(y.store, agency, "", pattern, "", "");
  }

  lemma FanOutRefs(s: Store, e: Entity, ds: seq<Entity>)
    requires FanOut(s, e, ds)
    ensures DistinctRefs(ds)
  {
  }

  lemma RecordingsAkin(z: Sys, y: Sys, agency: string, r: Pairing, a: Act, b: Act, props: Props, now: string,
                       luck: Luck, lost': set<Id>)
    requires Renamed(z, y, agency, r) && Uniqueness.Inv(y.store) && Enabled(z, a) && Enabled(y, b)
    requires RecordsFor(z, a, agency, props, now, luck) && RecordsFor(y, b, agency, props, now, luck.(lost := lost'))
    requires LostAlike(z, agency, Value(props, EventTopic), r, luck.lost, lost')
    ensures Akin(r, a, b)
  {
    TopicsLinked(z, y, agency, r, Value(props, EventTopic), a.topicId, b.topicId);
    FanOutRefs(z.store, a.event, a.deliveries);
    FanOutRefs(y.store, b.event, b.deliveries);
    ServedAlike(z, y, agency, r, a, b, Value(props, EventTopic), luck.fansOut, luck.lost, lost');
    PropsFor(a.deliveries, b.deliveries, Pair(r, a.event.id, b.event.id), a.event.id, b.event.id, now);
  }

  lemma RecordingInStep(z: Sys, y: Sys, agency: string, r: Pairing, props: Props, now: string, luck: Luck, lost': set<Id>,
                        acts: seq<Act>, acts': seq<Act>, error: Option<Error>, error': Option<Error>)
    requires Renamed(z, y, agency, r) && Uniqueness.Inv(y.store) && Possible(z, acts) && Possible(y, acts')
    requires AnswersRecording(z, agency, props, now, luck, acts, error)
    requires AnswersRecording(y, agency, props, now, luck.(lost := lost'), acts', error')
    requires LostAlike(z, agency, Value(props, EventTopic), r, luck.lost, lost')
    ensures error' == error && InStep(z, y, agency, r, acts, acts')
  {
    if acts == [] {
      NothingDone(z, y, agency, r);
    } else {
      RunTail(z, acts);
      RunTail(y, acts');
      RecordingsAkin(z, y, agency, r, acts[0], acts'[0], props, now, luck, lost');
      OneEach(z, y, agency, r, acts, acts');
    }
  }

  /** A registered topic is no subscription, so the same deliveries are lost as without it. */
  lemma LostStaysAlike(z: Sys, y: Sys, agency: string, topic: string, r: Pairing, lost: set<Id>, lost': set<Id>, a: Act, b: Act)
    requires WellKeyed(z.store) && LostAlike(z, agency, topic, r, lost, lost') && r.to.Keys <= z.store.issued
    requires a.RegisteredTopic? && b.RegisteredTopic? && Enabled(z, a)
    ensures LostAlike(Apply(z, a), agency, topic, PairAct(r, a, b), lost, lost')
  {
    assert Matching(Apply(z, a).store, ActiveSubs(agency, topic)) == Matching(z.store, ActiveSubs(agency, topic));
  }

  lemma EventInStep(z: Sys, y: Sys, agency: string, r: Pairing, props: Props, now: string, t: TopicAsk, luck: Luck,
                    lost': set<Id>, acts: seq<Act>, acts': seq<Act>, error: Option<Error>, error': Option<Error>)
    requires Renamed(z, y, agency, r) && Uniqueness.Inv(y.store) && Possible(z, acts) && Possible(y, acts')
    requires AnswersEvent(z, agency, props, now, t, luck, acts, error)
    requires AnswersEvent(y, agency, props, now, t, luck.(lost := lost'), acts', error')
    requires LostAlike(z, agency, Value(props, EventTopic), r, luck.lost, lost')
    ensures error' == error && InStep(z, y, agency, r, acts, acts')
  {
    ListingsCorrespond(z.store, y.store, agency, r, OnTopic(agency, props));
    if !luck.finds {
      NothingDone(z, y, agency, r);
    } else if Matching(z.store, OnTopic(agency, props)) != {} {
      RecordingInStep(z, y, agency, r, props, now, luck, lost', acts, acts', error, error');
    } else if !t.lists || !t.writes {
      NothingDone(z, y, agency, r);
    } else {
      LazyInStep(z, y, agency, r, props, now, t, luck, lost', acts, acts', error, error');
    }
  }

  /** The case of a missing topic: register it, then record. */
  lemma LazyInStep(z: Sys, y: Sys, agency: string, r: Pairing, props: Props, now: string, t: TopicAsk, luck: Luck,
                   lost': set<Id>, acts: seq<Act>, acts': seq<Act>, error: Option<Error>, error': Option<Error>)
    requires Renamed(z, y, agency, r) && Uniqueness.Inv(y.store) && Possible(z, acts) && Possible(y, acts')
    requires acts != [] && acts' != [] && Registers(acts[0], agency, t.props) && Registers(acts'[0], agency, t.props)
    requires if !luck.findsAgain then |acts| == |acts'| == 1 && error == error'
             else AnswersRecording(Apply(z, acts[0]), agency, props, now, luck, acts[1..], error) &&
                  AnswersRecording(Apply(y, acts'[0]), agency, props, now, luck.(lost := lost'), acts'[1..], error')
    requires LostAlike(z, agency, Value(props, EventTopic), r, luck.lost, lost')
    ensures error' == error && InStep(z, y, agency, r, acts, acts')
  {
    if !luck.findsAgain {
      OneEach(z, y, agency, r, acts, acts');
    } else {
      FirstThenRest(z, y, agency, r, acts, acts');
      LostStaysAlike(z, y, agency, Value(props, EventTopic), r, luck.lost, lost', acts[0], acts'[0]);
      Uniqueness.InvStep(y, acts'[0]);
      RecordingInStep(Apply(z, acts[0]), Apply(y, acts'[0]), agency, PairAct(r, acts[0], acts'[0]), props, now, luck, lost',
                      acts[1..], acts'[1..], error, error');
    }
  }

  // ── The other calls in step ───────────────────────────────────────────────

  lemma SubscriptionInStep(z: Sys, y: Sys, agency: string, r: Pairing, x: Exchange, x': Exchange)
    requires Renamed(z, y, agency, r) && Uniqueness.Inv(y.store) && Possible(z, x.acts) && Possible(y, x'.acts)
    requires x.ask.AskSubscription? && x.ask.agency == agency && SameAsk(r, x.ask, x'.ask) && Answers(z, x) && Answers(y, x')
    ensures x'.error == x.error && InStep(z, y, agency, r, x.acts, x'.acts)
    ensures SameAnswer(PairActs(r, x.acts, x'.acts), x, x')
  {
    var f := WithKey(agency, x.ask.props);
    ListingsCorrespond(z.store, y.store, agency, r, f);
    if x.acts == [] {
      NothingDone(z, y, agency, r);
      Uniqueness.LookupsAreSingle(y.store, agency, Value(x.ask.props, SubscriberService), Value(x.ask.props, TopicPattern), "", "");
    } else {
      OneEach(z, y, agency, r, x.acts, x'.acts);
      assert SameAct(PairActs(r, x.acts, x'.acts), x.acts[0], x'.acts[0]);
    }
  }

  lemma WriteInStep(z: Sys, y: Sys, agency: string, r: Pairing, id: Id, id': Id, writes: bool, a: Act, b: Act,
                    acts: seq<Act>, acts': seq<Act>, error: Option<Error>, error': Option<Error>)
    requires Renamed(z, y, agency, r) && Possible(z, acts) && Possible(y, acts') && SameId(r, id, id')
    requires AgencyOfAct(a) == agency && !Creates(a) && (Linked(r, id, id') ==> SameAct(r, a, b))
    requires AnswersWrite(z, agency, id, writes, a, acts, error) && AnswersWrite(y, agency, id', writes, b, acts', error')
    ensures error' == error && InStep(z, y, agency, r, acts, acts')
  {
    PresentCorresponds(z.store, y.store, agency, r, id, id');
    if acts == [] {
      NothingDone(z, y, agency, r);
    } else {
      OneEach(z, y, agency, r, acts, acts');
    }
  }

  lemma FirstAcked(z: Sys, agency: string, sub: Id, event: Id, now: string, writes: bool, acts: seq<Act>, error: Option<Error>)
      returns (x: Id)
    requires Matching(z.store, DeliveryFor(agency, sub, event)) != {}
    requires AnswersAck(z, agency, sub, event, now, true, writes, acts, error)
    ensures x in Matching(z.store, DeliveryFor(agency, sub, event))
    ensures AcksOne(agency, x, Get(z.store.entities[x], Status), now, writes, acts, error)
  {
    x :| x in Matching(z.store, DeliveryFor(agency, sub, event)) &&
         AcksOne(agency, x, Get(z.store.entities[x], Status), now, writes, acts, error);
  }

  lemma AckInStep(z: Sys, y: Sys, agency: string, r: Pairing, sub: Id, event: Id, sub': Id, event': Id, now: string,
                  lists: bool, writes: bool, acts: seq<Act>, acts': seq<Act>, error: Option<Error>, error': Option<Error>)
    requires Renamed(z, y, agency, r) && Uniqueness.Inv(y.store) && Possible(z, acts) && Possible(y, acts')
    requires SameId(r, sub, sub') && SameId(r, event, event')
    requires AnswersAck(z, agency, sub, event, now, lists, writes, acts, error)
    requires AnswersAck(y, agency, sub', event', now, lists, writes, acts', error')
    ensures error' == error && InStep(z, y, agency, r, acts, acts')
  {
    var f, g := DeliveryFor(agency, sub, event), DeliveryFor(agency, sub', event');
    DeliveriesCorrespond(z.store, y.store, agency, r, sub, event, sub', event');
    if !lists || Matching(z.store, f) == {} {
      NothingDone(z, y, agency, r);
    } else {
      var x := FirstAcked(z, agency, sub, event, now, writes, acts, error);
      var x' := FirstAcked(y, agency, sub', event', now, writes, acts', error');
      PairLinked(z, y, agency, r, sub, event, sub', event', x, x');
      FirstInStep(z, y, agency, r, x, x', Get(z.store.entities[x], Status), now, writes, acts, acts', error, error');
    }
  }

  /** The only delivery of a pair on each side: they are partners, of one status. */
  lemma PairLinked(z: Sys, y: Sys, agency: string, r: Pairing, sub: Id, event: Id, sub': Id, event': Id, x: Id, x': Id)
    requires Renamed(z, y, agency, r) && Uniqueness.Inv(y.store) && SameId(r, sub, sub') && SameId(r, event, event')
    requires x in Matching(z.store, DeliveryFor(agency, sub, event)) && x' in Matching(y.store, DeliveryFor(agency, sub', event'))
    ensures Linked(r, x, x') && Get(z.store.entities[x], Status) == Get(y.store.entities[x'], Status)
  {
    DeliveriesCorrespond(z.store, y.store, agency, r, sub, event, sub', event');
    Uniqueness.LookupsAreSingle(y.store, agency, "", "", sub', event');
    assert Present(z.store, agency, x);
    StatusOfTwin(r, z.store.entities[x], y.store.entities[x']);
  }

  lemma FirstInStep(z: Sys, y: Sys, agency: string, r: Pairing, x: Id, x': Id, status: string, now: string, writes: bool,
                    acts: seq<Act>, acts': seq<Act>, error: Option<Error>, error': Option<Error>)
    requires Renamed(z, y, agency, r) && Possible(z, acts) && Possible(y, acts') && Linked(r, x, x')
    requires AcksOne(agency, x, status, now, writes, acts, error) && AcksOne(agency, x', status, now, writes, acts', error')
    ensures error' == error && InStep(z, y, agency, r, acts, acts')
  {
    if acts == [] {
      NothingDone(z, y, agency, r);
    } else {
      OneEach(z, y, agency, r, acts, acts');
    }
  }

  lemma StatusOfTwin(r: Pairing, e: Entity, d: Entity)
    requires Twin(r, e, d)
    ensures Get(e, Status) == Get(d, Status)
  {
    assert !IsRef(Status);
  }

  // ── Any call, any run ─────────────────────────────────────────────────────

  lemma NothingFound(z: Sys, y: Sys, agency: string, r: Pairing, x: Exchange, x': Exchange)
    requires x'.error == x.error && x.found == x'.found == None && InStep(z, y, agency, r, x.acts, x'.acts)
    ensures SameAnswer(PairActs(r, x.acts, x'.acts), x, x')
  {
  }

  lemma GivenInStep(z: Sys, y: Sys, agency: string, r: Pairing, x: Exchange, x': Exchange)
    requires Renamed(z, y, agency, r) && Possible(z, x.acts) && Possible(y, x'.acts) && Answers(z, x) && Answers(y, x')
    requires WritesGiven(x.ask) && x.ask.agency == agency && SameAsk(r, x.ask, x'.ask)
    ensures x'.error == x.error && InStep(z, y, agency, r, x.acts, x'.acts)
  {
    WriteInStep(z, y, agency, r, x.ask.id, x'.ask.id, x.ask.writes, WriteOf(x.ask), WriteOf(x'.ask),
                x.acts, x'.acts, x.error, x'.error);
  }

  lemma RequestedEventInStep(z: Sys, y: Sys, agency: string, r: Pairing, x: Exchange, x': Exchange)
    requires Renamed(z, y, agency, r) && Uniqueness.Inv(y.store) && Possible(z, x.acts) && Possible(y, x'.acts)
    requires x.ask.AskEvent? && x.ask.agency == agency && SameAsk(r, x.ask, x'.ask) && Answers(z, x) && Answers(y, x')
    ensures x'.error == x.error && InStep(z, y, agency, r, x.acts, x'.acts)
  {
    var a := x.ask;
    PartnersListed(z.store, y.store, agency, r, ActiveSubs(agency, Value(a.props, EventTopic)));
    EventInStep(z, y, agency, r, a.props, a.now, a.topic, a.luck, x'.ask.luck.lost, x.acts, x'.acts, x.error, x'.error);
  }

  /** The same request gets the same answer from mirrored stores, and leaves them mirrored. */
  lemma ExchangeInStep(z: Sys, y: Sys, agency: string, r: Pairing, x: Exchange, x': Exchange)
    requires Renamed(z, y, agency, r) && Uniqueness.Inv(y.store) && Possible(z, x.acts) && Possible(y, x'.acts)
    requires Answers(z, x) && Answers(y, x') && x.ask.agency == agency && SameAsk(r, x.ask, x'.ask)
    ensures SameAnswer(PairActs(r, x.acts, x'.acts), x, x') && InStep(z, y, agency, r, x.acts, x'.acts)
  {
    if x.ask.AskSubscription? {
      SubscriptionInStep(z, y, agency, r, x, x');
    } else {
      if x.ask.AskTopic? {
        TopicInStep(z, y, agency, r, x.ask.topic, x.acts, x'.acts, x.error, x'.error);
      } else if x.ask.AskTopics? {
        HashedInStep(z, y, agency, r, x, x');
      } else if x.ask.AskEvent? {
        RequestedEventInStep(z, y, agency, r, x, x');
      } else if x.ask.AskAck? {
        AckInStep(z, y, agency, r, x.ask.sub, x.ask.event, x'.ask.sub, x'.ask.event, x.ask.now, x.ask.lists, x.ask.writes,
                  x.acts, x'.acts, x.error, x'.error);
      } else {
        GivenInStep(z, y, agency, r, x, x');
      }
      NothingFound(z, y, agency, r, x, x');
    }
  }

  lemma HashedInStep(z: Sys, y: Sys, agency: string, r: Pairing, x: Exchange, x': Exchange)
    requires Renamed(z, y, agency, r) && Possible(z, x.acts) && Possible(y, x'.acts)
    requires x.ask.AskTopics? && x.ask.agency == agency && x'.ask == x.ask && Answers(z, x) && Answers(y, x')
    ensures x'.error == x.error && InStep(z, y, agency, r, x.acts, x'.acts)
  {
    var key := Key(agency, x.ask.service);
    if Cached(z.hashes, key) == x.ask.hash {
      NothingDone(z, y, agency, r);
    } else {
      TopicsInStep(z, y, agency, r, x.ask.topics,
                   StoredHash(agency, x.ask.service, x.ask.hash, PatternsOf(x.ask.topics)),
                   x.acts, x'.acts, x.error, x'.error);
    }
  }

  /** What a call of another agency does is invisible. */
  lemma {:induction false} OthersActs(z: Sys, acts: seq<Act>, other: string, agency: string)
    requires WellKeyed(z.store) && Possible(z, acts) && ActsOf(acts, other) && other != agency && KeysApart(agency, other)
    ensures Alike(After(z, acts), z, agency)
  {
    if acts != [] {
      var init, a := acts[..|acts| - 1], acts[|acts| - 1];
      OthersActs(z, init, other, agency);
      OthersInvisible(After(z, init), z, a, agency);
    }
  }

  /** No other agency's cache keys can be this one's. */
  predicate ApartFrom(xs: seq<Exchange>, agency: string) {
    forall i | 0 <= i < |xs| :: KeysApart(agency, xs[i].ask.agency)
  }

  /** The claim of the theorem, for runs from two stores that mirror each other. */
  ghost predicate Agree(z: Sys, xs: seq<Exchange>, y: Sys, ys: seq<Exchange>, agency: string, r: Pairing) {
    var p, p' := Own(xs, agency), Own(ys, agency);
    var q := PairRuns(r, p, p');
    Grows(r, q) && SameAnswers(q, p, p') && Renamed(End(z, xs), End(y, ys), agency, q)
  }

  /** Two runs from mirrored stores in which the agency makes the same calls. */
  ghost predicate Parallel(z: Sys, xs: seq<Exchange>, y: Sys, ys: seq<Exchange>, agency: string, r: Pairing) {
    && Renamed(z, y, agency, r) && Uniqueness.Inv(z.store) && Uniqueness.Inv(y.store)
    && Goes(z, xs) && Goes(y, ys) && ApartFrom(xs, agency) && ApartFrom(ys, agency)
    && SameAsks(r, Own(xs, agency), Own(ys, agency))
  }

  lemma SkipOther(z: Sys, xs: seq<Exchange>, y: Sys, agency: string, r: Pairing)
    requires Renamed(z, y, agency, r) && Uniqueness.Inv(z.store) && Goes(z, xs) && ApartFrom(xs, agency)
    requires xs != [] && xs[0].ask.agency != agency
    ensures Renamed(After(z, xs[0].acts), y, agency, r) && Uniqueness.Inv(After(z, xs[0].acts).store)
    ensures Own(xs, agency) == Own(xs[1..], agency) && ApartFrom(xs[1..], agency)
  {
    OthersActs(z, xs[0].acts, xs[0].ask.agency, agency);
    OthersMirrored(z, y, After(z, xs[0].acts), agency, r);
    Uniqueness.ReachableInv(z, xs[0].acts);
  }

  lemma SkipLeft(z: Sys, xs: seq<Exchange>, y: Sys, ys: seq<Exchange>, agency: string, r: Pairing)
    requires Parallel(z, xs, y, ys, agency, r) && xs != [] && xs[0].ask.agency != agency
    ensures Parallel(After(z, xs[0].acts), xs[1..], y, ys, agency, r)
    ensures Agree(After(z, xs[0].acts), xs[1..], y, ys, agency, r) ==> Agree(z, xs, y, ys, agency, r)
  {
    SkipOther(z, xs, y, agency, r);
  }

  lemma RenamedFlip(z: Sys, y: Sys, agency: string, r: Pairing)
    requires Renamed(z, y, agency, r)
    ensures Renamed(y, z, agency, Flip(r))
  {
    MirroredFlip(z.store, y.store, agency, r);
  }

  lemma SkipRight(z: Sys, xs: seq<Exchange>, y: Sys, ys: seq<Exchange>, agency: string, r: Pairing)
    requires Parallel(z, xs, y, ys, agency, r) && ys != [] && ys[0].ask.agency != agency
    ensures Parallel(z, xs, After(y, ys[0].acts), ys[1..], agency, r)
    ensures Agree(z, xs, After(y, ys[0].acts), ys[1..], agency, r) ==> Agree(z, xs, y, ys, agency, r)
  {
    RenamedFlip(z, y, agency, r);
    SkipOther(y, ys, z, agency, Flip(r));
    RenamedFlip(After(y, ys[0].acts), z, agency, Flip(r));
    assert Flip(Flip(r)) == r;
  }

  /** The agency's next call on both sides, then the rest. */
  lemma BothStep(z: Sys, xs: seq<Exchange>, y: Sys, ys: seq<Exchange>, agency: string, r: Pairing)
    requires Parallel(z, xs, y, ys, agency, r) && xs != [] && ys != [] && xs[0].ask.agency == ys[0].ask.agency == agency
    ensures var p := PairActs(r, xs[0].acts, ys[0].acts);
            Parallel(After(z, xs[0].acts), xs[1..], After(y, ys[0].acts), ys[1..], agency, p) &&
            (Agree(After(z, xs[0].acts), xs[1..], After(y, ys[0].acts), ys[1..], agency, p) ==> Agree(z, xs, y, ys, agency, r))
  {
    var p := PairActs(r, xs[0].acts, ys[0].acts);
    OwnFirst(xs, agency);
    OwnFirst(ys, agency);
    ExchangeInStep(z, y, agency, r, xs[0], ys[0]);
    Uniqueness.ReachableInv(z, xs[0].acts);
    Uniqueness.ReachableInv(y, ys[0].acts);
    if Agree(After(z, xs[0].acts), xs[1..], After(y, ys[0].acts), ys[1..], agency, p) {
      AgreeFirst(z, xs, y, ys, agency, r, p);
    }
  }

  lemma OwnFirst(xs: seq<Exchange>, agency: string)
    requires xs != [] && xs[0].ask.agency == agency
    ensures Own(xs, agency) != [] && Own(xs, agency)[0] == xs[0] && Own(xs, agency)[1..] == Own(xs[1..], agency)
  {
  }

  lemma AgreeFirst(z: Sys, xs: seq<Exchange>, y: Sys, ys: seq<Exchange>, agency: string, r: Pairing, p: Pairing)
    requires xs != [] && ys != [] && xs[0].ask.agency == ys[0].ask.agency == agency
    requires p == PairActs(r, xs[0].acts, ys[0].acts) && Grows(r, p) && SameAnswer(p, xs[0], ys[0])
    requires Agree(After(z, xs[0].acts), xs[1..], After(y, ys[0].acts), ys[1..], agency, p)
    ensures Agree(z, xs, y, ys, agency, r)
  {
    var o, o' := Own(xs, agency), Own(ys, agency);
    var q := PairRuns(r, o, o');
    OwnFirst(xs, agency);
    OwnFirst(ys, agency);
    GrowsTransitive(r, p, q);
    SameAnswerGrows(p, q, xs[0], ys[0]);
    ConsSameAnswers(q, o, o');
  }

  lemma ConsSameAnswers(q: Pairing, o: seq<Exchange>, o': seq<Exchange>)
    requires o != [] && o' != [] && SameAnswer(q, o[0], o'[0]) && SameAnswers(q, o[1..], o'[1..])
    ensures SameAnswers(q, o, o')
  {
    forall i | 0 <= i < |o| ensures SameAnswer(q, o[i], o'[i]) {
      if i > 0 {
        assert o[1..][i - 1] == o[i] && o'[1..][i - 1] == o'[i];
      }
    }
  }

  lemma BothDone(z: Sys, xs: seq<Exchange>, y: Sys, ys: seq<Exchange>, agency: string, r: Pairing)
    requires Parallel(z, xs, y, ys, agency, r) && (xs == [] || ys == [])
    requires (xs != [] ==> xs[0].ask.agency == agency) && (ys != [] ==> ys[0].ask.agency == agency)
    ensures Agree(z, xs, y, ys, agency, r)
  {
    assert xs == ys == [];
  }

  lemma {:induction false} ParallelAgree(z: Sys, xs: seq<Exchange>, y: Sys, ys: seq<Exchange>, agency: string, r: Pairing)
    requires Parallel(z, xs, y, ys, agency, r)
    ensures Agree(z, xs, y, ys, agency, r)
    decreases |xs| + |ys|
  {
    if xs != [] && xs[0].ask.agency != agency {
      SkipLeft(z, xs, y, ys, agency, r);
      ParallelAgree(After(z, xs[0].acts), xs[1..], y, ys, agency, r);
    } else if ys != [] && ys[0].ask.agency != agency {
      SkipRight(z, xs, y, ys, agency, r);
      ParallelAgree(z, xs, After(y, ys[0].acts), ys[1..], agency, r);
    } else if xs != [] && ys != [] {
      BothStep(z, xs, y, ys, agency, r);
      ParallelAgree(After(z, xs[0].acts), xs[1..], After(y, ys[0].acts), ys[1..], agency, PairActs(r, xs[0].acts, ys[0].acts));
    } else {
      BothDone(z, xs, y, ys, agency, r);
    }
  }

  /**
    Two-run non-interference. From one store, let an agency make the same calls in two runs,
    with the same faults and with IDs under the names each run gave them, while all other
    agencies do anything. Then each call gets the same answer in both: the same error or
    success, the same changes and the same subscription returned, up to one one-to-one
    renaming of IDs; and the agency's part of the two final stores and its cached hashes are
    the same up to that renaming.
   */
  lemma NonInterference(z: Sys, xs: seq<Exchange>, ys: seq<Exchange>, agency: string) returns (q: Pairing)
    requires Uniqueness.Inv(z.store) && Goes(z, xs) && Goes(z, ys) && ApartFrom(xs, agency) && ApartFrom(ys, agency)
    requires SameAsks(Identity(z.store.issued), Own(xs, agency), Own(ys, agency))
    ensures Paired(q) && SameAnswers(q, Own(xs, agency), Own(ys, agency))
    ensures Renamed(End(z, xs), End(z, ys), agency, q)
    ensures forall x | x in z.store.issued :: Linked(q, x, x)
  {
    var r := Identity(z.store.issued);
    MirrorsItself(z.store, agency);
    ParallelAgree(z, xs, z, ys, agency, r);
    q := PairRuns(r, Own(xs, agency), Own(ys, agency));
    assert forall x | x in r.to :: Linked(q, x, r.to[x]);
  }
}
