/**
  The event manager: lazily registered topics, recorded events fanned out to pending
  deliveries, subscriptions, and two in-memory caches in front of the store. Each method is
  proved, under an arbitrary fault schedule, against the acts of `ManagerSpec`.
 */
module Manager {
  import opened Wrappers
  import opened Text
  import opened EntityStore
  import opened EventLog
  import opened ManagerSpec
  import opened HashCache
  import opened Requests
  import DeliveryLife
  import Uniqueness

  datatype TopicRequest =
    TopicRequest(pattern: string, domain: string, action: string, service: string, description: string)

  datatype EventRequest =
    EventRequest(topic: string, domain: string, agencyOf: string, action: string, payload: string,
                 service: string, publishedAt: string)

  datatype SubscribeRequest =
    SubscribeRequest(subscriberId: string, service: string, pattern: string, topicId: string)

  datatype EventQuery =
    EventQuery(domain: string, agencyOf: string, action: string, limit: int, fence: string)

  function TopicProps(req: TopicRequest, now: string): Props {
    map[Pattern := req.pattern, Domain := req.domain, Action := req.action, SourceService := req.service,
        Description := req.description, CreatedAt := now, UpdatedAt := now]
  }

  /** The topic `t` is as `req` asks for. */
  predicate TopicAsked(t: Entity, agency: string, req: TopicRequest, now: string) {
    && t.kind == TopicKind && t.agency == agency
    && t.props.Keys == {Pattern, Domain, Action, SourceService, Description, CreatedAt, UpdatedAt}
    && KeyIs(t, Pattern, req.pattern) && KeyIs(t, Domain, req.domain) && KeyIs(t, Action, req.action)
    && KeyIs(t, SourceService, req.service) && KeyIs(t, Description, req.description)
    && KeyIs(t, CreatedAt, now) && KeyIs(t, UpdatedAt, now)
  }

  lemma TopicStored(t: Entity, agency: string, req: TopicRequest, now: string)
    requires t == Entity(t.id, agency, TopicKind, TopicProps(req, now))
    ensures TopicAsked(t, agency, req, now)
  {
  }

  /** The topic `t` is as the first event on it registers it. */
  predicate LazyTopic(t: Entity, agency: string, req: EventRequest, now: string) {
    && t.kind == TopicKind && t.agency == agency
    && KeyIs(t, Pattern, req.topic) && KeyIs(t, Domain, req.domain) && KeyIs(t, Action, req.action)
    && KeyIs(t, SourceService, req.service) && KeyIs(t, Description, "")
    && KeyIs(t, CreatedAt, now) && KeyIs(t, UpdatedAt, now)
  }

  /** The event `e` is as `req` asks for; without a time of publication it is published at `now`. */
  predicate EventAsked(e: Entity, agency: string, req: EventRequest, now: string) {
    && e.kind == EventKind && e.agency == agency
    && e.props.Keys == {EventTopic, Domain, AgencyOf, Action, Payload, SourceService, PublishedAt, CreatedAt}
    && KeyIs(e, EventTopic, req.topic) && KeyIs(e, Domain, req.domain) && KeyIs(e, AgencyOf, req.agencyOf)
    && KeyIs(e, Action, req.action) && KeyIs(e, Payload, req.payload) && KeyIs(e, SourceService, req.service)
    && KeyIs(e, PublishedAt, if req.publishedAt != "" then req.publishedAt else now) && KeyIs(e, CreatedAt, now)
  }

  lemma EventStored(e: Entity, agency: string, req: EventRequest, now: string)
    requires e == Entity(e.id, agency, EventKind, EventProps(req, now))
    ensures EventAsked(e, agency, req, now)
  {
  }

  /** The subscription `u` is as `req` asks for, and active. */
  predicate SubAsked(u: Entity, agency: string, req: SubscribeRequest, now: string) {
    && u.kind == SubscriptionKind && u.agency == agency
    && u.props.Keys == {SubscriberId, SubscriberService, TopicPattern, Status, CreatedAt, UpdatedAt}
    && KeyIs(u, SubscriberId, req.subscriberId) && KeyIs(u, SubscriberService, req.service)
    && KeyIs(u, TopicPattern, req.pattern) && KeyIs(u, Status, "active")
    && KeyIs(u, CreatedAt, now) && KeyIs(u, UpdatedAt, now)
  }

  lemma SubStored(u: Entity, agency: string, req: SubscribeRequest, now: string)
    requires u == Entity(u.id, agency, SubscriptionKind, SubProps(req, now))
    ensures SubAsked(u, agency, req, now)
  {
  }

  /** The delivery `d` is a new one of the event to the subscription. */
  predicate DeliveryAsked(d: Entity, agency: string, sub: Id, event: Id, now: string) {
    && d.kind == DeliveryKind && d.agency == agency
    && d.props.Keys == {SubscriptionRef, EventRef, Status, CreatedAt, UpdatedAt}
    && KeyIs(d, SubscriptionRef, sub) && KeyIs(d, EventRef, event) && KeyIs(d, Status, "pending")
    && KeyIs(d, CreatedAt, now) && KeyIs(d, UpdatedAt, now)
  }

  lemma DeliveryStored(d: Entity, agency: string, sub: Id, event: Id, now: string)
    requires d.kind == DeliveryKind && d.agency == agency && d.props == DeliveryProps(sub, event, now)
    ensures DeliveryAsked(d, agency, sub, event, now)
  {
  }

  lemma EventPropsKeyed(req: EventRequest, now: string)
    ensures EventTopic in EventProps(req, now) && EventProps(req, now)[EventTopic] == req.topic
  {
  }

  lemma TopicPropsKeyed(req: TopicRequest, now: string)
    ensures Pattern in TopicProps(req, now) && TopicProps(req, now)[Pattern] == req.pattern
  {
  }

  function EventProps(req: EventRequest, now: string): Props {
    map[EventTopic := req.topic, Domain := req.domain, AgencyOf := req.agencyOf, Action := req.action,
        Payload := req.payload, SourceService := req.service,
        PublishedAt := if req.publishedAt == "" then now else req.publishedAt, CreatedAt := now]
  }

  /** The registration that a first event makes for its topic. */
  function LazyRequest(req: EventRequest): TopicRequest {
    TopicRequest(req.topic, req.domain, req.action, req.service, "")
  }

  function LazyProps(req: EventRequest, now: string): Props {
    TopicProps(LazyRequest(req), now)
  }

  function SubProps(req: SubscribeRequest, now: string): Props {
    map[SubscriberId := req.subscriberId, SubscriberService := req.service, TopicPattern := req.pattern,
        Status := ACTIVE, CreatedAt := now, UpdatedAt := now]
  }

  lemma SubPropsKeyed(req: SubscribeRequest, now: string)
    ensures var p := SubProps(req, now);
            SubscriberService in p && p[SubscriberService] == req.service &&
            TopicPattern in p && p[TopicPattern] == req.pattern && Status in p && p[Status] == ACTIVE
  {
  }

  function Optional(p: Prop, v: string): Props {
    if v == "" then map[] else map[p := v]
  }

  /** The store filter of ListEvents: empty fields filter nothing. */
  function EventsBy(agency: string, q: EventQuery): Filter {
    Filter(agency, EventKind, Optional(Domain, q.domain) + Optional(AgencyOf, q.agencyOf) + Optional(Action, q.action))
  }

  lemma EventsByMatches(e: Entity, agency: string, q: EventQuery)
    ensures Matches(e, EventsBy(agency, q)) <==>
            e.agency == agency && e.kind == EventKind &&
            (q.domain == "" || KeyIs(e, Domain, q.domain)) && (q.agencyOf == "" || KeyIs(e, AgencyOf, q.agencyOf)) &&
            (q.action == "" || KeyIs(e, Action, q.action))
  {
    var f := EventsBy(agency, q).props;
    assert q.domain != "" ==> Domain in f && f[Domain] == q.domain;
    assert q.agencyOf != "" ==> AgencyOf in f && f[AgencyOf] == q.agencyOf;
    assert q.action != "" ==> Action in f && f[Action] == q.action;
    assert forall p | p in f :: p == Domain || p == AgencyOf || p == Action;
  }

  /** The events of the agency with these properties; an empty one does not matter. */
  function EventsOf(s: Store, agency: string, domain: string, agencyOf: string, action: string): set<Id> {
    set x | x in s.entities && s.entities[x].kind == EventKind && s.entities[x].agency == agency &&
            (domain == "" || KeyIs(s.entities[x], Domain, domain)) &&
            (agencyOf == "" || KeyIs(s.entities[x], AgencyOf, agencyOf)) &&
            (action == "" || KeyIs(s.entities[x], Action, action))
  }

  lemma EventsFilter(s: Store, agency: string, q: EventQuery)
    ensures Matching(s, EventsBy(agency, q)) == EventsOf(s, agency, q.domain, q.agencyOf, q.action)
  {
    forall x | x in s.entities
      ensures Matches(s.entities[x], EventsBy(agency, q)) <==> x in EventsOf(s, agency, q.domain, q.agencyOf, q.action)
    {
      EventsByMatches(s.entities[x], agency, q);
    }
  }

  /** The listed subscriptions whose delivery, from store call `n` on, could be created. */
  function Served(subs: seq<Entity>, faults: nat -> bool, n: nat): set<Id> {
    set i | 0 <= i < |subs| && !faults(n + i) :: subs[i].id
  }

  /**
    Store call `n` looked the active subscribers up, in some order, and the calls after it
    created their deliveries, each unless it failed.
   */
  ghost predicate Reaches(ds: seq<Entity>, active: set<Id>, faults: nat -> bool, n: nat) {
    if faults(n) then ds == []
    else exists subs: seq<Entity> ::
      DistinctIds(subs) && Ids(subs) == active && SubRefs(ds) == Served(subs, faults, n + 1)
  }

  /** `a` records `e` for `req` on store `s`; store call `n` created the event. */
  ghost predicate Records(a: Act, agency: string, req: EventRequest, now: string, e: Entity, s: Store,
                          faults: nat -> bool, n: nat) {
    && a.RecordedEvent? && a.event == e && e == Entity(e.id, agency, EventKind, EventProps(req, now))
    && (a.linked <==> !faults(n + 1)) && WrittenFor(a.deliveries, e.id, now)
    && Reaches(a.deliveries, ActiveOn(s, agency, req.topic), faults, n + 2)
  }

  /** What a recording leaves: the event, its edge if it was linked, its deliveries, and all there was before. */
  ghost predicate RecordingLeaves(a: Act, s: Store, t: Store, now: string) {
    && a.RecordedEvent? && InStore(t, a.event)
    && (forall i | 0 <= i < |a.deliveries| ::
          InStore(t, a.deliveries[i]) &&
          DeliveryAsked(a.deliveries[i], a.event.agency, Get(a.deliveries[i], SubscriptionRef), a.event.id, now))
    && (forall i, j | 0 <= i < j < |a.deliveries| ::
          Get(a.deliveries[i], SubscriptionRef) != Get(a.deliveries[j], SubscriptionRef))
    && (forall x | x in s.entities :: x in t.entities && t.entities[x] == s.entities[x])
    && t.edges == s.edges + if a.linked then [Edge(a.event.agency, "for_topic", a.event.id, a.topicId)] else []
  }

  lemma RecordingLeft(z: Sys, a: Act, now: string)
    requires WellKeyed(z.store) && Enabled(z, a) && a.RecordedEvent? && WrittenFor(a.deliveries, a.event.id, now)
    ensures RecordingLeaves(a, z.store, Apply(z, a).store, now)
  {
    var w := WithEvent(z.store, a.event, a.topicId, a.linked);
    DeliveryLife.FanOutNew(z.store, a.event, a.deliveries);
    PutAllContents(w, a.deliveries);
    forall i | 0 <= i < |a.deliveries|
      ensures DeliveryAsked(a.deliveries[i], a.event.agency, Get(a.deliveries[i], SubscriptionRef), a.event.id, now)
    {
      var d := a.deliveries[i];
      assert IsPending(d, a.event.agency, a.event.id);
      DeliveryStored(d, a.event.agency, Get(d, SubscriptionRef), a.event.id, now);
    }
  }

  /** Every topic among the new acts is one that a first event registers. */
  ghost predicate TopicsLazy(before: seq<Act>, after: seq<Act>, agency: string, req: EventRequest, now: string) {
    forall i | |before| <= i < |after| && after[i].RegisteredTopic? :: LazyTopic(after[i].topic, agency, req, now)
  }

  lemma OnlyLazyTopics(before: seq<Act>, after: seq<Act>, agency: string, req: EventRequest, now: string)
    requires OnlyTopic(before, after, agency, LazyProps(req, now))
    ensures TopicsLazy(before, after, agency, req, now)
  {
    if after != before {
      TopicStored(after[|before|].topic, agency, LazyRequest(req), now);
    }
  }

  /** A recorded event as asked for, its topic too if it was new, and nothing else but its deliveries and edge. */
  ghost predicate RecordedAsAsked(before: seq<Act>, after: seq<Act>, e: Entity, s: Store, t: Store, agency: string,
                                  req: EventRequest, now: string) {
    exists a: Act ::
      after != [] && after[|after| - 1] == a && a.RecordedEvent? && a.event == e && RecordingLeaves(a, s, t, now) &&
      EventAsked(e, agency, req, now) && TopicsLazy(before, after, agency, req, now)
  }

  lemma TopicThenRecording(before: seq<Act>, mid: seq<Act>, after: seq<Act>, s: Store, y: Store, t: Store, a: Act,
                           agency: string, req: EventRequest, now: string)
    requires WellKeyed(s) && AtMostATopic(before, mid, s, y, agency, LazyProps(req, now)) && RecordingLeaves(a, y, t, now)
    requires a.event == Entity(a.event.id, agency, EventKind, EventProps(req, now)) && after == mid + [a]
    ensures RecordedAsAsked(before, after, a.event, s, t, agency, req, now)
  {
    OnlyLazyTopics(before, mid, agency, req, now);
    EventStored(a.event, agency, req, now);
    forall i | |before| <= i < |after| && after[i].RegisteredTopic? ensures LazyTopic(after[i].topic, agency, req, now) {
      assert after[i] == mid[i];
    }
  }

  /** None of the three store calls from `n` on fails. */
  predicate RegisterGoes(faults: nat -> bool, n: nat) {
    !faults(n) && !faults(n + 1) && !faults(n + 2)
  }

  /** The store calls from `n` on that find a topic, or register a missing one and find it, all succeed. */
  predicate Resolves(faults: nat -> bool, n: nat, known: bool) {
    !faults(n) && (known || RegisterGoes(faults, n + 1))
  }

  /** From `before` to `after` there are only requested registrations, and a hash taken over. */
  ghost predicate OnlyRegistrations(before: seq<Act>, after: seq<Act>, agency: string, requested: set<Props>) {
    |before| <= |after| && after[..|before|] == before &&
    forall i | |before| <= i < |after| ::
      (after[i].StoredHash? || (after[i].RegisteredTopic? && after[i].topic.props in requested)) &&
      AgencyOfAct(after[i]) == agency
  }

  /** The topic a new subscription is linked to: the one given, unless store call `n` fails. */
  function LinkTo(topicId: string, faults: nat -> bool, n: nat): Option<Id> {
    if topicId == "" || faults(n) then None else Some(topicId)
  }

  /** `after` is `before`, or `before` and then the registration of a topic with `props`. */
  predicate OnlyTopic(before: seq<Act>, after: seq<Act>, agency: string, props: Props) {
    after == before ||
    (|after| == |before| + 1 && after[..|before|] == before && after[|before|].RegisteredTopic? &&
     var t := after[|before|].topic; t == Entity(t.id, agency, TopicKind, props))
  }

  /** From acts `before` and store `s` at most one topic, with `props`, was created, and nothing else happened. */
  predicate AtMostATopic(before: seq<Act>, after: seq<Act>, s: Store, t: Store, agency: string, props: Props) {
    OnlyTopic(before, after, agency, props) &&
    if after == before then t == s else New(s, after[|before|].topic) && t == Put(s, after[|before|].topic)
  }

  lemma TopicHidesNoSub(before: seq<Act>, after: seq<Act>, s: Store, t: Store, agency: string, req: EventRequest, now: string)
    requires WellKeyed(s) && AtMostATopic(before, after, s, t, agency, LazyProps(req, now))
    ensures ActiveOn(t, agency, req.topic) == ActiveOn(s, agency, req.topic)
  {
    if after != before {
      SubsOutlivePut(s, after[|before|].topic, agency, req.topic);
    }
  }

  /**
    What Subscribe means: an existing subscription is returned and nothing changes, a missing
    one is created with the given link, a failure changes nothing.
   */
  ghost predicate ListElseCreate(agency: string, req: SubscribeRequest, now: string, r: Result<Entity>, s: Store, t: Store,
                                 done: seq<Act>, link: Option<Id>) {
    var existing := SubsKeyed(s, agency, req.service, req.pattern);
    if r.Failure? then done == [] && t == s
    else if existing != {} then
      r.value.id in existing && r.value == s.entities[r.value.id] && done == [] && t == s
    else
      r.value == Entity(r.value.id, agency, SubscriptionKind, SubProps(req, now)) && New(s, r.value) &&
      done == [Subscribed(r.value, link)] && t == WithSub(s, r.value, link)
  }

  /** What a successful Subscribe leaves: the subscription it returns, and its edge if it was created and linked. */
  predicate Leaves(agency: string, req: SubscribeRequest, now: string, u: Entity, s: Store, t: Store, link: Option<Id>) {
    && InStore(t, u) && u.kind == SubscriptionKind && u.agency == agency
    && KeyIs(u, SubscriberService, req.service) && KeyIs(u, TopicPattern, req.pattern)
    && if SubsKeyed(s, agency, req.service, req.pattern) != {} then t == s
       else
         SubAsked(u, agency, req, now) && New(s, u) &&
         t == Store(s.entities[u.id := u], s.issued + {u.id},
                    if link.Some? then s.edges + [Edge(agency, "subscribes_to", u.id, link.value)] else s.edges)
  }

  /** Store call `n` lists, and where there is none the next call creates, without a fault. */
  predicate ListsOrCreates(known: bool, faults: nat -> bool, n: nat) {
    !faults(n) && (known || !faults(n + 1))
  }

  /** A seen key is first looked up once more; without a fault from `n` on, Subscribe succeeds either way. */
  predicate Succeeds(seen: bool, known: bool, faults: nat -> bool, n: nat) {
    if seen then (known && !faults(n)) || ListsOrCreates(known, faults, n + 1) else ListsOrCreates(known, faults, n)
  }

  lemma SubscribeLeaves(agency: string, req: SubscribeRequest, now: string, r: Result<Entity>, s: Store, t: Store,
                        done: seq<Act>, link: Option<Id>)
    requires WellKeyed(s) && ListElseCreate(agency, req, now, r, s, t, done, link)
    ensures r.Success? ==> Leaves(agency, req, now, r.value, s, t, link)
  {
    if r.Success? && SubsKeyed(s, agency, req.service, req.pattern) == {} {
      SubStored(r.value, agency, req, now);
    }
  }

  /** Go's map read: a missing key reads as false. */
  predicate Seen(seen: map<string, bool>, key: string) {
    key in seen && seen[key]
  }

  lemma OnlyThatKey(seen: map<string, bool>, key: string)
    ensures seen[key := true] - {key} == seen - {key} && (seen - {key}) - {key} == seen - {key}
  {
  }

  lemma MarkedAgain(seen: map<string, bool>, key: string)
    requires Seen(seen, key)
    ensures (seen - {key})[key := true] == seen
  {
  }

  ghost predicate IsFanOut(ds: seq<Entity>, s: Store, agency: string, event: Id) {
    && DistinctIds(ds)
    && (forall i | 0 <= i < |ds| :: New(s, ds[i]) && IsPending(ds[i], agency, event))
    && (forall i, j | 0 <= i < j < |ds| :: Get(ds[i], SubscriptionRef) != Get(ds[j], SubscriptionRef))
  }

  /** A listed subscription is served exactly when its own creation did not fail, whatever the others did. */
  lemma ServedIff(subs: seq<Entity>, faults: nat -> bool, n: nat, k: nat)
    requires k < |subs| && DistinctIds(subs)
    ensures subs[k].id in Served(subs, faults, n) <==> !faults(n + k)
    ensures Served(subs, faults, n) <= Ids(subs)
  {
    if !faults(n + k) {
      assert subs[k].id in Served(subs, faults, n);
    }
    if subs[k].id in Served(subs, faults, n) {
      var i :| 0 <= i < |subs| && !faults(n + i) && subs[i].id == subs[k].id;
      assert i == k;
    }
  }

  lemma ServedMore(subs: seq<Entity>, faults: nat -> bool, n: nat, i: nat)
    requires i < |subs|
    ensures Served(subs[..i + 1], faults, n) ==
            Served(subs[..i], faults, n) + if faults(n + i) then {} else {subs[i].id}
    ensures DistinctIds(subs) ==> subs[i].id !in Served(subs[..i], faults, n)
  {
    var f, g := subs[..i], subs[..i + 1];
    assert forall k | 0 <= k < i :: g[k] == f[k] == subs[k];
    assert g[i] == subs[i];
    forall x | x in Served(f, faults, n) ensures x in Served(g, faults, n) {
      var k :| 0 <= k < i && !faults(n + k) && f[k].id == x;
      assert g[k].id == x;
    }
  }

  lemma FanOutMore(ds: seq<Entity>, d: Entity, s: Store, agency: string, event: Id)
    requires IsFanOut(ds, s, agency, event) && IsPending(d, agency, event)
    requires d.id !in PutAll(s, ds).issued && Get(d, SubscriptionRef) !in SubRefs(ds)
    ensures IsFanOut(ds + [d], s, agency, event)
    ensures PutAll(s, ds + [d]) == Put(PutAll(s, ds), d)
    ensures SubRefs(ds + [d]) == SubRefs(ds) + {Get(d, SubscriptionRef)}
  {
    assert (ds + [d])[..|ds|] == ds;
    DeliveryLife.RefsAppend(ds, d);
    IssuedGrows(s, ds);
    assert forall i | 0 <= i < |ds| :: ds[i].id in Ids(ds);
  }

  lemma WrittenMore(ds: seq<Entity>, d: Entity, event: Id, now: string)
    requires WrittenFor(ds, event, now) && d.props == DeliveryProps(Get(d, SubscriptionRef), event, now)
    ensures WrittenFor(ds + [d], event, now)
  {
  }

  /** From store `s` the deliveries `ds` of the event were created, for the subscriptions `served`. */
  ghost predicate FannedOut(ds: seq<Entity>, s: Store, t: Store, agency: string, event: Id, served: set<Id>, now: string) {
    IsFanOut(ds, s, agency, event) && t == PutAll(s, ds) && SubRefs(ds) == served && WrittenFor(ds, event, now)
  }

  lemma FannedOutMore(ds: seq<Entity>, d: Entity, s: Store, t: Store, agency: string, event: Id, served: set<Id>, now: string)
    requires FannedOut(ds, s, t, agency, event, served, now) && IsPending(d, agency, event) && New(t, d)
    requires Get(d, SubscriptionRef) !in served && d.props == DeliveryProps(Get(d, SubscriptionRef), event, now)
    ensures FannedOut(ds + [d], s, Put(t, d), agency, event, served + {Get(d, SubscriptionRef)}, now)
  {
    FanOutMore(ds, d, s, agency, event);
    WrittenMore(ds, d, event, now);
  }

  lemma {:induction false} IssuedGrows(s: Store, es: seq<Entity>)
    ensures PutAll(s, es).issued == s.issued + Ids(es)
  {
    if es != [] {
      IssuedGrows(s, es[..|es| - 1]);
      assert es == es[..|es| - 1] + [es[|es| - 1]];
      IdsAppend(es[..|es| - 1], es[|es| - 1]);
    }
  }

  method CreateDelivery(dm: DataManager, agency: string, sub: Id, event: Id, now: string) returns (r: Result<Entity>)
    requires dm.Valid()
    modifies dm
    ensures dm.Valid() && dm.calls == old(dm.calls) + 1
    ensures r.Success? <==> !dm.faults(old(dm.calls))
    ensures r.Success? ==> IsPending(r.value, agency, event) && Get(r.value, SubscriptionRef) == sub &&
                           r.value.props == DeliveryProps(sub, event, now) &&
                           New(old(dm.store), r.value) && dm.store == Put(old(dm.store), r.value)
    ensures r.Failure? ==> r.error == StoreFault && dm.store == old(dm.store)
  {
    r := dm.CreateEntity(agency, DeliveryKind, DeliveryProps(sub, event, now));
  }

  /** The loop of RecordEvent: one pending delivery per listed subscription, failures skipped. */
  method DeliverToAll(dm: DataManager, agency: string, subs: seq<Entity>, event: Id, now: string)
      returns (ghost ds: seq<Entity>)
    requires dm.Valid() && DistinctIds(subs)
    modifies dm
    ensures dm.Valid() && dm.calls == old(dm.calls) + |subs|
    ensures IsFanOut(ds, old(dm.store), agency, event) && dm.store == PutAll(old(dm.store), ds)
    ensures SubRefs(ds) == Served(subs, dm.faults, old(dm.calls)) && WrittenFor(ds, event, now)
  {
    ds := [];
    for i := 0 to |subs|
      invariant dm.Valid() && dm.calls == old(dm.calls) + i
      invariant FannedOut(ds, old(dm.store), dm.store, agency, event, Served(subs[..i], dm.faults, old(dm.calls)), now)
    {
      ServedMore(subs, dm.faults, old(dm.calls), i);
      ghost var s := dm.store;
      var d := CreateDelivery(dm, agency, subs[i].id, event, now);
      if d.Success? {
        FannedOutMore(ds, d.value, old(dm.store), s, agency, event, Served(subs[..i], dm.faults, old(dm.calls)), now);
        ds := ds + [d.value];
      }
    }
    assert subs[..|subs|] == subs;
  }

  lemma ListingFacts(es: seq<Entity>, s: Store, f: Filter)
    requires IsListing(es, s, f)
    ensures |es| == 0 <==> Matching(s, f) == {}
    ensures |es| > 0 ==> es[0].id in Matching(s, f) && s.entities[es[0].id] == es[0]
  {
    assert |es| > 0 ==> es[0].id in Ids(es);
  }

  lemma SubsOutlivePut(s: Store, e: Entity, agency: string, topic: string)
    requires WellKeyed(s) && New(s, e) && e.kind != SubscriptionKind
    ensures ActiveOn(Put(s, e), agency, topic) == ActiveOn(s, agency, topic)
  {
  }

  class Manager {
    const dm: DataManager
    var topicHashByKey: map<string, string>
    var subscribeKeysSeen: map<string, bool>
    ghost const origin: Sys          // the store this object was built over, and no cached hash
    ghost var acts: seq<Act>         // what its calls did since

    ghost predicate Valid()
      reads this, dm
    {
      && dm.Valid() && Possible(origin, acts) && After(origin, acts) == Sys(dm.store, topicHashByKey)
      && WellKeyed(origin.store) && (NoFaultsFrom(dm.faults, 0) ==> DeliveryLife.CompleteRun(origin, acts))
    }

    constructor (dm: DataManager)
      requires dm.Valid()
      ensures Valid() && this.dm == dm && acts == [] && origin == Sys(dm.store, map[])
      ensures topicHashByKey == map[] && subscribeKeysSeen == map[]
    {
      this.dm := dm;
      topicHashByKey, subscribeKeysSeen := map[], map[];
      origin, acts := Sys(dm.store, map[]), [];
    }

    ghost method Record(a: Act)
      requires dm.Valid() && Possible(origin, acts) && WellKeyed(origin.store)
      requires NoFaultsFrom(dm.faults, 0) ==>
                 DeliveryLife.CompleteRun(origin, acts) && DeliveryLife.Complete(After(origin, acts).store, a)
      requires Enabled(After(origin, acts), a) && Apply(After(origin, acts), a) == Sys(dm.store, topicHashByKey)
      modifies this`acts
      ensures Valid() && acts == old(acts) + [a]
    {
      RunMore(origin, acts, a);
      if NoFaultsFrom(dm.faults, 0) {
        DeliveryLife.CompleteMore(origin, acts, a);
      }
      acts := acts + [a];
    }

    /** Until RecordDelivery is called directly, every reachable store keeps the unique keys. */
    lemma Reachable()
      requires Valid() && Uniqueness.Inv(origin.store) && Uniqueness.Internal(acts)
      ensures Uniqueness.Inv(dm.store)
    {
      Uniqueness.ReachableInv(origin, acts);
    }

    /**
      Over an object without faults the deliveries stored are those it was built over and,
      for each event recorded since, one for every subscription active on its topic then.
     */
    lemma Conserved()
      requires Valid() && NoFaultsFrom(dm.faults, 0)
      requires Uniqueness.Internal(acts) && DeliveryLife.TypedRun(origin, acts)
      ensures |DeliveryLife.Deliveries(dm.store)| ==
              |DeliveryLife.Deliveries(origin.store)| + DeliveryLife.ActiveTotal(origin, acts)
    {
      DeliveryLife.Conservation(origin, acts);
    }

    /**
      And each subscription that Subscribe created got exactly one delivery of every event recorded on
      its pattern, as long as no call was given its ID.
     */
    lemma NewSubscriberReached(i: nat, j: nat)
      requires Valid() && NoFaultsFrom(dm.faults, 0) && i < j < |acts| && acts[i].Subscribed? && acts[j].RecordedEvent?
      requires acts[j].event.agency == acts[i].sub.agency
      requires KeyIs(acts[i].sub, TopicPattern, Get(acts[j].event, EventTopic))
      requires forall k | i < k < j :: !DeliveryLife.Touches(acts[k], acts[i].sub.id)
      ensures DeliveryLife.ServedOnce(acts[j].deliveries, acts[i].sub.id, acts[j].event)
    {
      assert DeliveryLife.CompleteAt(origin, acts, j);
      DeliveryLife.NewSubscriberServed(origin, acts, i, j);
    }

    // ── Topics ──────────────────────────────────────────────────────────────

    method RegisterTopic(agency: string, req: TopicRequest, now: string) returns (r: Result<Entity>)
      requires Valid()
      modifies this`acts, dm
      ensures Valid() && old(dm.calls) + 1 <= dm.calls <= old(dm.calls) + 2
      ensures r.Success? <==> !dm.faults(old(dm.calls)) && !dm.faults(old(dm.calls) + 1) &&
                              With(old(dm.store), agency, TopicKind, Pattern, req.pattern) == {}
      ensures r.Success? ==> TopicAsked(r.value, agency, req, now)
      ensures r.Success? ==> acts == old(acts) + [RegisteredTopic(r.value)] && dm.calls == old(dm.calls) + 2 &&
                             r.value == Entity(r.value.id, agency, TopicKind, TopicProps(req, now)) &&
                             dm.store == Put(old(dm.store), r.value) && New(old(dm.store), r.value)
      ensures r.Failure? ==> acts == old(acts) && dm.store == old(dm.store)
      ensures r.Failure? ==> r.error == StoreFault || r.error == TopicAlreadyRegistered
      ensures r == Failure(TopicAlreadyRegistered) <==>
              !dm.faults(old(dm.calls)) && With(old(dm.store), agency, TopicKind, Pattern, req.pattern) != {}
      ensures Happens(Sys(old(dm.store), topicHashByKey),
                      Exchange(AskTopic(agency, TopicAsk(TopicProps(req, now), !dm.faults(old(dm.calls)), !dm.faults(old(dm.calls) + 1))),
                               if r.Success? then [RegisteredTopic(r.value)] else [], ErrorOf(r), None))
    {
      ghost var z := Sys(dm.store, topicHashByKey);
      ghost var ask := AskTopic(agency, TopicAsk(TopicProps(req, now), !dm.faults(dm.calls), !dm.faults(dm.calls + 1)));
      TopicPropsKeyed(req, now);
      TopicFilter(dm.store, agency, req.pattern);
      var existing := dm.ListEntities(TopicByPattern(agency, req.pattern));
      if existing.Failure? {
        return Failure(StoreFault);
      }
      ListingFacts(existing.value, dm.store, TopicByPattern(agency, req.pattern));
      if |existing.value| > 0 {
        return Failure(TopicAlreadyRegistered);
      }
      var created := dm.CreateEntity(agency, TopicKind, TopicProps(req, now));
      if created.Failure? {
        return Failure(StoreFault);
      }
      TopicStored(created.value, agency, req, now);
      OneHappens(z, ask, RegisteredTopic(created.value), None, None);
      Record(RegisteredTopic(created.value));
      return created;
    }

    /** RegisterTopic, with an existing topic as success: afterwards the topic is there. */
    method UpsertTopic(agency: string, req: TopicRequest, now: string)
        returns (r: Result<()>, ghost t: TopicAsk, ghost done: seq<Act>)
      requires Valid()
      modifies this`acts, dm
      ensures Valid() && old(dm.calls) < dm.calls
      ensures NoFaultsFrom(dm.faults, old(dm.calls)) ==> r.Success?
      ensures r.Success? ==> With(dm.store, agency, TopicKind, Pattern, req.pattern) != {}
      ensures OnlyRegistrations(old(acts), acts, agency, {TopicProps(req, now)})
      ensures forall p | Matching(old(dm.store), TopicByPattern(agency, p)) != {} ::
                Matching(dm.store, TopicByPattern(agency, p)) != {}
      ensures r.Failure? ==> r.error == StoreFault
      ensures acts == old(acts) + done && t.props == TopicProps(req, now)
      ensures var z, y := Sys(old(dm.store), topicHashByKey), Sys(dm.store, topicHashByKey);
              if r.Success? then Upserted(z, agency, [t], done, y) else done == [] && y == z && Stopped(z, agency, t)
    {
      ghost var z := Sys(dm.store, topicHashByKey);
      t := TopicAsk(TopicProps(req, now), !dm.faults(dm.calls), !dm.faults(dm.calls + 1));
      TopicPropsKeyed(req, now);
      TopicFilter(dm.store, agency, req.pattern);
      var registered := RegisterTopic(agency, req, now);
      if registered.Success? {
        Registered(old(dm.store), registered.value);
        UpsertRegisters(z, agency, t, RegisteredTopic(registered.value));
        return Success(()), t, [RegisteredTopic(registered.value)];
      }
      if registered.error == TopicAlreadyRegistered {
        UpsertFinds(z, agency, t);
        return Success(()), t, [];
      }
      return Failure(registered.error), t, [];
    }

    /**
      Skips everything when the cached hash equals `hash`. Otherwise success means every
      requested pattern has a topic and the hash is cached; failure, which takes a store
      fault, leaves the cache alone, so a fault-free retry does the whole set again.
     */
    method RegisterTopics(agency: string, service: string, hash: string, topics: seq<TopicRequest>, now: string)
        returns (r: Result<()>)
      requires Valid()
      modifies this`acts, this`topicHashByKey, dm
      ensures Valid()
      ensures Skips(old(topicHashByKey), agency + ":" + service, hash) ==>
                r.Success? && acts == old(acts) && dm.store == old(dm.store) && topicHashByKey == old(topicHashByKey)
      ensures !Skips(old(topicHashByKey), agency + ":" + service, hash) && r.Success? ==>
                (forall i | 0 <= i < |topics| :: With(dm.store, agency, TopicKind, Pattern, topics[i].pattern) != {}) &&
                topicHashByKey == old(topicHashByKey)[agency + ":" + service := hash] &&
                acts != [] && acts[|acts| - 1] == StoredHash(agency, service, hash, Patterns(topics))
      ensures r.Failure? ==> topicHashByKey == old(topicHashByKey)
      ensures RegisteredAsAsked(old(acts), acts, agency, topics, now)
      ensures RegistersCall(Sys(old(dm.store), old(topicHashByKey)), agency, service, hash, Patterns(topics), r.Success?,
                            Sys(dm.store, topicHashByKey))
      ensures TopicsMade(Sys(old(dm.store), old(topicHashByKey)), old(acts), acts, agency, service, hash,
                         PropsOf(topics, now), ErrorOf(r))
      ensures OnlyRegistrations(old(acts), acts, agency, RequestedProps(topics, now))
      ensures NoFaultsFrom(dm.faults, old(dm.calls)) ==> r.Success?
    {
      var cached := Cached(topicHashByKey, Key(agency, service));
      if cached == hash {
        TopicsSkipped(Sys(dm.store, topicHashByKey), acts, agency, service, hash, PropsOf(topics, now));
        return Success(());
      }
      r := TakeOver(agency, service, hash, topics, now);
      OnlyAsked(origin, old(acts), acts, agency, topics, now);
      if r.Success? {
        EachRegistered(dm.store, agency, topics);
      }
    }

    /** RegisterTopics with a new hash: upsert every topic, then cache the hash. */
    method TakeOver(agency: string, service: string, hash: string, topics: seq<TopicRequest>, now: string)
        returns (r: Result<()>)
      requires Valid() && Cached(topicHashByKey, Key(agency, service)) != hash
      modifies this`acts, this`topicHashByKey, dm
      ensures Valid()
      ensures r.Success? ==>
                AllRegistered(dm.store, agency, Patterns(topics)) &&
                topicHashByKey == old(topicHashByKey)[Key(agency, service) := hash] &&
                acts != [] && acts[|acts| - 1] == StoredHash(agency, service, hash, Patterns(topics))
      ensures r.Failure? ==> topicHashByKey == old(topicHashByKey)
      ensures TopicsMade(Sys(old(dm.store), old(topicHashByKey)), old(acts), acts, agency, service, hash,
                         PropsOf(topics, now), ErrorOf(r))
      ensures OnlyRegistrations(old(acts), acts, agency, RequestedProps(topics, now))
      ensures NoFaultsFrom(dm.faults, old(dm.calls)) ==> r.Success?
    {
      ghost var z, before := Sys(dm.store, topicHashByKey), acts;
      ghost var done;
      r, done := UpsertAll(agency, topics, now);
      if r.Failure? {
        TopicsStopped(z, before, agency, service, hash, PropsOf(topics, now), done, Sys(dm.store, topicHashByKey));
        return;
      }
      ghost var act := StoredHash(agency, service, hash, Patterns(topics));
      TopicsStored(z, before, agency, service, hash, PropsOf(topics, now), done, Sys(dm.store, topicHashByKey), act);
      topicHashByKey := topicHashByKey[Key(agency, service) := hash];
      Record(act);
    }

    /** All of RegisterTopics but the cache. */
    method UpsertAll(agency: string, topics: seq<TopicRequest>, now: string)
        returns (r: Result<()>, ghost done: seq<Act>)
      requires Valid()
      modifies this`acts, dm
      ensures Valid()
      ensures NoFaultsFrom(dm.faults, old(dm.calls)) ==> r.Success?
      ensures r.Failure? ==> r.error == StoreFault
      ensures r.Success? ==> AllRegistered(dm.store, agency, Patterns(topics)) && Patterns(topics) == PatternsIn(PropsOf(topics, now))
      ensures OnlyRegistrations(old(acts), acts, agency, RequestedProps(topics, now)) && acts == old(acts) + done
      ensures LoopMade(Sys(old(dm.store), topicHashByKey), agency, PropsOf(topics, now), done, Sys(dm.store, topicHashByKey),
                       r.Success?)
    {
      ghost var z, before := Sys(dm.store, topicHashByKey), acts;
      r, done := UpsertEach(agency, topics, now);
      LoopRegisters(z, agency, topics, now, done, Sys(dm.store, topicHashByKey), r.Success?, before);
    }

    /** The loop of RegisterTopics: upsert in order, up to the first failure. */
    method UpsertEach(agency: string, topics: seq<TopicRequest>, now: string)
        returns (r: Result<()>, ghost done: seq<Act>)
      requires Valid()
      modifies this`acts, dm
      ensures Valid()
      ensures NoFaultsFrom(dm.faults, old(dm.calls)) ==> r.Success?
      ensures r.Failure? ==> r.error == StoreFault
      ensures acts == old(acts) + done
      ensures LoopMade(Sys(old(dm.store), topicHashByKey), agency, PropsOf(topics, now), done, Sys(dm.store, topicHashByKey),
                       r.Success?)
    {
      ghost var z := Sys(dm.store, topicHashByKey);
      done := [];
      ghost var ts := [];
      for i := 0 to |topics|
        invariant Valid() && dm.calls >= old(dm.calls)
        invariant AskedSoFar(ts, topics, now) && |ts| == i && acts == old(acts) + done
        invariant Upserted(z, agency, ts, done, Sys(dm.store, topicHashByKey))
      {
        ghost var y := Sys(dm.store, topicHashByKey);
        ghost var t, more;
        r, t, more := UpsertTopic(agency, topics[i], now);
        if r.Failure? {
          ghost var rest := Unreached(topics, i + 1, now);
          RestAsked(ts, t, topics, now);
          UpsertedThenStopped(z, agency, ts, done, y, t, rest);
          ts := ts + [t] + rest;
          return;
        }
        AskedMore(ts, t, topics, now);
        Regroup(old(acts), done, more);
        UpsertedMore(z, agency, ts, done, y, t, more, Sys(dm.store, topicHashByKey));
        ts, done := ts + [t], done + more;
      }
      AskedAll(ts, topics, now);
      r := Success(());
    }

    method DeleteTopic(agency: string, id: Id) returns (r: Result<()>)
      requires Valid()
      modifies this`acts, dm
      ensures Valid()
      ensures r.Success? <==> !dm.faults(old(dm.calls)) && Present(old(dm.store), agency, id)
      ensures r.Success? ==> acts == old(acts) + [DeletedTopic(agency, id)] && dm.store == RemoveAll(old(dm.store), {id})
      ensures r.Failure? ==> acts == old(acts) && dm.store == old(dm.store)
      ensures Happens(Sys(old(dm.store), topicHashByKey),
                      Exchange(AskRemoval(agency, id, true, !dm.faults(old(dm.calls))),
                               if r.Success? then [DeletedTopic(agency, id)] else [], ErrorOf(r), None))
    {
      ghost var z, calls := Sys(dm.store, topicHashByKey), dm.calls;
      r := dm.DeleteEntity(agency, id);
      if r.Success? {
        OneHappens(z, AskRemoval(agency, id, true, !dm.faults(calls)), DeletedTopic(agency, id), None, None);
        Record(DeletedTopic(agency, id));
      }
    }

    // ── Events ──────────────────────────────────────────────────────────────

    /** The first half of RecordEvent: find the topic, registering it when it is missing. */
    method ResolveTopic(agency: string, req: EventRequest, now: string) returns (r: Result<Id>, ghost done: seq<Act>)
      requires Valid()
      modifies this`acts, dm
      ensures Valid()
      ensures var known := With(old(dm.store), agency, TopicKind, Pattern, req.topic) != {};
              (r.Success? <==> Resolves(dm.faults, old(dm.calls), known)) &&
              (r.Success? ==> dm.calls == old(dm.calls) + if known then 1 else 4)
      ensures r.Success? ==> r.value in Matching(dm.store, TopicByPattern(agency, req.topic))
      ensures AtMostATopic(old(acts), acts, old(dm.store), dm.store, agency, LazyProps(req, now))
      ensures acts == old(acts) + done && (r.Failure? ==> r.error == StoreFault)
      ensures ResolveMade(Sys(old(dm.store), topicHashByKey), agency, EventProps(req, now), LazyProps(req, now), done,
                          Sys(dm.store, topicHashByKey), r.Success?)
    {
      ghost var z := Sys(dm.store, topicHashByKey);
      EventPropsKeyed(req, now);
      TopicFilter(dm.store, agency, req.topic);
      done := [];
      var topics := dm.ListEntities(TopicByPattern(agency, req.topic));
      if topics.Failure? {
        ResolveFails(z, agency, EventProps(req, now), LazyProps(req, now));
        return Failure(StoreFault), done;
      }
      ListingFacts(topics.value, dm.store, TopicByPattern(agency, req.topic));
      assert Valid();
      if |topics.value| > 0 {
        ResolveFinds(z, agency, EventProps(req, now), LazyProps(req, now));
        return Success(topics.value[0].id), done;
      }
      r, done := RegisterMissing(agency, req, now);
    }

    /** Register the topic of a first event, then look it up again. */
    method RegisterMissing(agency: string, req: EventRequest, now: string) returns (r: Result<Id>, ghost done: seq<Act>)
      requires Valid() && Matching(dm.store, TopicByPattern(agency, req.topic)) == {}
      modifies this`acts, dm
      ensures Valid()
      ensures r.Success? <==> RegisterGoes(dm.faults, old(dm.calls))
      ensures r.Success? ==> dm.calls == old(dm.calls) + 3
      ensures r.Success? ==> r.value in Matching(dm.store, TopicByPattern(agency, req.topic))
      ensures AtMostATopic(old(acts), acts, old(dm.store), dm.store, agency, LazyProps(req, now))
      ensures acts == old(acts) + done && (r.Failure? ==> r.error == StoreFault)
      ensures ResolveMade(Sys(old(dm.store), topicHashByKey), agency, EventProps(req, now), LazyProps(req, now), done,
                          Sys(dm.store, topicHashByKey), r.Success?)
    {
      ghost var z := Sys(dm.store, topicHashByKey);
      EventPropsKeyed(req, now);
      done := [];
      var registered := RegisterTopic(agency, LazyRequest(req), now);
      if registered.Failure? {
        ResolveFails(z, agency, EventProps(req, now), LazyProps(req, now));
        return Failure(registered.error), done;
      }
      done := [RegisteredTopic(registered.value)];
      ResolveRegisters(z, agency, EventProps(req, now), LazyProps(req, now), done[0], !dm.faults(dm.calls));
      Registered(old(dm.store), registered.value);
      var topics := dm.ListEntities(TopicByPattern(agency, req.topic));
      if topics.Failure? {
        return Failure(StoreFault), done;
      }
      ListingFacts(topics.value, dm.store, TopicByPattern(agency, req.topic));
      if |topics.value| == 0 {
        return Failure(TopicNotFound), done;
      }
      return Success(topics.value[0].id), done;
    }

    /**
      Under any fault schedule. An error means no event and no delivery was created, at most
      a topic. Success means the event was, and its deliveries are, when the subscriber
      lookup succeeded, exactly one for each active subscription of the topic save those
      whose own creation failed, and none otherwise. Without faults it always succeeds.
     */
    method RecordEvent(agency: string, req: EventRequest, now: string) returns (r: Result<Entity>)
      requires Valid()
      modifies this`acts, dm
      ensures Valid()
      ensures var known := With(old(dm.store), agency, TopicKind, Pattern, req.topic) != {};
              r.Success? <==> Resolves(dm.faults, old(dm.calls), known) && !dm.faults(old(dm.calls) + if known then 1 else 4)
      ensures r.Success? ==> RecordedAsAsked(old(acts), acts, r.value, old(dm.store), dm.store, agency, req, now)
      ensures r.Failure? ==> TopicsLazy(old(acts), acts, agency, req, now)
      ensures r.Success? ==>
                var n := old(dm.calls) + if With(old(dm.store), agency, TopicKind, Pattern, req.topic) != {} then 1 else 4;
                acts != [] && OnlyTopic(old(acts), acts[..|acts| - 1], agency, LazyProps(req, now)) &&
                Records(acts[|acts| - 1], agency, req, now, r.value, old(dm.store), dm.faults, n)
      ensures r.Failure? ==> AtMostATopic(old(acts), acts, old(dm.store), dm.store, agency, LazyProps(req, now))
      ensures EventMade(Sys(old(dm.store), topicHashByKey), old(acts), acts, agency, EventProps(req, now), now,
                        LazyProps(req, now), ErrorOf(r))
    {
      ghost var z, before := Sys(dm.store, topicHashByKey), acts;
      var topic;
      ghost var done;
      topic, done := ResolveTopic(agency, req, now);
      ghost var y := Sys(dm.store, topicHashByKey);
      if topic.Failure? {
        OnlyLazyTopics(before, acts, agency, req, now);
        EventStopped(z, before, agency, EventProps(req, now), now, LazyProps(req, now), done, y);
        return Failure(topic.error);
      }
      ghost var mid := acts;
      TopicHidesNoSub(old(acts), acts, old(dm.store), dm.store, agency, req, now);
      r := RecordOn(agency, topic.value, req, now);
      ghost var more := if r.Success? then [acts[|acts| - 1]] else [];
      EventRecorded(z, before, agency, EventProps(req, now), now, LazyProps(req, now), done, y, more, ErrorOf(r));
      assert r.Success? ==> acts[..|acts| - 1] == mid;
      if r.Success? {
        TopicThenRecording(before, mid, acts, z.store, y.store, dm.store, more[0], agency, req, now);
      } else {
        OnlyLazyTopics(before, acts, agency, req, now);
      }
    }

    /** The second half of RecordEvent: create the event, link it, and fan it out. */
    method RecordOn(agency: string, topicId: Id, req: EventRequest, now: string) returns (r: Result<Entity>)
      requires Valid() && topicId in Matching(dm.store, TopicByPattern(agency, req.topic))
      modifies this`acts, dm
      ensures Valid()
      ensures r.Success? <==> !dm.faults(old(dm.calls))
      ensures r.Success? ==> acts != [] && acts == old(acts) + [acts[|acts| - 1]] &&
                             Records(acts[|acts| - 1], agency, req, now, r.value, old(dm.store), dm.faults, old(dm.calls)) &&
                             RecordingLeaves(acts[|acts| - 1], old(dm.store), dm.store, now)
      ensures r.Failure? ==> r.error == StoreFault && acts == old(acts) && dm.store == old(dm.store)
      ensures RecordingMade(Sys(old(dm.store), topicHashByKey), agency, EventProps(req, now), now,
                            if r.Success? then [acts[|acts| - 1]] else [], ErrorOf(r))
    {
      ghost var z := Sys(dm.store, topicHashByKey);
      ghost var a;
      r, a := WriteEvent(agency, topicId, req, now);
      if r.Success? {
        if NoFaultsFrom(dm.faults, 0) {
          FaultFreeRecording(a, agency, req, now, r.value, old(dm.store), dm.faults, old(dm.calls));
        }
        RecordingLeft(z, a, now);
        RecordingExplained(z, a, agency, req, now, r.value, dm.faults, old(dm.calls));
        Record(a);
        assert acts[..|acts| - 1] == old(acts);
      } else {
        RecordingFails(z, agency, EventProps(req, now), now);
      }
    }

    /** The store calls of that half, and the act they amount to. */
    method WriteEvent(agency: string, topicId: Id, req: EventRequest, now: string) returns (r: Result<Entity>, ghost a: Act)
      requires dm.Valid() && topicId in Matching(dm.store, TopicByPattern(agency, req.topic))
      modifies dm
      ensures dm.Valid()
      ensures r.Success? <==> !dm.faults(old(dm.calls))
      ensures r.Failure? ==> r.error == StoreFault && dm.store == old(dm.store)
      ensures r.Success? ==>
                var z := Sys(old(dm.store), topicHashByKey);
                Enabled(z, a) && Apply(z, a) == Sys(dm.store, topicHashByKey) &&
                Records(a, agency, req, now, r.value, old(dm.store), dm.faults, old(dm.calls))
    {
      r := dm.CreateEntity(agency, EventKind, EventProps(req, now));
      if r.Failure? {
        a := *;
        return;
      }
      var linked := dm.CreateRelationship(Edge(agency, FOR_TOPIC, r.value.id, topicId));
      ghost var ds := FanOutEvent(agency, req.topic, r.value, now);
      a := RecordedEvent(r.value, topicId, linked.Success?, ds);
      RecordingHolds(Sys(old(dm.store), topicHashByKey), a, agency, req, now, dm.faults, old(dm.calls) + 2);
    }

    /** Look the active subscribers up and deliver to each; a failed lookup delivers to none. */
    method FanOutEvent(agency: string, topic: string, e: Entity, now: string) returns (ghost ds: seq<Entity>)
      requires dm.Valid()
      modifies dm
      ensures dm.Valid() && IsFanOut(ds, old(dm.store), agency, e.id) && dm.store == PutAll(old(dm.store), ds)
      ensures Reaches(ds, ActiveOn(old(dm.store), agency, topic), dm.faults, old(dm.calls))
      ensures WrittenFor(ds, e.id, now)
    {
      ds := [];
      var subs := GetSubscribersForTopic(agency, topic);
      if subs.Success? {
        ds := DeliverToAll(dm, agency, subs.value, e.id, now);
      }
    }

    /** Scans a listing of the agency's matching events, whatever order the store gave. */
    method ListEvents(agency: string, q: EventQuery) returns (r: Result<seq<Entity>>, ghost listing: seq<Entity>)
      requires Valid()
      modifies dm`calls
      ensures Valid()
      ensures r.Success? <==> !dm.faults(old(dm.calls))
      ensures r.Success? ==> IsListing(listing, dm.store, EventsBy(agency, q)) &&
                             Ids(listing) == EventsOf(dm.store, agency, q.domain, q.agencyOf, q.action) &&
                             var kept := Kept(listing, q.fence);
                             r.value <= kept && |r.value| == if 0 < q.limit < |kept| then q.limit else |kept|
    {
      var entities := dm.ListEntities(EventsBy(agency, q));
      listing := [];
      if entities.Failure? {
        return Failure(StoreFault), listing;
      }
      listing := entities.value;
      EventsFilter(dm.store, agency, q);
      var out := Scan(entities.value, q.fence, q.limit);
      return Success(out), listing;
    }

    // ── Subscriptions ───────────────────────────────────────────────────────

    /**
      The cache is transparent: whatever it holds, stale or colliding entries included, and
      whichever calls fail, success means what "list, else create" means, failure changes
      nothing in the store, and without faults there is no failure.
     */
    method Subscribe(agency: string, req: SubscribeRequest, now: string) returns (r: Result<Entity>, ghost done: seq<Act>)
      requires Valid()
      modifies this`acts, this`subscribeKeysSeen, dm
      ensures Valid()
      ensures NoFaultsFrom(dm.faults, old(dm.calls)) ==> r.Success?
      ensures var seen := Seen(old(subscribeKeysSeen), SeenKey(agency, req.service, req.pattern));
              r.Success? <==> Succeeds(seen, SubsKeyed(old(dm.store), agency, req.service, req.pattern) != {}, dm.faults, old(dm.calls))
      ensures r.Failure? ==> r.error == StoreFault
      ensures var seen := Seen(old(subscribeKeysSeen), SeenKey(agency, req.service, req.pattern));
              ListElseCreate(agency, req, now, r, old(dm.store), dm.store, done,
                             LinkTo(req.topicId, dm.faults, old(dm.calls) + if seen then 3 else 2))
      ensures var links := old(dm.calls) + if Seen(old(subscribeKeysSeen), SeenKey(agency, req.service, req.pattern)) then 3 else 2;
              r.Success? ==> Leaves(agency, req, now, r.value, old(dm.store), dm.store,
                                    if req.topicId != "" && !dm.faults(links) then Some(req.topicId) else None)
      ensures acts == old(acts) + done
      ensures r.Success? ==> Seen(subscribeKeysSeen, SeenKey(agency, req.service, req.pattern))
      ensures subscribeKeysSeen - {SeenKey(agency, req.service, req.pattern)} == old(subscribeKeysSeen) - {SeenKey(agency, req.service, req.pattern)}
      ensures SubscribeMade(Sys(old(dm.store), topicHashByKey), old(acts), old(acts) + done, agency, SubProps(req, now), req.topicId,
                              ErrorOf(r), if r.Success? then Some(r.value.id) else None)
    {
      ghost var s := dm.store;
      ghost var link := LinkTo(req.topicId, dm.faults, dm.calls + if Seen(subscribeKeysSeen, SeenKey(agency, req.service, req.pattern)) then 3 else 2);
      if Seen(subscribeKeysSeen, SeenKey(agency, req.service, req.pattern)) {
        r, done := SeenBefore(agency, req, now);
      } else {
        r, done := SlowPath(agency, req, now);
      }
      OnlyThatKey(old(subscribeKeysSeen), SeenKey(agency, req.service, req.pattern));
      SubscribeLeaves(agency, req, now, r, s, dm.store, done, link);
    }

    /** Subscribe for a key marked as seen: the fast path, or else evict the key and take the slow one. */
    method SeenBefore(agency: string, req: SubscribeRequest, now: string) returns (r: Result<Entity>, ghost done: seq<Act>)
      requires Valid() && Seen(subscribeKeysSeen, SeenKey(agency, req.service, req.pattern))
      modifies this`acts, this`subscribeKeysSeen, dm
      ensures Valid() && acts == old(acts) + done
      ensures r.Success? <==> Succeeds(true, SubsKeyed(old(dm.store), agency, req.service, req.pattern) != {}, dm.faults, old(dm.calls))
      ensures r.Failure? ==> r.error == StoreFault
      ensures ListElseCreate(agency, req, now, r, old(dm.store), dm.store, done,
                             LinkTo(req.topicId, dm.faults, old(dm.calls) + 3))
      ensures subscribeKeysSeen ==
              if r.Success? then old(subscribeKeysSeen)
              else old(subscribeKeysSeen) - {SeenKey(agency, req.service, req.pattern)}
      ensures SubscribeMade(Sys(old(dm.store), topicHashByKey), old(acts), old(acts) + done, agency, SubProps(req, now),
                            req.topicId, ErrorOf(r), if r.Success? then Some(r.value.id) else None)
    {
      var fast := FastPath(agency, req, now);
      if fast.Some? {
        return Success(fast.value), [];
      }
      r, done := Retry(agency, req, now);
    }

    /** The fast path of Subscribe found nothing: evict the key and take the slow one. */
    method Retry(agency: string, req: SubscribeRequest, now: string) returns (r: Result<Entity>, ghost done: seq<Act>)
      requires Valid() && Seen(subscribeKeysSeen, SeenKey(agency, req.service, req.pattern))
      modifies this`acts, this`subscribeKeysSeen, dm
      ensures Valid() && acts == old(acts) + done
      ensures r.Success? <==> ListsOrCreates(SubsKeyed(old(dm.store), agency, req.service, req.pattern) != {}, dm.faults, old(dm.calls))
      ensures r.Failure? ==> r.error == StoreFault
      ensures ListElseCreate(agency, req, now, r, old(dm.store), dm.store, done,
                             LinkTo(req.topicId, dm.faults, old(dm.calls) + 2))
      ensures subscribeKeysSeen ==
              if r.Success? then old(subscribeKeysSeen)
              else old(subscribeKeysSeen) - {SeenKey(agency, req.service, req.pattern)}
      ensures SubscribeMade(Sys(old(dm.store), topicHashByKey), old(acts), old(acts) + done, agency, SubProps(req, now),
                            req.topicId, ErrorOf(r), if r.Success? then Some(r.value.id) else None)
    {
      var key := SeenKey(agency, req.service, req.pattern);
      MarkedAgain(subscribeKeysSeen, key);
      Evict(key);
      r, done := SlowPath(agency, req, now);
    }

    /** The mutex section that forgets a key. */
    method Evict(key: string)
      requires Valid()
      modifies this`subscribeKeysSeen
      ensures Valid() && subscribeKeysSeen == old(subscribeKeysSeen) - {key}
    {
      subscribeKeysSeen := subscribeKeysSeen - {key};
    }

    /** The slow path of Subscribe: list, else create, and mark the key as seen. */
    method SlowPath(agency: string, req: SubscribeRequest, now: string) returns (r: Result<Entity>, ghost done: seq<Act>)
      requires Valid()
      modifies this`acts, this`subscribeKeysSeen, dm
      ensures Valid() && acts == old(acts) + done
      ensures r.Success? <==> ListsOrCreates(SubsKeyed(old(dm.store), agency, req.service, req.pattern) != {}, dm.faults, old(dm.calls))
      ensures r.Failure? ==> r.error == StoreFault
      ensures ListElseCreate(agency, req, now, r, old(dm.store), dm.store, done,
                             LinkTo(req.topicId, dm.faults, old(dm.calls) + 2))
      ensures subscribeKeysSeen ==
              if r.Success? then old(subscribeKeysSeen)[SeenKey(agency, req.service, req.pattern) := true]
              else old(subscribeKeysSeen)
      ensures SubscribeMade(Sys(old(dm.store), topicHashByKey), old(acts), old(acts) + done, agency, SubProps(req, now),
                            req.topicId, ErrorOf(r), if r.Success? then Some(r.value.id) else None)
    {
      r, done := FindOrCreate(agency, req, now);
      if r.Success? {
        subscribeKeysSeen := subscribeKeysSeen[SeenKey(agency, req.service, req.pattern) := true];
      }
    }

    /** The fast path of Subscribe: the key was seen, so list. */
    method FastPath(agency: string, req: SubscribeRequest, now: string) returns (r: Option<Entity>)
      requires Valid()
      modifies dm`calls
      ensures Valid() && dm.calls == old(dm.calls) + 1
      ensures r.Some? <==> SubsKeyed(dm.store, agency, req.service, req.pattern) != {} && !dm.faults(old(dm.calls))
      ensures r.Some? ==>
                ListElseCreate(agency, req, now, Success(r.value), dm.store, dm.store, [], None) &&
                SubscribeMade(Sys(dm.store, topicHashByKey), acts, acts + [], agency, SubProps(req, now), req.topicId, None,
                              Some(r.value.id))
    {
      SubPropsKeyed(req, now);
      KeyFilter(dm.store, agency, req.service, req.pattern);
      var f := SubByKey(agency, req.service, req.pattern);
      var fast := dm.ListEntities(f);
      if fast.Failure? || |fast.value| == 0 {
        return None;
      }
      ListingFacts(fast.value, dm.store, f);
      assert acts + [] == acts;
      SubscribeFinds(Sys(dm.store, topicHashByKey), acts, agency, SubProps(req, now), req.topicId, fast.value[0].id);
      return Some(fast.value[0]);
    }

    /** The list-else-create of Subscribe, recorded. */
    method FindOrCreate(agency: string, req: SubscribeRequest, now: string) returns (r: Result<Entity>, ghost done: seq<Act>)
      requires Valid()
      modifies this`acts, dm
      ensures Valid() && acts == old(acts) + done
      ensures r.Success? <==> ListsOrCreates(SubsKeyed(old(dm.store), agency, req.service, req.pattern) != {}, dm.faults, old(dm.calls))
      ensures r.Failure? ==> r.error == StoreFault
      ensures ListElseCreate(agency, req, now, r, old(dm.store), dm.store, done,
                             LinkTo(req.topicId, dm.faults, old(dm.calls) + 2))
      ensures SubscribeMade(Sys(old(dm.store), topicHashByKey), old(acts), old(acts) + done, agency, SubProps(req, now),
                            req.topicId, ErrorOf(r), if r.Success? then Some(r.value.id) else None)
    {
      r, done := FindOrWrite(agency, req, now);
      if done != [] {
        Record(done[0]);
      }
    }

    /** The list-else-create of Subscribe: its store calls, and the act they amount to. */
    method FindOrWrite(agency: string, req: SubscribeRequest, now: string) returns (r: Result<Entity>, ghost done: seq<Act>)
      requires dm.Valid()
      modifies dm
      ensures dm.Valid()
      ensures r.Success? <==> ListsOrCreates(SubsKeyed(old(dm.store), agency, req.service, req.pattern) != {}, dm.faults, old(dm.calls))
      ensures r.Failure? ==> r.error == StoreFault
      ensures ListElseCreate(agency, req, now, r, old(dm.store), dm.store, done,
                             LinkTo(req.topicId, dm.faults, old(dm.calls) + 2))
      ensures done == [] ==> dm.store == old(dm.store)
      ensures done != [] ==>
                var z := Sys(old(dm.store), topicHashByKey);
                Enabled(z, done[0]) && Apply(z, done[0]) == Sys(dm.store, topicHashByKey)
      ensures SubscribeMade(Sys(old(dm.store), topicHashByKey), acts, acts + done, agency, SubProps(req, now),
                            req.topicId, ErrorOf(r), if r.Success? then Some(r.value.id) else None)
    {
      ghost var z, props := Sys(dm.store, topicHashByKey), SubProps(req, now);
      SubPropsKeyed(req, now);
      KeyFilter(dm.store, agency, req.service, req.pattern);
      done := [];
      assert acts + [] == acts;
      var f := SubByKey(agency, req.service, req.pattern);
      var existing := dm.ListEntities(f);
      if existing.Failure? {
        SubscribeFails(z, acts, agency, props, req.topicId, false);
        return Failure(StoreFault), done;
      }
      ListingFacts(existing.value, dm.store, f);
      if |existing.value| > 0 {
        SubscribeFinds(z, acts, agency, props, req.topicId, existing.value[0].id);
        return Success(existing.value[0]), done;
      }
      ghost var a;
      r, a := WriteSub(agency, req, now);
      done := if r.Success? then [a] else [];
    }

    /** The store calls of that part, and the act they amount to. */
    method WriteSub(agency: string, req: SubscribeRequest, now: string) returns (r: Result<Entity>, ghost a: Act)
      requires dm.Valid() && Matching(dm.store, SubByKey(agency, req.service, req.pattern)) == {}
      modifies dm
      ensures dm.Valid()
      ensures r.Success? <==> !dm.faults(old(dm.calls))
      ensures r.Failure? ==> r.error == StoreFault && dm.store == old(dm.store)
      ensures r.Success? ==>
                var z := Sys(old(dm.store), topicHashByKey);
                Enabled(z, a) && Apply(z, a) == Sys(dm.store, topicHashByKey) && New(old(dm.store), r.value) &&
                r.value == Entity(r.value.id, agency, SubscriptionKind, SubProps(req, now)) &&
                a == Subscribed(r.value, LinkTo(req.topicId, dm.faults, old(dm.calls) + 1)) &&
                dm.store == WithSub(old(dm.store), r.value, LinkTo(req.topicId, dm.faults, old(dm.calls) + 1))
      ensures SubscribeMade(Sys(old(dm.store), topicHashByKey), acts, if r.Success? then acts + [a] else acts, agency,
                            SubProps(req, now), req.topicId, ErrorOf(r), if r.Success? then Some(r.value.id) else None)
    {
      ghost var z := Sys(dm.store, topicHashByKey);
      SubPropsKeyed(req, now);
      r := dm.CreateEntity(agency, SubscriptionKind, SubProps(req, now));
      if r.Failure? {
        a := *;
        SubscribeFails(z, acts, agency, SubProps(req, now), req.topicId, true);
        return;
      }
      a := Subscribed(r.value, LinkTo(req.topicId, dm.faults, dm.calls));
      if req.topicId != "" {
        var _ := dm.CreateRelationship(Edge(agency, SUBSCRIBES_TO, r.value.id, req.topicId));
      }
      SubscribeCreates(z, acts, agency, SubProps(req, now), req.topicId, a);
    }

    method UpdateSubscription(agency: string, id: Id, status: string, now: string) returns (r: Result<Entity>)
      requires Valid()
      modifies this`acts, dm
      ensures Valid()
      ensures r.Success? <==> !dm.faults(old(dm.calls)) && Present(old(dm.store), agency, id)
      ensures r.Success? ==> acts == old(acts) + [UpdatedSubscription(agency, id, status, now)] &&
                             dm.store == Merge(old(dm.store), id, map[Status := status, UpdatedAt := now]) &&
                             r.value == dm.store.entities[id]
      ensures r.Failure? ==> acts == old(acts) && dm.store == old(dm.store)
      ensures Happens(Sys(old(dm.store), topicHashByKey),
                      Exchange(AskStatus(agency, id, status, now, !dm.faults(old(dm.calls))),
                               if r.Success? then [UpdatedSubscription(agency, id, status, now)] else [], ErrorOf(r), None))
    {
      ghost var z, calls := Sys(dm.store, topicHashByKey), dm.calls;
      r := dm.UpdateEntity(agency, id, StatusProps(status, now));
      if r.Success? {
        OneHappens(z, AskStatus(agency, id, status, now, !dm.faults(calls)), UpdatedSubscription(agency, id, status, now), None, None);
        Record(UpdatedSubscription(agency, id, status, now));
      }
    }

    method Unsubscribe(agency: string, id: Id) returns (r: Result<()>)
      requires Valid()
      modifies this`acts, dm
      ensures Valid()
      ensures r.Success? <==> !dm.faults(old(dm.calls)) && Present(old(dm.store), agency, id)
      ensures r.Success? ==> acts == old(acts) + [Unsubscribed(agency, id)] && dm.store == RemoveAll(old(dm.store), {id})
      ensures r.Failure? ==> acts == old(acts) && dm.store == old(dm.store)
      ensures Happens(Sys(old(dm.store), topicHashByKey),
                      Exchange(AskRemoval(agency, id, false, !dm.faults(old(dm.calls))),
                               if r.Success? then [Unsubscribed(agency, id)] else [], ErrorOf(r), None))
    {
      ghost var z, calls := Sys(dm.store, topicHashByKey), dm.calls;
      r := dm.DeleteEntity(agency, id);
      if r.Success? {
        OneHappens(z, AskRemoval(agency, id, false, !dm.faults(calls)), Unsubscribed(agency, id), None, None);
        Record(Unsubscribed(agency, id));
      }
    }

    // ── Deliveries ──────────────────────────────────────────────────────────

    method GetSubscribersForTopic(agency: string, topic: string) returns (r: Result<seq<Entity>>)
      requires dm.Valid()
      modifies dm`calls
      ensures dm.calls == old(dm.calls) + 1
      ensures r.Success? <==> !dm.faults(old(dm.calls))
      ensures r.Success? ==> DistinctIds(r.value) && StoredIn(r.value, dm.store) && Ids(r.value) == ActiveOn(dm.store, agency, topic)
    {
      ActiveFilter(dm.store, agency, topic);
      r := dm.ListEntities(ActiveSubs(agency, topic));
    }

    method RecordDelivery(agency: string, sub: Id, event: Id, now: string) returns (r: Result<Entity>)
      requires Valid()
      modifies this`acts, dm
      ensures Valid()
      ensures r.Success? <==> !dm.faults(old(dm.calls))
      ensures r.Success? ==> acts == old(acts) + [RecordedDelivery(r.value)] && InStore(dm.store, r.value) &&
                             DeliveryAsked(r.value, agency, sub, event, now)
      ensures r.Failure? ==> acts == old(acts) && dm.store == old(dm.store)
    {
      r := CreateDelivery(dm, agency, sub, event, now);
      if r.Success? {
        DeliveryStored(r.value, agency, sub, event, now);
        Record(RecordedDelivery(r.value));
      }
    }

    method MarkDelivered(agency: string, id: Id, now: string) returns (r: Result<()>)
      requires Valid()
      modifies this`acts, dm
      ensures Valid()
      ensures r.Success? <==> !dm.faults(old(dm.calls)) && Present(old(dm.store), agency, id)
      ensures r.Success? ==> acts == old(acts) + [MarkedDelivered(agency, id, now)] &&
                             dm.store == Merge(old(dm.store), id,
                                               map[Status := "delivered", LastAttemptedAt := now, UpdatedAt := now])
      ensures r.Failure? ==> acts == old(acts) && dm.store == old(dm.store)
      ensures Happens(Sys(old(dm.store), topicHashByKey),
                      Exchange(AskDelivered(agency, id, now, !dm.faults(old(dm.calls))),
                               if r.Success? then [MarkedDelivered(agency, id, now)] else [], ErrorOf(r), None))
    {
      ghost var z, calls := Sys(dm.store, topicHashByKey), dm.calls;
      var updated := dm.UpdateEntity(agency, id, DeliveredProps(now));
      if updated.Failure? {
        return Failure(updated.error);
      }
      OneHappens(z, AskDelivered(agency, id, now, !dm.faults(calls)), MarkedDelivered(agency, id, now), None, None);
      Record(MarkedDelivered(agency, id, now));
      return Success(());
    }

    /** Acknowledges the first delivery listed for the pair; an acknowledged one is left alone. */
    method Ack(agency: string, sub: Id, event: Id, now: string) returns (r: Result<()>)
      requires Valid()
      modifies this`acts, dm
      ensures Valid()
      ensures r.Success? ==> AcksThePair(old(acts), acts, old(dm.store), dm.store, agency, sub, event, now)
      ensures r.Failure? ==> acts == old(acts) && dm.store == old(dm.store)
      ensures r == Failure(DeliveryNotFound) <==>
              !dm.faults(old(dm.calls)) && DeliveriesOf(old(dm.store), agency, sub, event) == {}
      ensures NoFaultsFrom(dm.faults, old(dm.calls)) ==> r.Success? || r == Failure(DeliveryNotFound)
      ensures Made(Sys(old(dm.store), topicHashByKey), old(acts), acts,
                     AskAck(agency, sub, event, now, !dm.faults(old(dm.calls)), !dm.faults(old(dm.calls) + 1)), ErrorOf(r), None)
    {
      ghost var z, before := Sys(dm.store, topicHashByKey), acts;
      ghost var ask := AskAck(agency, sub, event, now, !dm.faults(dm.calls), !dm.faults(dm.calls + 1));
      var deliveries := dm.ListEntities(DeliveryFor(agency, sub, event));
      if deliveries.Failure? {
        AckMisses(z, before, ask, StoreFault);
        return Failure(StoreFault);
      }
      PairListed(deliveries.value, dm.store, agency, sub, event);
      assert Valid();
      if |deliveries.value| == 0 {
        AckMisses(z, before, ask, DeliveryNotFound);
        return Failure(DeliveryNotFound);
      }
      r := AckFirst(agency, sub, event, deliveries.value[0], now);
    }

    /** The end of Ack: the first delivery listed, `d`, is left alone if it is acknowledged. */
    method AckFirst(agency: string, sub: Id, event: Id, d: Entity, now: string) returns (r: Result<()>)
      requires Valid() && d.id in Matching(dm.store, DeliveryFor(agency, sub, event)) && dm.store.entities[d.id] == d
      modifies this`acts, dm
      ensures Valid()
      ensures r.Success? ==> AcksThePair(old(acts), acts, old(dm.store), dm.store, agency, sub, event, now)
      ensures r.Failure? ==> r.error == StoreFault && acts == old(acts) && dm.store == old(dm.store)
      ensures NoFaultsFrom(dm.faults, old(dm.calls)) ==> r.Success?
      ensures Made(Sys(old(dm.store), topicHashByKey), old(acts), acts,
                   AskAck(agency, sub, event, now, true, !dm.faults(old(dm.calls))), ErrorOf(r), None)
    {
      ghost var z, before := Sys(dm.store, topicHashByKey), acts;
      ghost var ask := AskAck(agency, sub, event, now, true, !dm.faults(dm.calls));
      if Get(d, Status) == ACKED {
        AckLeft(before, dm.store, agency, sub, event, d.id, now);
        AckMade(z, before, ask, d.id, [], None);
        return Success(());
      }
      var updated := dm.UpdateEntity(agency, d.id, AckedProps(now));
      if updated.Failure? {
        AckMade(z, before, ask, d.id, [], Some(StoreFault));
        return Failure(StoreFault);
      }
      AckWrote(before, z.store, agency, sub, event, d.id, now);
      AckMade(z, before, ask, d.id, [Acked(agency, d.id, now)], None);
      Record(Acked(agency, d.id, now));
      return Success(());
    }
  }

  function Patterns(topics: seq<TopicRequest>): set<string> {
    set i | 0 <= i < |topics| :: topics[i].pattern
  }

  /** The produces-hash is the one taken over last, or empty where none was. */
  predicate Skips(hashes: map<string, string>, key: string, hash: string) {
    (key in hashes && hashes[key] == hash) || (key !in hashes && hash == "")
  }

  /** Every topic among the new acts is one of those asked for. */
  ghost predicate RegisteredAsAsked(before: seq<Act>, after: seq<Act>, agency: string, topics: seq<TopicRequest>, now: string) {
    forall i | |before| <= i < |after| && after[i].RegisteredTopic? ::
      exists k | 0 <= k < |topics| :: TopicAsked(after[i].topic, agency, topics[k], now)
  }

  lemma OnlyAsked(z: Sys, before: seq<Act>, after: seq<Act>, agency: string, topics: seq<TopicRequest>, now: string)
    requires Possible(z, after) && OnlyRegistrations(before, after, agency, RequestedProps(topics, now))
    ensures RegisteredAsAsked(before, after, agency, topics, now)
  {
    forall i | |before| <= i < |after| && after[i].RegisteredTopic?
      ensures exists k | 0 <= k < |topics| :: TopicAsked(after[i].topic, agency, topics[k], now)
    {
      RunPrefix(z, after, i);
      var k :| 0 <= k < |topics| && TopicProps(topics[k], now) == after[i].topic.props;
      assert AgencyOfAct(after[i]) == agency;
      TopicStored(after[i].topic, agency, topics[k], now);
    }
  }

  lemma EachRegistered(s: Store, agency: string, topics: seq<TopicRequest>)
    requires AllRegistered(s, agency, Patterns(topics))
    ensures forall i | 0 <= i < |topics| :: With(s, agency, TopicKind, Pattern, topics[i].pattern) != {}
  {
    forall i | 0 <= i < |topics| ensures With(s, agency, TopicKind, Pattern, topics[i].pattern) != {} {
      assert topics[i].pattern in Patterns(topics);
      TopicFilter(s, agency, topics[i].pattern);
    }
  }

  function PropsOf(topics: seq<TopicRequest>, now: string): seq<Props> {
    seq(|topics|, i requires 0 <= i < |topics| => TopicProps(topics[i], now))
  }

  ghost predicate AskedSoFar(ts: seq<TopicAsk>, topics: seq<TopicRequest>, now: string) {
    |ts| <= |topics| && forall i | 0 <= i < |ts| :: ts[i].props == TopicProps(topics[i], now)
  }

  lemma Regroup(a: seq<Act>, b: seq<Act>, c: seq<Act>)
    ensures a + b + c == a + (b + c)
  {
  }

  lemma AskedMore(ts: seq<TopicAsk>, t: TopicAsk, topics: seq<TopicRequest>, now: string)
    requires AskedSoFar(ts, topics, now) && |ts| < |topics| && t.props == TopicProps(topics[|ts|], now)
    ensures AskedSoFar(ts + [t], topics, now)
  {
  }

  lemma AskedAll(ts: seq<TopicAsk>, topics: seq<TopicRequest>, now: string)
    requires AskedSoFar(ts, topics, now) && |ts| == |topics|
    ensures AsksFor(ts, PropsOf(topics, now))
  {
  }

  /** The topics behind one that met a fault: asked for too, and not reached. */
  function Unreached(topics: seq<TopicRequest>, n: nat, now: string): (rest: seq<TopicAsk>)
    requires n <= |topics|
    ensures |rest| == |topics| - n && forall i | 0 <= i < |rest| :: rest[i].props == TopicProps(topics[n + i], now)
    decreases |topics| - n
  {
    if n == |topics| then [] else [TopicAsk(TopicProps(topics[n], now), true, true)] + Unreached(topics, n + 1, now)
  }

  lemma RestAsked(ts: seq<TopicAsk>, t: TopicAsk, topics: seq<TopicRequest>, now: string)
    requires AskedSoFar(ts, topics, now) && |ts| < |topics| && t.props == TopicProps(topics[|ts|], now)
    ensures AsksFor(ts + [t] + Unreached(topics, |ts| + 1, now), PropsOf(topics, now))
  {
    JoinedAsks(ts, t, Unreached(topics, |ts| + 1, now), PropsOf(topics, now));
  }

  /** Upserts of some of the requested topics only register requested topics. */
  lemma RequestedOnly(z: Sys, agency: string, topics: seq<TopicRequest>, now: string, ts: seq<TopicAsk>, n: nat,
                      done: seq<Act>, before: seq<Act>)
    requires n <= |ts| && Upserts(z, agency, ts[..n], done) && AsksFor(ts, PropsOf(topics, now))
    ensures OnlyRegistrations(before, before + done, agency, RequestedProps(topics, now))
  {
    var after := before + done;
    forall i | |before| <= i < |after|
      ensures after[i].RegisteredTopic? && after[i].topic.props in RequestedProps(topics, now) && AgencyOfAct(after[i]) == agency
    {
      UpsertsOnly(z, agency, ts[..n], done, i - |before|);
      var k :| 0 <= k < |ts[..n]| && ts[..n][k].props == after[i].topic.props;
      assert ts[k].props == TopicProps(topics[k], now);
    }
  }

  lemma LoopRegisters(z: Sys, agency: string, topics: seq<TopicRequest>, now: string, done: seq<Act>, y: Sys, ok: bool,
                      before: seq<Act>)
    requires WellKeyed(z.store) && LoopMade(z, agency, PropsOf(topics, now), done, y, ok)
    ensures OnlyRegistrations(before, before + done, agency, RequestedProps(topics, now))
    ensures ok ==> AllRegistered(y.store, agency, Patterns(topics)) && Patterns(topics) == PatternsIn(PropsOf(topics, now))
  {
    var ts :| AsksFor(ts, PropsOf(topics, now)) &&
              if ok then Upserted(z, agency, ts, done, y) else UpsertedInPart(z, agency, ts, done, y);
    if ok {
      UpsertsCover(z, agency, ts, done);
      PatternsAlike(topics, ts, now);
      SamePatterns(ts, PropsOf(topics, now));
      assert ts[..|ts|] == ts;
      RequestedOnly(z, agency, topics, now, ts, |ts|, done, before);
    } else {
      var n :| 0 <= n < |ts| && Upserted(z, agency, ts[..n], done, y) && Stopped(y, agency, ts[n]);
      RequestedOnly(z, agency, topics, now, ts, n, done, before);
    }
  }

  lemma PatternsAlike(topics: seq<TopicRequest>, ts: seq<TopicAsk>, now: string)
    requires AsksFor(ts, PropsOf(topics, now))
    ensures PatternsOf(ts) == Patterns(topics)
  {
    forall i | 0 <= i < |topics| ensures Value(ts[i].props, Pattern) == topics[i].pattern {
      TopicPropsKeyed(topics[i], now);
    }
    forall p | p in Patterns(topics) ensures p in PatternsOf(ts) {
      var i :| 0 <= i < |topics| && topics[i].pattern == p;
      assert ts[i] in ts;
    }
  }

  function RequestedProps(topics: seq<TopicRequest>, now: string): set<Props> {
    set i | 0 <= i < |topics| :: TopicProps(topics[i], now)
  }

  /**
    A successful Ack, as `AckCall` defines it: the pair has a delivery, and either one was acknowledged before and
    nothing happened, or one was not and is now, as of `now`.
   */
  ghost predicate AcksThePair(before: seq<Act>, after: seq<Act>, s: Store, t: Store, agency: string, sub: Id, event: Id,
                              now: string) {
    DeliveryLife.AckCall(s, agency, sub, event, now, t) &&
    if after == before then t == s && exists x :: x in DeliveriesOf(s, agency, sub, event) && KeyIs(s.entities[x], Status, "acked")
    else
      exists x ::
        x in DeliveriesOf(s, agency, sub, event) && !KeyIs(s.entities[x], Status, "acked") &&
        after == before + [Acked(agency, x, now)] && x in t.entities &&
        KeyIs(t.entities[x], Status, "acked") && KeyIs(t.entities[x], AckedAt, now) && KeyIs(t.entities[x], UpdatedAt, now)
  }

  lemma PairListed(es: seq<Entity>, s: Store, agency: string, sub: Id, event: Id)
    requires IsListing(es, s, DeliveryFor(agency, sub, event))
    ensures |es| == 0 <==> Matching(s, DeliveryFor(agency, sub, event)) == {}
    ensures |es| == 0 <==> DeliveriesOf(s, agency, sub, event) == {}
    ensures |es| > 0 ==> es[0].id in Matching(s, DeliveryFor(agency, sub, event)) && s.entities[es[0].id] == es[0]
  {
    ListingFacts(es, s, DeliveryFor(agency, sub, event));
    PairFilter(s, agency, sub, event);
  }

  lemma AckLeft(before: seq<Act>, s: Store, agency: string, sub: Id, event: Id, x: Id, now: string)
    requires x in Matching(s, DeliveryFor(agency, sub, event)) && Get(s.entities[x], Status) == ACKED
    ensures AcksThePair(before, before, s, s, agency, sub, event, now)
  {
    PairFilter(s, agency, sub, event);
  }

  lemma AckWrote(before: seq<Act>, s: Store, agency: string, sub: Id, event: Id, x: Id, now: string)
    requires x in Matching(s, DeliveryFor(agency, sub, event)) && Get(s.entities[x], Status) != ACKED
    ensures var t := Merge(s, x, AckedProps(now));
            AcksThePair(before, before + [Acked(agency, x, now)], s, t, agency, sub, event, now)
  {
    PairFilter(s, agency, sub, event);
    var t := Merge(s, x, AckedProps(now));
    assert KeyIs(t.entities[x], Status, "acked") && KeyIs(t.entities[x], AckedAt, now) && KeyIs(t.entities[x], UpdatedAt, now);
    assert t == DeliveryLife.AckedNow(s, x, now);
  }

  /** Ack changes nothing when the lookup fails or finds nothing. */
  lemma AckMisses(z: Sys, before: seq<Act>, ask: Ask, why: Error)
    requires ask.AskAck?
    requires if !ask.lists then why == StoreFault
             else why == DeliveryNotFound && Matching(z.store, DeliveryFor(ask.agency, ask.sub, ask.event)) == {}
    ensures Made(z, before, before, ask, Some(why), None)
  {
    MadeNothing(z, before, ask, Some(why), None);
  }

  lemma AckMade(z: Sys, before: seq<Act>, ask: Ask, x: Id, acts: seq<Act>, error: Option<Error>)
    requires WellKeyed(z.store) && ask.AskAck? && ask.lists && x in Matching(z.store, DeliveryFor(ask.agency, ask.sub, ask.event))
    requires AcksOne(ask.agency, x, Get(z.store.entities[x], Status), ask.now, ask.writes, acts, error)
    ensures Made(z, before, before + acts, ask, error, None)
  {
    if acts == [] {
      assert before + acts == before;
      MadeNothing(z, before, ask, error, None);
    } else {
      MadeOne(z, before, ask, Acked(ask.agency, x, ask.now), error, None);
    }
  }

  /** Without faults a fan-out reaches every active subscription; with them, no other. */
  lemma ReachesWhom(ds: seq<Entity>, active: set<Id>, faults: nat -> bool, n: nat)
    requires Reaches(ds, active, faults, n)
    ensures SubRefs(ds) <= active
    ensures NoFaultsFrom(faults, n) ==> SubRefs(ds) == active
  {
    if !faults(n) {
      var subs: seq<Entity> :| DistinctIds(subs) && Ids(subs) == active && SubRefs(ds) == Served(subs, faults, n + 1);
    }
  }

  /** A recording is one that RecordEvent can make, with the luck that its store calls had. */
  lemma RecordingExplained(z: Sys, a: Act, agency: string, req: EventRequest, now: string, e: Entity,
                           faults: nat -> bool, n: nat)
    requires Enabled(z, a) && Records(a, agency, req, now, e, z.store, faults, n)
    ensures RecordingMade(z, agency, EventProps(req, now), now, [a], None)
  {
    var active := ActiveOn(z.store, agency, req.topic);
    ActiveFilter(z.store, agency, req.topic);
    var luck := Luck(true, true, true, a.linked, !faults(n + 2), active - SubRefs(a.deliveries));
    EventPropsKeyed(req, now);
    ReachesWhom(a.deliveries, active, faults, n + 2);
    assert faults(n + 2) ==> a.deliveries == [] && SubRefs(a.deliveries) == {};
    assert active - luck.lost == SubRefs(a.deliveries);
    RecordingWrites(z, agency, EventProps(req, now), now, luck, a);
  }

  /** A recording without faults is complete and linked. */
  lemma FaultFreeRecording(a: Act, agency: string, req: EventRequest, now: string, e: Entity, s: Store,
                           faults: nat -> bool, n: nat)
    requires Records(a, agency, req, now, e, s, faults, n) && NoFaultsFrom(faults, n)
    ensures DeliveryLife.Complete(s, a) && a.linked
  {
    ReachesWhom(a.deliveries, ActiveOn(s, agency, req.topic), faults, n + 2);
    assert KeyIs(a.event, EventTopic, req.topic);
  }

  /**
    Subscribe, then RecordEvent: a subscription that Subscribe created gets exactly one
    delivery of the next event on its pattern, when no store call behind it fails.
   */
  lemma SubscribeThenRecord(agency: string, asked: SubscribeRequest, was: string, u: Entity, s0: Store, s: Store,
                            link: Option<Id>, a: Act, req: EventRequest, now: string, t: Store, faults: nat -> bool, n: nat)
    requires SubsKeyed(s0, agency, asked.service, asked.pattern) == {} && Leaves(agency, asked, was, u, s0, s, link)
    requires a.RecordedEvent? && Records(a, agency, req, now, a.event, s, faults, n) && NoFaultsFrom(faults, n)
    requires RecordingLeaves(a, s, t, now) && req.topic == asked.pattern
    ensures DeliveryLife.ServedOnce(a.deliveries, u.id, a.event)
  {
    ReachesWhom(a.deliveries, ActiveOn(s, agency, req.topic), faults, n + 2);
    assert u.id in SubRefs(a.deliveries);
    var ds := a.deliveries;
    var i :| 0 <= i < |ds| && Get(ds[i], SubscriptionRef) == u.id;
    assert DeliveryAsked(ds[i], agency, u.id, a.event.id, now);
    forall j | 0 <= j < |ds| && KeyIs(ds[j], SubscriptionRef, u.id) ensures j == i {
      assert Get(ds[j], SubscriptionRef) == Get(ds[i], SubscriptionRef);
    }
  }

  lemma IssuedAlike(s: Store, e: Entity, topicId: Id, linked: bool)
    ensures WithEvent(s, e, topicId, linked).issued == Put(s, e).issued
    ensures WithEvent(s, e, topicId, linked).entities == Put(s, e).entities
    ensures forall agency, topic :: ActiveOn(WithEvent(s, e, topicId, linked), agency, topic) == ActiveOn(Put(s, e), agency, topic)
  {
  }

  lemma FanOutHolds(s: Store, e: Entity, w: Store, ds: seq<Entity>, agency: string, topic: string)
    requires WellKeyed(s) && New(s, e) && e.kind == EventKind && e.agency == agency && KeyIs(e, EventTopic, topic)
    requires w.issued == Put(s, e).issued
    requires IsFanOut(ds, w, agency, e.id) && SubRefs(ds) <= Matching(s, ActiveSubs(agency, topic))
    ensures FanOut(s, e, ds)
  {
    forall i | 0 <= i < |ds|
      ensures New(s, ds[i]) && ds[i].id != e.id && Get(ds[i], SubscriptionRef) in Matching(s, ActiveSubs(agency, topic))
    {
      assert New(w, ds[i]) && e.id in w.issued;
      assert Get(ds[i], SubscriptionRef) in SubRefs(ds);
    }
  }

  /** A recording is an act of the run, and its fan-out is told by the store before it. */
  lemma RecordingHolds(z: Sys, a: Act, agency: string, req: EventRequest, now: string, faults: nat -> bool, n: nat)
    requires WellKeyed(z.store) && a.RecordedEvent? && New(z.store, a.event)
    requires a.event == Entity(a.event.id, agency, EventKind, EventProps(req, now))
    requires a.topicId in Matching(z.store, TopicByPattern(agency, req.topic))
    requires var w := WithEvent(z.store, a.event, a.topicId, a.linked);
             IsFanOut(a.deliveries, w, agency, a.event.id) &&
             Reaches(a.deliveries, ActiveOn(w, agency, req.topic), faults, n)
    ensures Enabled(z, a)
    ensures Reaches(a.deliveries, ActiveOn(z.store, agency, req.topic), faults, n)
  {
    var w := WithEvent(z.store, a.event, a.topicId, a.linked);
    IssuedAlike(z.store, a.event, a.topicId, a.linked);
    SubsOutlivePut(z.store, a.event, agency, req.topic);
    ActiveFilter(z.store, agency, req.topic);
    assert ActiveOn(w, agency, req.topic) == ActiveOn(z.store, agency, req.topic);
    ReachesWhom(a.deliveries, ActiveOn(w, agency, req.topic), faults, n);
    assert KeyIs(a.event, EventTopic, req.topic);
    FanOutHolds(z.store, a.event, w, a.deliveries, agency, req.topic);
  }
}
