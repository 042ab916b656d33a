/**
  Runs of the event manager. An `Act` is one completed change: it carries the entities
  created, so fresh IDs, listing order and the outcome of every faulty call are choices
  of the run. Calls that changed nothing leave no act.
 */
module ManagerSpec {
  import opened Wrappers
  import opened Text
  import opened EntityStore

  const ACTIVE := "active"
  const PENDING := "pending"
  const DELIVERED := "delivered"
  const ACKED := "acked"
  const FOR_TOPIC := "for_topic"
  const SUBSCRIBES_TO := "subscribes_to"

  /** The store, and topicHashByKey: the last produces-hash taken over per (agency, service). */
  datatype Sys = Sys(store: Store, hashes: map<string, string>)

  datatype Act =
    | RegisteredTopic(topic: Entity)
    | DeletedTopic(agency: string, id: Id)
    | StoredHash(agency: string, service: string, hash: string, patterns: set<string>)
    | RecordedEvent(event: Entity, topicId: Id, linked: bool, deliveries: seq<Entity>)
    | Subscribed(sub: Entity, link: Option<Id>)
    | UpdatedSubscription(agency: string, id: Id, status: string, now: string)
    | Unsubscribed(agency: string, id: Id)
    | RecordedDelivery(delivery: Entity)
    | MarkedDelivered(agency: string, id: Id, now: string)
    | Acked(agency: string, id: Id, now: string)

  function AgencyOfAct(a: Act): string {
    match a
    case RegisteredTopic(t) => t.agency
    case DeletedTopic(agency, _) => agency
    case StoredHash(agency, _, _, _) => agency
    case RecordedEvent(e, _, _, _) => e.agency
    case Subscribed(u, _) => u.agency
    case UpdatedSubscription(agency, _, _, _) => agency
    case Unsubscribed(agency, _) => agency
    case RecordedDelivery(d) => d.agency
    case MarkedDelivered(agency, _, _) => agency
    case Acked(agency, _, _) => agency
  }

  function TopicByPattern(agency: string, pattern: string): Filter {
    Filter(agency, TopicKind, map[Pattern := pattern])
  }

  function SubByKey(agency: string, service: string, pattern: string): Filter {
    Filter(agency, SubscriptionKind, map[SubscriberService := service, TopicPattern := pattern])
  }

  function ActiveSubs(agency: string, topic: string): Filter {
    Filter(agency, SubscriptionKind, map[Status := ACTIVE, TopicPattern := topic])
  }

  /** The subscriptions of the agency that are active on exactly this topic. */
  function ActiveOn(s: Store, agency: string, topic: string): set<Id> {
    set u | u in s.entities && s.entities[u].kind == SubscriptionKind && s.entities[u].agency == agency &&
            KeyIs(s.entities[u], Status, "active") && KeyIs(s.entities[u], TopicPattern, topic)
  }

  /** The agency's subscriptions of the service to the pattern. */
  function SubsKeyed(s: Store, agency: string, service: string, pattern: string): set<Id> {
    set u | u in s.entities && s.entities[u].kind == SubscriptionKind && s.entities[u].agency == agency &&
            KeyIs(s.entities[u], SubscriberService, service) && KeyIs(s.entities[u], TopicPattern, pattern)
  }

  /** The agency's deliveries of the event to the subscription. */
  function DeliveriesOf(s: Store, agency: string, sub: Id, event: Id): set<Id> {
    set d | d in s.entities && s.entities[d].kind == DeliveryKind && s.entities[d].agency == agency &&
            KeyIs(s.entities[d], SubscriptionRef, sub) && KeyIs(s.entities[d], EventRef, event)
  }

  function DeliveryFor(agency: string, sub: Id, event: Id): Filter {
    Filter(agency, DeliveryKind, map[SubscriptionRef := sub, EventRef := event])
  }

  // ── What the four filters select, said of the entities ────────────────────

  lemma TopicFilter(s: Store, agency: string, pattern: string)
    ensures Matching(s, TopicByPattern(agency, pattern)) == With(s, agency, TopicKind, Pattern, pattern)
  {
  }

  lemma KeyFilter(s: Store, agency: string, service: string, pattern: string)
    ensures Matching(s, SubByKey(agency, service, pattern)) == SubsKeyed(s, agency, service, pattern)
  {
    var f := SubByKey(agency, service, pattern).props;
    assert f[SubscriberService] == service && f[TopicPattern] == pattern;
  }

  lemma ActiveFilter(s: Store, agency: string, topic: string)
    ensures Matching(s, ActiveSubs(agency, topic)) == ActiveOn(s, agency, topic)
  {
    var f := ActiveSubs(agency, topic).props;
    assert f[Status] == "active" && f[TopicPattern] == topic;
  }

  lemma PairFilter(s: Store, agency: string, sub: Id, event: Id)
    ensures Matching(s, DeliveryFor(agency, sub, event)) == DeliveriesOf(s, agency, sub, event)
  {
    var f := DeliveryFor(agency, sub, event).props;
    assert f[SubscriptionRef] == sub && f[EventRef] == event;
  }

  /** "agency:service:pattern", the key of a Subscribe call in subscribeKeysSeen. */
  function SeenKey(agency: string, service: string, pattern: string): string {
    Key(agency, Key(service, pattern))
  }

  lemma KeySpelled(agency: string, service: string, pattern: string)
    ensures SeenKey(agency, service, pattern) == agency + ":" + service + ":" + pattern
  {
  }

  predicate New(s: Store, e: Entity) {
    e.id !in s.issued
  }

  function DeliveryProps(sub: Id, event: Id, now: string): Props {
    map[SubscriptionRef := sub, EventRef := event, Status := PENDING, CreatedAt := now, UpdatedAt := now]
  }

  /** `ds` were written for `event` at `now`. */
  ghost predicate WrittenFor(ds: seq<Entity>, event: Id, now: string) {
    forall i | 0 <= i < |ds| :: ds[i].props == DeliveryProps(Get(ds[i], SubscriptionRef), event, now)
  }

  /** A delivery as RecordDelivery creates it. */
  predicate IsPending(d: Entity, agency: string, event: Id) {
    d.kind == DeliveryKind && d.agency == agency && SubscriptionRef in d.props &&
    KeyIs(d, EventRef, event) && KeyIs(d, Status, PENDING) && AckedAt !in d.props
  }

  /** `ds` are new pending deliveries of `e`, at most one for each active subscription of its topic. */
  ghost predicate FanOut(s: Store, e: Entity, ds: seq<Entity>) {
    && DistinctIds(ds)
    && (forall i | 0 <= i < |ds| :: New(s, ds[i]) && ds[i].id != e.id && IsPending(ds[i], e.agency, e.id))
    && (forall i | 0 <= i < |ds| ::
          Get(ds[i], SubscriptionRef) in Matching(s, ActiveSubs(e.agency, Get(e, EventTopic))))
    && (forall i, j | 0 <= i < j < |ds| :: Get(ds[i], SubscriptionRef) != Get(ds[j], SubscriptionRef))
  }

  /** The subscriptions that `ds` deliver to. */
  function SubRefs(ds: seq<Entity>): set<Id> {
    set i | 0 <= i < |ds| :: Get(ds[i], SubscriptionRef)
  }

  ghost predicate Enabled(z: Sys, a: Act) {
    var s := z.store;
    match a
    case RegisteredTopic(t) =>
      New(s, t) && t.kind == TopicKind && Pattern in t.props &&
      Matching(s, TopicByPattern(t.agency, t.props[Pattern])) == {}
    case DeletedTopic(agency, id) => Present(s, agency, id)
    case StoredHash(agency, _, _, patterns) =>
      forall p | p in patterns :: Matching(s, TopicByPattern(agency, p)) != {}
    case RecordedEvent(e, topicId, _, ds) =>
      New(s, e) && e.kind == EventKind && EventTopic in e.props &&
      topicId in Matching(s, TopicByPattern(e.agency, e.props[EventTopic])) && FanOut(s, e, ds)
    case Subscribed(u, _) =>
      New(s, u) && u.kind == SubscriptionKind && SubscriberService in u.props && TopicPattern in u.props &&
      KeyIs(u, Status, ACTIVE) && Matching(s, SubByKey(u.agency, u.props[SubscriberService], u.props[TopicPattern])) == {}
    case UpdatedSubscription(agency, id, _, _) => Present(s, agency, id)
    case Unsubscribed(agency, id) => Present(s, agency, id)
    case RecordedDelivery(d) => New(s, d) && exists event :: IsPending(d, d.agency, event)
    case MarkedDelivered(agency, id, _) => Present(s, agency, id)
    case Acked(agency, id, _) =>
      Present(s, agency, id) && s.entities[id].kind == DeliveryKind && Get(s.entities[id], Status) != ACKED
  }

  function StatusProps(status: string, now: string): Props {
    map[Status := status, UpdatedAt := now]
  }

  function DeliveredProps(now: string): Props {
    map[Status := DELIVERED, LastAttemptedAt := now, UpdatedAt := now]
  }

  function AckedProps(now: string): Props {
    map[Status := ACKED, AckedAt := now, UpdatedAt := now]
  }

  function MergeIf(s: Store, id: Id, props: Props): Store {
    if id in s.entities then Merge(s, id, props) else s
  }

  function WithEvent(s: Store, e: Entity, topicId: Id, linked: bool): Store {
    if linked then Link(Put(s, e), Edge(e.agency, FOR_TOPIC, e.id, topicId)) else Put(s, e)
  }

  function WithSub(s: Store, u: Entity, link: Option<Id>): Store {
    if link.Some? then Link(Put(s, u), Edge(u.agency, SUBSCRIBES_TO, u.id, link.value)) else Put(s, u)
  }

  function Apply(z: Sys, a: Act): Sys {
    var s := z.store;
    match a
    case RegisteredTopic(t) => z.(store := Put(s, t))
    case DeletedTopic(_, id) => z.(store := RemoveAll(s, {id}))
    case StoredHash(agency, service, hash, _) => z.(hashes := z.hashes[Key(agency, service) := hash])
    case RecordedEvent(e, topicId, linked, ds) => z.(store := PutAll(WithEvent(s, e, topicId, linked), ds))
    case Subscribed(u, link) => z.(store := WithSub(s, u, link))
    case UpdatedSubscription(_, id, status, now) => z.(store := MergeIf(s, id, StatusProps(status, now)))
    case Unsubscribed(_, id) => z.(store := RemoveAll(s, {id}))
    case RecordedDelivery(d) => z.(store := Put(s, d))
    case MarkedDelivered(_, id, now) => z.(store := MergeIf(s, id, DeliveredProps(now)))
    case Acked(_, id, now) => z.(store := MergeIf(s, id, AckedProps(now)))
  }

  function After(z: Sys, acts: seq<Act>): Sys {
    if acts == [] then z else Apply(After(z, acts[..|acts| - 1]), acts[|acts| - 1])
  }

  /** `acts` can happen in this order from `z`. */
  ghost predicate Possible(z: Sys, acts: seq<Act>) {
    acts != [] ==>
      Possible(z, acts[..|acts| - 1]) && Enabled(After(z, acts[..|acts| - 1]), acts[|acts| - 1])
  }

  lemma RunMore(z: Sys, acts: seq<Act>, a: Act)
    requires Possible(z, acts) && Enabled(After(z, acts), a)
    ensures Possible(z, acts + [a]) && After(z, acts + [a]) == Apply(After(z, acts), a)
  {
    assert (acts + [a])[..|acts|] == acts;
  }

  lemma {:induction false} RunPrefix(z: Sys, acts: seq<Act>, n: nat)
    requires Possible(z, acts) && n <= |acts|
    ensures Possible(z, acts[..n])
    ensures n < |acts| ==> Enabled(After(z, acts[..n]), acts[n])
    ensures n < |acts| ==> After(z, acts[..n + 1]) == Apply(After(z, acts[..n]), acts[n])
  {
    if n < |acts| {
      var init := acts[..|acts| - 1];
      assert acts[..n + 1][..n] == acts[..n];
      if n < |init| {
        RunPrefix(z, init, n);
        assert init[..n] == acts[..n];
      }
    } else {
      assert acts[..n] == acts;
    }
  }

  /** A run seen from its first act. */
  lemma {:induction false} RunTail(z: Sys, acts: seq<Act>)
    requires acts != []
    ensures Possible(z, acts) <==> Enabled(z, acts[0]) && Possible(Apply(z, acts[0]), acts[1..])
    ensures After(z, acts) == After(Apply(z, acts[0]), acts[1..])
    decreases |acts|
  {
    var init := acts[..|acts| - 1];
    if init != [] {
      RunTail(z, init);
      assert acts[1..][..|acts| - 2] == init[1..];
    }
  }

  // ── Puts in sequence ──────────────────────────────────────────────────────

  /** What a batch of creations leaves: the old entities and the new ones, nothing else. */
  lemma {:induction false} PutAllContents(s: Store, es: seq<Entity>)
    requires DistinctIds(es) && forall i | 0 <= i < |es| :: es[i].id !in s.entities
    ensures PutAll(s, es).entities.Keys == s.entities.Keys + Ids(es)
    ensures forall id | id in s.entities :: PutAll(s, es).entities[id] == s.entities[id]
    ensures forall i | 0 <= i < |es| :: es[i].id in PutAll(s, es).entities && PutAll(s, es).entities[es[i].id] == es[i]
    ensures PutAll(s, es).issued == s.issued + Ids(es)
    ensures PutAll(s, es).edges == s.edges
  {
    if es != [] {
      var init, last := es[..|es| - 1], es[|es| - 1];
      PutAllContents(s, init);
      assert es == init + [last];
      IdsAppend(init, last);
      forall i | 0 <= i < |es| ensures es[i].id in PutAll(s, es).entities && PutAll(s, es).entities[es[i].id] == es[i] {
        if i < |init| {
          assert init[i] == es[i];
        }
      }
    }
  }
}
