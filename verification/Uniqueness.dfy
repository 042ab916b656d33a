/**
  The unique keys the schema declares, and where deliveries come from, in every state a
  sequential run reaches: each key check is a list-then-create of the manager itself.
 */
module Uniqueness {
  import opened EntityStore
  import opened ManagerSpec

  /** Two entities of one kind and agency that agree on all of `keys`. */
  ghost predicate Rivals(x: Entity, y: Entity, kind: Kind, keys: set<Prop>) {
    x.kind == kind == y.kind && x.agency == y.agency &&
    forall p | p in keys :: p in x.props && p in y.props && x.props[p] == y.props[p]
  }

  ghost predicate Unique(s: Store, kind: Kind, keys: set<Prop>) {
    forall x, y | x in s.entities && y in s.entities && Rivals(s.entities[x], s.entities[y], kind, keys) :: x == y
  }

  const TOPIC_KEY: set<Prop> := {Pattern}
  const SUB_KEY: set<Prop> := {SubscriberService, TopicPattern}
  const DELIVERY_KEY: set<Prop> := {SubscriptionRef, EventRef}

  /**
    The event and subscription a delivery names were stored once; while both still are,
    they are of its agency and the event's topic is the subscription's pattern.
   */
  ghost predicate Sound(s: Store, d: Entity) {
    && SubscriptionRef in d.props && EventRef in d.props
    && var u, e := d.props[SubscriptionRef], d.props[EventRef];
    && u in s.issued && e in s.issued
    && (e in s.entities ==> s.entities[e].kind == EventKind && s.entities[e].agency == d.agency)
    && (u in s.entities ==> s.entities[u].kind == SubscriptionKind && s.entities[u].agency == d.agency)
    && (e in s.entities && u in s.entities ==>
          EventTopic in s.entities[e].props && KeyIs(s.entities[u], TopicPattern, s.entities[e].props[EventTopic]))
  }

  ghost predicate Provenance(s: Store) {
    forall x | x in s.entities && s.entities[x].kind == DeliveryKind :: Sound(s, s.entities[x])
  }

  ghost predicate Inv(s: Store) {
    && WellKeyed(s) && Provenance(s)
    && Unique(s, TopicKind, TOPIC_KEY) && Unique(s, SubscriptionKind, SUB_KEY) && Unique(s, DeliveryKind, DELIVERY_KEY)
  }

  /** RecordDelivery is called only from RecordEvent. */
  predicate Internal(acts: seq<Act>) {
    forall i | 0 <= i < |acts| :: !acts[i].RecordedDelivery?
  }

  // ── Single changes ────────────────────────────────────────────────────────

  lemma RivalsSymmetric(x: Entity, y: Entity, kind: Kind, keys: set<Prop>)
    ensures Rivals(x, y, kind, keys) <==> Rivals(y, x, kind, keys)
  {
  }

  lemma UniquePut(s: Store, e: Entity, kind: Kind, keys: set<Prop>)
    requires WellKeyed(s) && New(s, e) && Unique(s, kind, keys)
    requires forall x | x in s.entities :: !Rivals(s.entities[x], e, kind, keys)
    ensures Unique(Put(s, e), kind, keys)
  {
    var t := Put(s, e);
    forall x, y | x in t.entities && y in t.entities && Rivals(t.entities[x], t.entities[y], kind, keys)
      ensures x == y
    {
      RivalsSymmetric(t.entities[x], t.entities[y], kind, keys);
    }
  }

  lemma ProvenancePut(s: Store, e: Entity)
    requires WellKeyed(s) && New(s, e) && Provenance(s)
    requires e.kind == DeliveryKind ==> Sound(s, e)
    ensures Provenance(Put(s, e))
  {
    var t := Put(s, e);
    forall x | x in t.entities && t.entities[x].kind == DeliveryKind ensures Sound(t, t.entities[x]) {
      assert Sound(s, t.entities[x]);
    }
  }

  lemma InvPut(s: Store, e: Entity)
    requires Inv(s) && New(s, e) && (e.kind == DeliveryKind ==> Sound(s, e))
    requires forall x | x in s.entities ::
        !Rivals(s.entities[x], e, TopicKind, TOPIC_KEY) && !Rivals(s.entities[x], e, SubscriptionKind, SUB_KEY) &&
        !Rivals(s.entities[x], e, DeliveryKind, DELIVERY_KEY)
    ensures Inv(Put(s, e))
  {
    UniquePut(s, e, TopicKind, TOPIC_KEY);
    UniquePut(s, e, SubscriptionKind, SUB_KEY);
    UniquePut(s, e, DeliveryKind, DELIVERY_KEY);
    ProvenancePut(s, e);
  }

  lemma NoRivalTopic(s: Store, e: Entity)
    requires e.kind == TopicKind && Pattern in e.props
    requires Matching(s, TopicByPattern(e.agency, e.props[Pattern])) == {}
    ensures forall x | x in s.entities :: !Rivals(s.entities[x], e, TopicKind, TOPIC_KEY)
  {
    forall x | x in s.entities ensures !Rivals(s.entities[x], e, TopicKind, TOPIC_KEY) {
      assert x !in Matching(s, TopicByPattern(e.agency, e.props[Pattern]));
      assert Pattern in TOPIC_KEY;
    }
  }

  lemma NoRivalSub(s: Store, e: Entity)
    requires e.kind == SubscriptionKind && SubscriberService in e.props && TopicPattern in e.props
    requires Matching(s, SubByKey(e.agency, e.props[SubscriberService], e.props[TopicPattern])) == {}
    ensures forall x | x in s.entities :: !Rivals(s.entities[x], e, SubscriptionKind, SUB_KEY)
  {
    forall x | x in s.entities ensures !Rivals(s.entities[x], e, SubscriptionKind, SUB_KEY) {
      assert x !in Matching(s, SubByKey(e.agency, e.props[SubscriberService], e.props[TopicPattern]));
      assert SubscriberService in SUB_KEY && TopicPattern in SUB_KEY;
    }
  }

  lemma InvEdges(s: Store, e: Edge)
    requires Inv(s)
    ensures Inv(Link(s, e))
  {
    assert forall x | x in s.entities && s.entities[x].kind == DeliveryKind :: Sound(s, s.entities[x]);
  }

  lemma InvRemove(s: Store, gone: set<Id>)
    requires Inv(s)
    ensures Inv(RemoveAll(s, gone))
  {
    var t := RemoveAll(s, gone);
    forall x | x in t.entities && t.entities[x].kind == DeliveryKind ensures Sound(t, t.entities[x]) {
      assert Sound(s, s.entities[x]);
    }
  }

  /** Updates never touch a key property. */
  predicate KeyFree(props: Props) {
    Pattern !in props && SubscriberService !in props && TopicPattern !in props && SubscriptionRef !in props &&
    EventRef !in props && EventTopic !in props
  }

  lemma UniqueMerge(s: Store, id: Id, props: Props, kind: Kind, keys: set<Prop>)
    requires id in s.entities && Unique(s, kind, keys) && forall p | p in keys :: p !in props
    ensures Unique(Merge(s, id, props), kind, keys)
  {
    var t := Merge(s, id, props);
    forall x, y | x in t.entities && y in t.entities && Rivals(t.entities[x], t.entities[y], kind, keys)
      ensures x == y
    {
      assert Rivals(s.entities[x], s.entities[y], kind, keys);
    }
  }

  lemma InvMerge(s: Store, id: Id, props: Props)
    requires Inv(s) && id in s.entities && KeyFree(props)
    ensures Inv(Merge(s, id, props))
  {
    var t := Merge(s, id, props);
    UniqueMerge(s, id, props, TopicKind, TOPIC_KEY);
    UniqueMerge(s, id, props, SubscriptionKind, SUB_KEY);
    UniqueMerge(s, id, props, DeliveryKind, DELIVERY_KEY);
    forall x | x in t.entities && t.entities[x].kind == DeliveryKind ensures Sound(t, t.entities[x]) {
      assert Sound(s, s.entities[x]);
    }
  }

  // ── Fan-out ───────────────────────────────────────────────────────────────

  lemma InvEvent(s: Store, e: Entity)
    requires Inv(s) && New(s, e) && e.kind == EventKind
    ensures Inv(Put(s, e))
  {
    InvPut(s, e);
  }

  lemma {:induction false} InvFanOut(s: Store, e: Entity, topicId: Id, linked: bool, ds: seq<Entity>)
    requires Inv(s) && New(s, e) && e.kind == EventKind && EventTopic in e.props && FanOut(s, e, ds)
    ensures Inv(PutAll(WithEvent(s, e, topicId, linked), ds))
  {
    var w := WithEvent(s, e, topicId, linked);
    if ds == [] {
      InvEvent(s, e);
      InvEdges(Put(s, e), Edge(e.agency, FOR_TOPIC, e.id, topicId));
    } else {
      var init, d := ds[..|ds| - 1], ds[|ds| - 1];
      InvFanOut(s, e, topicId, linked, init);
      assert ds == init + [d];
      NextSound(s, e, w, init, d);
      NextUnrivalled(s, e, w, init, d);
      InvPut(PutAll(w, init), d);
    }
  }

  /** The next delivery of a fan-out names the event and a subscription of its topic. */
  lemma NextSound(s: Store, e: Entity, w: Store, init: seq<Entity>, d: Entity)
    requires Inv(s) && New(s, e) && e.kind == EventKind && EventTopic in e.props && FanOut(s, e, init + [d])
    requires w.entities == Put(s, e).entities && w.issued == Put(s, e).issued
    ensures New(PutAll(w, init), d) && Sound(PutAll(w, init), d)
  {
    var ds := init + [d];
    assert forall i | 0 <= i < |init| :: ds[i] == init[i];
    assert ds[|init|] == d;
    PutAllContents(w, init);
    assert d.id !in Ids(init);
    assert d.props[SubscriptionRef] in Matching(s, ActiveSubs(e.agency, Get(e, EventTopic)));
  }

  /** And it has no rival among the deliveries before it. */
  lemma NextUnrivalled(s: Store, e: Entity, w: Store, init: seq<Entity>, d: Entity)
    requires Inv(s) && New(s, e) && e.kind == EventKind && FanOut(s, e, init + [d])
    requires w.entities == Put(s, e).entities
    ensures forall x | x in PutAll(w, init).entities :: !Rivals(PutAll(w, init).entities[x], d, DeliveryKind, DELIVERY_KEY)
  {
    var ds := init + [d];
    assert forall i | 0 <= i < |init| :: ds[i] == init[i];
    assert ds[|init|] == d;
    PutAllContents(w, init);
    var t := PutAll(w, init);
    assert SubscriptionRef in DELIVERY_KEY && EventRef in DELIVERY_KEY;
    forall x | x in t.entities ensures !Rivals(t.entities[x], d, DeliveryKind, DELIVERY_KEY) {
      if x in s.entities {
        assert t.entities[x] == s.entities[x];
        assert s.entities[x].kind == DeliveryKind ==> Sound(s, s.entities[x]);
      } else if x in Ids(init) {
        var i :| 0 <= i < |init| && init[i].id == x;
        assert Get(ds[i], SubscriptionRef) != Get(ds[|init|], SubscriptionRef);
      }
    }
  }

  // ── Every sequential run ──────────────────────────────────────────────────

  lemma InvStep(z: Sys, a: Act)
    requires Inv(z.store) && Enabled(z, a) && !a.RecordedDelivery?
    ensures Inv(Apply(z, a).store)
  {
    var s := z.store;
    match a {
      case RegisteredTopic(t) =>
        NoRivalTopic(s, t);
        InvPut(s, t);
      case DeletedTopic(_, id) => InvRemove(s, {id});
      case StoredHash(_, _, _, _) =>
      case RecordedEvent(e, topicId, linked, ds) => InvFanOut(s, e, topicId, linked, ds);
      case Subscribed(u, link) =>
        NoRivalSub(s, u);
        InvPut(s, u);
        if link.Some? {
          InvEdges(Put(s, u), Edge(u.agency, SUBSCRIBES_TO, u.id, link.value));
        }
      case UpdatedSubscription(_, id, status, now) => InvMerge(s, id, StatusProps(status, now));
      case Unsubscribed(_, id) => InvRemove(s, {id});
      case MarkedDelivered(_, id, now) => InvMerge(s, id, DeliveredProps(now));
      case Acked(_, id, now) => InvMerge(s, id, AckedProps(now));
    }
  }

  /**
    In every sequential run, under every fault schedule: at most one topic per pattern,
    one subscription per (service, pattern) and one delivery per (subscription, event) in
    an agency, and every delivery has sound provenance.
   */
  lemma {:induction false} ReachableInv(z: Sys, acts: seq<Act>)
    requires Inv(z.store) && Possible(z, acts) && Internal(acts)
    ensures Inv(After(z, acts).store)
  {
    if acts != [] {
      ReachableInv(z, acts[..|acts| - 1]);
      InvStep(After(z, acts[..|acts| - 1]), acts[|acts| - 1]);
    }
  }

  /** So each of the manager's lookups by key finds at most one entity. */
  lemma LookupsAreSingle(s: Store, agency: string, service: string, pattern: string, sub: Id, event: Id)
    requires Inv(s)
    ensures forall x, y | x in Matching(s, TopicByPattern(agency, pattern)) &&
                          y in Matching(s, TopicByPattern(agency, pattern)) :: x == y
    ensures forall x, y | x in Matching(s, SubByKey(agency, service, pattern)) &&
                          y in Matching(s, SubByKey(agency, service, pattern)) :: x == y
    ensures forall x, y | x in Matching(s, DeliveryFor(agency, sub, event)) &&
                          y in Matching(s, DeliveryFor(agency, sub, event)) :: x == y
  {
    forall x, y | x in Matching(s, TopicByPattern(agency, pattern)) && y in Matching(s, TopicByPattern(agency, pattern))
      ensures x == y
    {
      assert Rivals(s.entities[x], s.entities[y], TopicKind, TOPIC_KEY);
    }
    forall x, y | x in Matching(s, SubByKey(agency, service, pattern)) && y in Matching(s, SubByKey(agency, service, pattern))
      ensures x == y
    {
      assert Rivals(s.entities[x], s.entities[y], SubscriptionKind, SUB_KEY);
    }
    forall x, y | x in Matching(s, DeliveryFor(agency, sub, event)) && y in Matching(s, DeliveryFor(agency, sub, event))
      ensures x == y
    {
      assert Rivals(s.entities[x], s.entities[y], DeliveryKind, DELIVERY_KEY);
    }
  }
}
