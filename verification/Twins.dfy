/**
  Acts that do the same in two mirrored stores: equal but for the IDs they are given and the
  IDs they create, whose pairing they extend.
 */
module Twins {
  import opened Text
  import opened EntityStore
  import opened ManagerSpec
  import opened Isolation
  import opened Renaming

  ghost predicate HasTwin(q: Pairing, d: Entity, es: seq<Entity>) {
    exists j :: 0 <= j < |es| && Twin(q, d, es[j])
  }

  ghost predicate IsTwin(q: Pairing, e: Entity, ds: seq<Entity>) {
    exists i :: 0 <= i < |ds| && Twin(q, ds[i], e)
  }

  /** Each delivery of one fan-out has its twin in the other. */
  ghost predicate TwinFanOuts(q: Pairing, ds: seq<Entity>, es: seq<Entity>) {
    (forall i | 0 <= i < |ds| :: HasTwin(q, ds[i], es)) && (forall j | 0 <= j < |es| :: IsTwin(q, es[j], ds))
  }

  /** `b` is `a` with its IDs renamed. */
  ghost predicate SameAct(q: Pairing, a: Act, b: Act) {
    match a
    case RegisteredTopic(t) => b.RegisteredTopic? && Twin(q, t, b.topic)
    case DeletedTopic(g, id) => b.DeletedTopic? && b == DeletedTopic(g, b.id) && Linked(q, id, b.id)
    case StoredHash(_, _, _, _) => b == a
    case RecordedEvent(e, topicId, linked, ds) =>
      b.RecordedEvent? && Twin(q, e, b.event) && Linked(q, topicId, b.topicId) && b.linked == linked &&
      TwinFanOuts(q, ds, b.deliveries)
    case Subscribed(u, link) => b.Subscribed? && Twin(q, u, b.sub) && (link.Some? <==> b.link.Some?)
    case UpdatedSubscription(g, id, status, now) =>
      b.UpdatedSubscription? && b == UpdatedSubscription(g, b.id, status, now) && Linked(q, id, b.id)
    case Unsubscribed(g, id) => b.Unsubscribed? && b == Unsubscribed(g, b.id) && Linked(q, id, b.id)
    case RecordedDelivery(d) => b.RecordedDelivery? && Twin(q, d, b.delivery)
    case MarkedDelivered(g, id, now) => b.MarkedDelivered? && b == MarkedDelivered(g, b.id, now) && Linked(q, id, b.id)
    case Acked(g, id, now) => b.Acked? && b == Acked(g, b.id, now) && Linked(q, id, b.id)
  }

  ghost predicate SameActs(q: Pairing, acts: seq<Act>, acts': seq<Act>) {
    |acts| == |acts'| && forall i | 0 <= i < |acts| :: SameAct(q, acts[i], acts'[i])
  }

  /** What two acts that do the same created is paired. */
  ghost function PairAct(r: Pairing, a: Act, b: Act): Pairing {
    if a.RegisteredTopic? && b.RegisteredTopic? then Pair(r, a.topic.id, b.topic.id)
    else if a.Subscribed? && b.Subscribed? then Pair(r, a.sub.id, b.sub.id)
    else if a.RecordedEvent? && b.RecordedEvent? then
      PairAll(Pair(r, a.event.id, b.event.id), a.deliveries, b.deliveries)
    else r
  }

  ghost function PairActs(r: Pairing, acts: seq<Act>, acts': seq<Act>): Pairing
    decreases |acts|
  {
    if acts == [] || acts' == [] then r else PairActs(PairAct(r, acts[0], acts'[0]), acts[1..], acts'[1..])
  }

  // ── Pairings only grow ────────────────────────────────────────────────────

  lemma SameActGrows(r: Pairing, q: Pairing, a: Act, b: Act)
    requires Grows(r, q) && SameAct(r, a, b)
    ensures SameAct(q, a, b)
  {
    if a.RecordedEvent? {
      TwinsGrow(r, q, a.deliveries, b.deliveries);
    }
  }

  lemma TwinsGrow(r: Pairing, q: Pairing, ds: seq<Entity>, es: seq<Entity>)
    requires Grows(r, q) && TwinFanOuts(r, ds, es)
    ensures TwinFanOuts(q, ds, es)
  {
    forall i | 0 <= i < |ds| ensures HasTwin(q, ds[i], es) {
      assert HasTwin(r, ds[i], es);
      var j :| 0 <= j < |es| && Twin(r, ds[i], es[j]);
      TwinGrows(r, q, ds[i], es[j]);
    }
    forall j | 0 <= j < |es| ensures IsTwin(q, es[j], ds) {
      assert IsTwin(r, es[j], ds);
      var i :| 0 <= i < |ds| && Twin(r, ds[i], es[j]);
      TwinGrows(r, q, ds[i], es[j]);
    }
  }

  // ── Acts that do the same ─────────────────────────────────────────────────

  /** Alike before what they create is paired: the same but for new IDs and the names of old ones. */
  ghost predicate Akin(r: Pairing, a: Act, b: Act) {
    match a
    case RegisteredTopic(t) => b.RegisteredTopic? && b.topic == t.(id := b.topic.id)
    case RecordedEvent(e, topicId, linked, ds) =>
      b.RecordedEvent? && b.event == e.(id := b.event.id) && Linked(r, topicId, b.topicId) && b.linked == linked &&
      ServeAlike(ds, b.deliveries, Pair(r, e.id, b.event.id)) && PropsAlike(ds, b.deliveries, Pair(r, e.id, b.event.id))
    case Subscribed(u, link) => b.Subscribed? && b.sub == u.(id := b.sub.id) && (link.Some? <==> b.link.Some?)
    case RecordedDelivery(_) => false
    case _ => SameAct(r, a, b)
  }

  lemma NewTwin(z: Sys, y: Sys, agency: string, r: Pairing, e: Entity, d: Entity)
    requires Renamed(z, y, agency, r) && New(z.store, e) && New(y.store, d) && e.agency == agency
    requires e.kind != DeliveryKind && d == e.(id := d.id)
    ensures Mirrored(Put(z.store, e), Put(y.store, d), agency, Pair(r, e.id, d.id))
    ensures Grows(r, Pair(r, e.id, d.id)) && Twin(Pair(r, e.id, d.id), e, d)
  {
    PutMirrored(z.store, y.store, agency, r, e, d);
    PairPaired(z.store, y.store, r, e.id, d.id);
  }

  lemma SubTwins(z: Sys, y: Sys, agency: string, r: Pairing, a: Act, b: Act)
    requires Renamed(z, y, agency, r) && Enabled(z, a) && Enabled(y, b) && a.Subscribed? && a.sub.agency == agency
    requires Akin(r, a, b)
    ensures Renamed(Apply(z, a), Apply(y, b), agency, PairAct(r, a, b))
    ensures Grows(r, PairAct(r, a, b)) && SameAct(PairAct(r, a, b), a, b)
  {
    NewTwin(z, y, agency, r, a.sub, b.sub);
    if a.link.Some? {
      LinkMirrored(Put(z.store, a.sub), Put(y.store, b.sub), agency, PairAct(r, a, b),
                   Edge(agency, SUBSCRIBES_TO, a.sub.id, a.link.value), Edge(agency, SUBSCRIBES_TO, b.sub.id, b.link.value));
    }
  }

  /** A recorded event as seen by its deliveries: they are new in the store that has the event. */
  lemma FanOutFresh(s: Store, e: Entity, topicId: Id, linked: bool, ds: seq<Entity>)
    requires New(s, e) && FanOut(s, e, ds)
    ensures Renaming.NewDeliveries(WithEvent(s, e, topicId, linked), e.agency, ds)
  {
    assert forall i | 0 <= i < |ds| :: IsPending(ds[i], e.agency, e.id);
  }

  lemma EventMirrored(z: Sys, y: Sys, agency: string, r: Pairing, a: Act, b: Act)
    requires Renamed(z, y, agency, r) && a.RecordedEvent? && b.RecordedEvent? && a.event.agency == agency
    requires New(z.store, a.event) && New(y.store, b.event) && a.event.kind == EventKind
    requires b.event == a.event.(id := b.event.id) && b.linked == a.linked
    ensures Mirrored(WithEvent(z.store, a.event, a.topicId, a.linked), WithEvent(y.store, b.event, b.topicId, b.linked),
                     agency, Pair(r, a.event.id, b.event.id))
    ensures Grows(r, Pair(r, a.event.id, b.event.id)) && Twin(Pair(r, a.event.id, b.event.id), a.event, b.event)
  {
    NewTwin(z, y, agency, r, a.event, b.event);
    LinkMirrored(Put(z.store, a.event), Put(y.store, b.event), agency, Pair(r, a.event.id, b.event.id),
                 Edge(agency, FOR_TOPIC, a.event.id, a.topicId), Edge(agency, FOR_TOPIC, b.event.id, b.topicId));
  }

  lemma FanOutTwins(s: Store, t: Store, agency: string, r: Pairing, ds: seq<Entity>, es: seq<Entity>)
    requires Mirrored(s, t, agency, r) && ServeAlike(ds, es, r) && PropsAlike(ds, es, r)
    requires Renaming.NewDeliveries(s, agency, ds) && Renaming.NewDeliveries(t, agency, es)
    ensures Mirrored(PutAll(s, ds), PutAll(t, es), agency, PairAll(r, ds, es))
    ensures Grows(r, PairAll(r, ds, es)) && TwinFanOuts(PairAll(r, ds, es), ds, es)
  {
    PutAllMirrored(s, t, agency, r, ds, es);
    PairAllPaired(s, t, r, ds, es);
    PropsAlikeFlip(ds, es, r);
    AllTwins(s, t, agency, r, ds, es);
  }

  lemma AllTwins(s: Store, t: Store, agency: string, r: Pairing, ds: seq<Entity>, es: seq<Entity>)
    requires Paired(r) && r.to.Keys <= s.issued && r.from.Keys <= t.issued
    requires ServeAlike(ds, es, r) && PropsAlike(ds, es, r) && PropsAlike(es, ds, Flip(r))
    requires Renaming.NewDeliveries(s, agency, ds) && Renaming.NewDeliveries(t, agency, es)
    requires Paired(PairAll(r, ds, es))
    ensures TwinFanOuts(PairAll(r, ds, es), ds, es)
  {
    var q := PairAll(r, ds, es);
    forall i | 0 <= i < |ds| ensures HasTwin(q, ds[i], es) {
      var j := TwinOf(s, t, agency, ds, es, r, i);
    }
    forall j | 0 <= j < |es| ensures IsTwin(q, es[j], ds) {
      var i := TwinOf(t, s, agency, es, ds, Flip(r), j);
      assert Flip(PairAll(Flip(r), es, ds)) == q;
      TwinFlip(Flip(q), es[j], ds[i]);
    }
  }

  lemma RecordingMirrored(z: Sys, y: Sys, agency: string, r: Pairing, a: Act, b: Act)
    requires Renamed(z, y, agency, r) && a.RecordedEvent? && a.event.agency == agency && Akin(r, a, b)
    requires New(z.store, a.event) && New(y.store, b.event) && a.event.kind == EventKind
    requires Renaming.NewDeliveries(WithEvent(z.store, a.event, a.topicId, a.linked), agency, a.deliveries)
    requires Renaming.NewDeliveries(WithEvent(y.store, b.event, b.topicId, b.linked), agency, b.deliveries)
    ensures var q := PairAct(r, a, b);
            Mirrored(Apply(z, a).store, Apply(y, b).store, agency, q) && Grows(r, q) && Twin(q, a.event, b.event) &&
            TwinFanOuts(q, a.deliveries, b.deliveries)
  {
    var p, q := Pair(r, a.event.id, b.event.id), PairAct(r, a, b);
    var s, t := WithEvent(z.store, a.event, a.topicId, a.linked), WithEvent(y.store, b.event, b.topicId, b.linked);
    EventMirrored(z, y, agency, r, a, b);
    FanOutTwins(s, t, agency, p, a.deliveries, b.deliveries);
    GrowsTransitive(r, p, q);
    TwinGrows(p, q, a.event, b.event);
  }

  lemma EventTwins(z: Sys, y: Sys, agency: string, r: Pairing, a: Act, b: Act)
    requires Renamed(z, y, agency, r) && Enabled(z, a) && Enabled(y, b) && a.RecordedEvent? && a.event.agency == agency
    requires Akin(r, a, b)
    ensures Renamed(Apply(z, a), Apply(y, b), agency, PairAct(r, a, b))
    ensures Grows(r, PairAct(r, a, b)) && SameAct(PairAct(r, a, b), a, b)
  {
    FanOutFresh(z.store, a.event, a.topicId, a.linked, a.deliveries);
    FanOutFresh(y.store, b.event, b.topicId, b.linked, b.deliveries);
    RecordingMirrored(z, y, agency, r, a, b);
  }

  lemma WriteTwins(z: Sys, y: Sys, agency: string, r: Pairing, id: Id, id': Id, props: Props)
    requires Renamed(z, y, agency, r) && Present(z.store, agency, id) && Linked(r, id, id')
    requires forall k | k in props :: !IsRef(k)
    ensures Renamed(z.(store := MergeIf(z.store, id, props)), y.(store := MergeIf(y.store, id', props)), agency, r)
  {
    MergeMirrored(z.store, y.store, agency, r, id, id', props);
  }

  lemma HashTwins(z: Sys, y: Sys, agency: string, r: Pairing, key: string, hash: string)
    requires Renamed(z, y, agency, r)
    ensures Renamed(z.(hashes := z.hashes[key := hash]), y.(hashes := y.hashes[key := hash]), agency, r)
  {
  }

  lemma RemovalTwins(z: Sys, y: Sys, agency: string, r: Pairing, id: Id, id': Id)
    requires Renamed(z, y, agency, r) && Linked(r, id, id')
    ensures Renamed(z.(store := RemoveAll(z.store, {id})), y.(store := RemoveAll(y.store, {id'})), agency, r)
  {
    RemoveMirrored(z.store, y.store, agency, r, id, id');
  }

  lemma TopicTwins(z: Sys, y: Sys, agency: string, r: Pairing, a: Act, b: Act)
    requires Renamed(z, y, agency, r) && Enabled(z, a) && Enabled(y, b) && a.RegisteredTopic? && a.topic.agency == agency
    requires Akin(r, a, b)
    ensures Renamed(Apply(z, a), Apply(y, b), agency, PairAct(r, a, b))
    ensures Grows(r, PairAct(r, a, b)) && SameAct(PairAct(r, a, b), a, b)
  {
    NewTwin(z, y, agency, r, a.topic, b.topic);
  }

  /** Acts on entities and hashes that were there before. */
  predicate Creates(a: Act) {
    a.RegisteredTopic? || a.RecordedEvent? || a.Subscribed? || a.RecordedDelivery?
  }

  /** The properties that an act writes on an entity. */
  function Written(a: Act): Props {
    match a
    case UpdatedSubscription(_, _, status, now) => StatusProps(status, now)
    case MarkedDelivered(_, _, now) => DeliveredProps(now)
    case Acked(_, _, now) => AckedProps(now)
    case _ => map[]
  }

  lemma GivenTwins(z: Sys, y: Sys, agency: string, r: Pairing, a: Act, b: Act)
    requires Renamed(z, y, agency, r) && !Creates(a) && AgencyOfAct(a) == agency && SameAct(r, a, b)
    requires !a.StoredHash? ==> Present(z.store, agency, a.id)
    ensures Renamed(Apply(z, a), Apply(y, b), agency, r)
  {
    if a.StoredHash? {
      HashTwins(z, y, agency, r, Key(agency, a.service), a.hash);
    } else if a.DeletedTopic? || a.Unsubscribed? {
      RemovalTwins(z, y, agency, r, a.id, b.id);
    } else {
      WriteTwins(z, y, agency, r, a.id, b.id, Written(a));
    }
  }

  /** Two acts that do the same keep the stores mirrored, and are the same once paired. */
  lemma ActTwins(z: Sys, y: Sys, agency: string, r: Pairing, a: Act, b: Act)
    requires Renamed(z, y, agency, r) && Enabled(z, a) && Enabled(y, b) && AgencyOfAct(a) == agency && Akin(r, a, b)
    ensures Renamed(Apply(z, a), Apply(y, b), agency, PairAct(r, a, b))
    ensures Grows(r, PairAct(r, a, b)) && SameAct(PairAct(r, a, b), a, b)
  {
    if a.RegisteredTopic? {
      TopicTwins(z, y, agency, r, a, b);
    } else if a.RecordedEvent? {
      EventTwins(z, y, agency, r, a, b);
    } else if a.Subscribed? {
      SubTwins(z, y, agency, r, a, b);
    } else {
      GivenTwins(z, y, agency, r, a, b);
    }
  }

  // ── Calls in step ─────────────────────────────────────────────────────────

  /** What two calls did: the same, leaving mirrored stores, once what they created is paired. */
  ghost predicate InStep(z: Sys, y: Sys, agency: string, r: Pairing, acts: seq<Act>, acts': seq<Act>) {
    var q := PairActs(r, acts, acts');
    Grows(r, q) && SameActs(q, acts, acts') && Renamed(After(z, acts), After(y, acts'), agency, q)
  }

  /** The first acts in step, then the rest. */
  lemma FirstThenRest(z: Sys, y: Sys, agency: string, r: Pairing, acts: seq<Act>, acts': seq<Act>)
    requires Renamed(z, y, agency, r) && acts != [] && acts' != [] && Possible(z, acts) && Possible(y, acts')
    requires AgencyOfAct(acts[0]) == agency && Akin(r, acts[0], acts'[0])
    ensures Enabled(z, acts[0]) && Enabled(y, acts'[0])
    ensures Possible(Apply(z, acts[0]), acts[1..]) && Possible(Apply(y, acts'[0]), acts'[1..])
    ensures var p := PairAct(r, acts[0], acts'[0]);
            Renamed(Apply(z, acts[0]), Apply(y, acts'[0]), agency, p) &&
            (InStep(Apply(z, acts[0]), Apply(y, acts'[0]), agency, p, acts[1..], acts'[1..]) ==>
               InStep(z, y, agency, r, acts, acts'))
  {
    var p, q := PairAct(r, acts[0], acts'[0]), PairActs(r, acts, acts');
    RunTail(z, acts);
    RunTail(y, acts');
    ActTwins(z, y, agency, r, acts[0], acts'[0]);
    if InStep(Apply(z, acts[0]), Apply(y, acts'[0]), agency, p, acts[1..], acts'[1..]) {
      GrowsTransitive(r, p, q);
      SameActGrows(p, q, acts[0], acts'[0]);
      ConsSameActs(q, acts, acts');
    }
  }

  lemma ConsSameActs(q: Pairing, acts: seq<Act>, acts': seq<Act>)
    requires acts != [] && acts' != [] && SameAct(q, acts[0], acts'[0]) && SameActs(q, acts[1..], acts'[1..])
    ensures SameActs(q, acts, acts')
  {
    forall i | 0 <= i < |acts| ensures SameAct(q, acts[i], acts'[i]) {
      if i > 0 {
        assert acts[1..][i - 1] == acts[i] && acts'[1..][i - 1] == acts'[i];
      }
    }
  }

  lemma NothingDone(z: Sys, y: Sys, agency: string, r: Pairing)
    requires Renamed(z, y, agency, r)
    ensures InStep(z, y, agency, r, [], [])
  {
  }

  lemma OneEach(z: Sys, y: Sys, agency: string, r: Pairing, acts: seq<Act>, acts': seq<Act>)
    requires Renamed(z, y, agency, r) && |acts| == |acts'| == 1 && Possible(z, acts) && Possible(y, acts')
    requires AgencyOfAct(acts[0]) == agency && Akin(r, acts[0], acts'[0])
    ensures InStep(z, y, agency, r, acts, acts')
  {
    FirstThenRest(z, y, agency, r, acts, acts');
    NothingDone(Apply(z, acts[0]), Apply(y, acts'[0]), agency, PairAct(r, acts[0], acts'[0]));
    assert acts[1..] == [] && acts'[1..] == [];
  }
}
