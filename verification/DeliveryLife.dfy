/** The life of a delivery: how many there are, how their status moves, and what Ack does. */
module DeliveryLife {
  import opened EntityStore
  import opened ManagerSpec
  import Uniqueness

  function StatusRank(status: string): nat {
    if status == ACKED then 2 else if status == DELIVERED then 1 else 0
  }

  function Rank(d: Entity): nat {
    StatusRank(Get(d, Status))
  }

  predicate IsDelivery(s: Store, x: Id) {
    x in s.entities && s.entities[x].kind == DeliveryKind
  }

  function HasKind(s: Store, id: Id, kind: Kind): bool {
    id in s.entities && s.entities[id].kind == kind
  }

  /** Calls that take an ID are given one of the type they are for; the code does not check. */
  predicate Typed(s: Store, a: Act) {
    match a
    case DeletedTopic(_, id) => HasKind(s, id, TopicKind)
    case UpdatedSubscription(_, id, _, _) => HasKind(s, id, SubscriptionKind)
    case Unsubscribed(_, id) => HasKind(s, id, SubscriptionKind)
    case MarkedDelivered(_, id, _) => HasKind(s, id, DeliveryKind)
    case _ => true
  }

  ghost predicate TypedAt(z: Sys, acts: seq<Act>, i: nat)
    requires i < |acts|
  {
    Typed(After(z, acts[..i]).store, acts[i])
  }

  ghost predicate TypedRun(z: Sys, acts: seq<Act>) {
    forall i | 0 <= i < |acts| :: TypedAt(z, acts, i)
  }

  /** MarkDelivered is called on pending deliveries only; the code does not check. */
  ghost predicate PendingAt(z: Sys, acts: seq<Act>, i: nat)
    requires i < |acts|
  {
    acts[i].MarkedDelivered? ==>
      var s := After(z, acts[..i]).store;
      acts[i].id in s.entities && Get(s.entities[acts[i].id], Status) == PENDING
  }

  ghost predicate PendingOnly(z: Sys, acts: seq<Act>) {
    forall i | 0 <= i < |acts| :: PendingAt(z, acts, i)
  }

  // ── Status only moves forward ─────────────────────────────────────────────

  /** The calls that remove the entity they are given. */
  predicate Removes(a: Act, x: Id) {
    (a.DeletedTopic? || a.Unsubscribed?) && a.id == x
  }

  lemma EntityStays(z: Sys, a: Act, x: Id)
    requires WellKeyed(z.store) && Enabled(z, a) && IsDelivery(z.store, x) && !Removes(a, x)
    ensures IsDelivery(Apply(z, a).store, x)
    ensures var d, d' := z.store.entities[x], Apply(z, a).store.entities[x];
            d' == match a
                  case UpdatedSubscription(_, id, status, now) =>
                    if id == x then d.(props := d.props + StatusProps(status, now)) else d
                  case MarkedDelivered(_, id, now) => if id == x then d.(props := d.props + DeliveredProps(now)) else d
                  case Acked(_, id, now) => if id == x then d.(props := d.props + AckedProps(now)) else d
                  case _ => d
  {
    match a {
      case RecordedEvent(e, topicId, linked, ds) =>
        PutAllContents(WithEvent(z.store, e, topicId, linked), ds);
      case _ =>
    }
  }

  /**
    The exact exceptions to the life cycle, whatever IDs the calls are given: a step takes a
    delivery away if and only if it is a DeleteTopic or Unsubscribe given its ID, and lowers
    its rank if and only if it marks it delivered when it was acknowledged, or is an
    UpdateSubscription given its ID and a status that ranks lower.
   */
  lemma RankFallsIff(z: Sys, a: Act, x: Id)
    requires WellKeyed(z.store) && Enabled(z, a) && IsDelivery(z.store, x)
    ensures IsDelivery(Apply(z, a).store, x) <==> !Removes(a, x)
    ensures IsDelivery(Apply(z, a).store, x) ==>
              (Rank(Apply(z, a).store.entities[x]) < Rank(z.store.entities[x]) <==>
                 (a.MarkedDelivered? && a.id == x && Get(z.store.entities[x], Status) == ACKED) ||
                 (a.UpdatedSubscription? && a.id == x && StatusRank(a.status) < Rank(z.store.entities[x])))
  {
    if !Removes(a, x) {
      EntityStays(z, a, x);
    }
  }

  /** acked_at is only on acknowledged deliveries. */
  ghost predicate AckStamps(s: Store) {
    forall x | IsDelivery(s, x) && AckedAt in s.entities[x].props :: Get(s.entities[x], Status) == ACKED
  }

  /** `d'` is `d` further along: same pair, no lower rank, the same acked_at once there is one. */
  predicate Forward(d: Entity, d': Entity) {
    && d'.kind == d.kind && d'.agency == d.agency
    && Get(d', SubscriptionRef) == Get(d, SubscriptionRef) && Get(d', EventRef) == Get(d, EventRef)
    && Rank(d) <= Rank(d')
    && (AckedAt in d.props ==> AckedAt in d'.props && d'.props[AckedAt] == d.props[AckedAt])
  }

  lemma ForwardStep(z: Sys, a: Act, x: Id)
    requires WellKeyed(z.store) && AckStamps(z.store) && Enabled(z, a) && Typed(z.store, a) && IsDelivery(z.store, x)
    requires a.MarkedDelivered? ==> Get(z.store.entities[a.id], Status) == PENDING
    ensures IsDelivery(Apply(z, a).store, x) && Forward(z.store.entities[x], Apply(z, a).store.entities[x])
  {
    EntityStays(z, a, x);
    RankFallsIff(z, a, x);
  }

  lemma ForwardTransitive(a: Entity, b: Entity, c: Entity)
    requires Forward(a, b) && Forward(b, c)
    ensures Forward(a, c)
  {
  }

  lemma AckStampsStep(z: Sys, a: Act)
    requires WellKeyed(z.store) && AckStamps(z.store) && Enabled(z, a) && Typed(z.store, a)
    requires a.MarkedDelivered? ==> Get(z.store.entities[a.id], Status) == PENDING
    ensures AckStamps(Apply(z, a).store)
  {
    var t := Apply(z, a).store;
    forall x | IsDelivery(t, x) && AckedAt in t.entities[x].props ensures Get(t.entities[x], Status) == ACKED {
      if IsDelivery(z.store, x) {
        EntityStays(z, a, x);
      } else {
        NewDeliveries(z, a, x);
      }
    }
  }

  /** A delivery that one step brings in is pending, and named by the step. */
  lemma NewDeliveries(z: Sys, a: Act, x: Id)
    requires WellKeyed(z.store) && Enabled(z, a) && Typed(z.store, a)
    requires !IsDelivery(z.store, x) && IsDelivery(Apply(z, a).store, x)
    ensures AckedAt !in Apply(z, a).store.entities[x].props
    ensures a.RecordedDelivery? || (a.RecordedEvent? &&
              exists i :: 0 <= i < |a.deliveries| && Apply(z, a).store.entities[x] == a.deliveries[i])
  {
    if a.RecordedEvent? {
      FannedOut(z.store, a.event, a.topicId, a.linked, a.deliveries, x);
    }
  }

  lemma FannedOut(s: Store, e: Entity, topicId: Id, linked: bool, ds: seq<Entity>, x: Id)
    requires New(s, e) && e.kind == EventKind && FanOut(s, e, ds) && WellKeyed(s)
    requires var t := PutAll(WithEvent(s, e, topicId, linked), ds);
             x in t.entities && !IsDelivery(s, x) && t.entities[x].kind == DeliveryKind
    ensures exists i :: 0 <= i < |ds| && PutAll(WithEvent(s, e, topicId, linked), ds).entities[x] == ds[i]
    ensures AckedAt !in PutAll(WithEvent(s, e, topicId, linked), ds).entities[x].props
  {
    PutAllContents(WithEvent(s, e, topicId, linked), ds);
    var i :| 0 <= i < |ds| && ds[i].id == x;
    assert IsPending(ds[i], e.agency, e.id);
  }

  lemma KeyedPutAll(w: Store, ds: seq<Entity>)
    requires WellKeyed(w)
    ensures WellKeyed(PutAll(w, ds))
  {
  }

  lemma KeyedStep(z: Sys, a: Act)
    requires WellKeyed(z.store) && Enabled(z, a)
    ensures WellKeyed(Apply(z, a).store)
  {
    if a.RecordedEvent? {
      KeyedPutAll(WithEvent(z.store, a.event, a.topicId, a.linked), a.deliveries);
    }
  }

  lemma {:induction false} KeyedRun(z: Sys, acts: seq<Act>, n: nat)
    requires WellKeyed(z.store) && Possible(z, acts) && n <= |acts|
    ensures WellKeyed(After(z, acts[..n]).store)
  {
    if n > 0 {
      KeyedRun(z, acts, n - 1);
      RunPrefix(z, acts, n - 1);
      KeyedStep(After(z, acts[..n - 1]), acts[n - 1]);
    }
  }

  lemma {:induction false} AckStampsRun(z: Sys, acts: seq<Act>, n: nat)
    requires WellKeyed(z.store) && AckStamps(z.store) && Possible(z, acts) && n <= |acts|
    requires TypedRun(z, acts) && PendingOnly(z, acts)
    ensures AckStamps(After(z, acts[..n]).store)
  {
    if n > 0 {
      AckStampsRun(z, acts, n - 1);
      KeyedRun(z, acts, n - 1);
      RunPrefix(z, acts, n - 1);
      assert TypedAt(z, acts, n - 1) && PendingAt(z, acts, n - 1);
      AckStampsStep(After(z, acts[..n - 1]), acts[n - 1]);
    }
  }

  /** A delivery is acknowledged exactly when it has an acked_at. */
  ghost predicate AckDates(s: Store) {
    forall x | IsDelivery(s, x) :: Get(s.entities[x], Status) == "acked" <==> AckedAt in s.entities[x].props
  }

  lemma NewIsPending(z: Sys, a: Act, x: Id)
    requires WellKeyed(z.store) && Enabled(z, a) && Typed(z.store, a)
    requires !IsDelivery(z.store, x) && IsDelivery(Apply(z, a).store, x)
    ensures KeyIs(Apply(z, a).store.entities[x], Status, "pending")
  {
    NewDeliveries(z, a, x);
  }

  lemma AckDatesStep(z: Sys, a: Act)
    requires WellKeyed(z.store) && AckDates(z.store) && Enabled(z, a) && Typed(z.store, a)
    requires a.MarkedDelivered? ==> Get(z.store.entities[a.id], Status) == PENDING
    ensures AckDates(Apply(z, a).store)
  {
    var t := Apply(z, a).store;
    forall x | IsDelivery(t, x) ensures Get(t.entities[x], Status) == "acked" <==> AckedAt in t.entities[x].props {
      if IsDelivery(z.store, x) {
        EntityStays(z, a, x);
      } else {
        NewDeliveries(z, a, x);
        NewIsPending(z, a, x);
      }
    }
  }

  /** In every run that respects the calls' contracts, a delivery has an acked_at exactly when it is acknowledged. */
  lemma {:induction false} AckDatesRun(z: Sys, acts: seq<Act>, n: nat)
    requires WellKeyed(z.store) && AckDates(z.store) && Possible(z, acts) && n <= |acts|
    requires TypedRun(z, acts) && PendingOnly(z, acts)
    ensures AckDates(After(z, acts[..n]).store)
  {
    if n > 0 {
      AckDatesRun(z, acts, n - 1);
      KeyedRun(z, acts, n - 1);
      RunPrefix(z, acts, n - 1);
      assert TypedAt(z, acts, n - 1) && PendingAt(z, acts, n - 1);
      AckDatesStep(After(z, acts[..n - 1]), acts[n - 1]);
    }
  }

  /** Delivery `x` of store `s` is still there in store `t`, and further along. */
  predicate Progress(s: Store, t: Store, x: Id) {
    IsDelivery(s, x) && IsDelivery(t, x) && Forward(s.entities[x], t.entities[x])
  }

  lemma ProgressTransitive(s: Store, t: Store, u: Store, x: Id)
    requires Progress(s, t, x) && Progress(t, u, x)
    ensures Progress(s, u, x)
  {
    ForwardTransitive(s.entities[x], t.entities[x], u.entities[x]);
  }

  lemma ProgressInRun(z: Sys, acts: seq<Act>, n: nat, x: Id)
    requires WellKeyed(z.store) && AckStamps(z.store) && Possible(z, acts) && n < |acts|
    requires TypedRun(z, acts) && PendingOnly(z, acts)
    requires IsDelivery(After(z, acts[..n]).store, x)
    ensures Progress(After(z, acts[..n]).store, After(z, acts[..n + 1]).store, x)
  {
    KeyedRun(z, acts, n);
    AckStampsRun(z, acts, n);
    RunPrefix(z, acts, n);
    assert TypedAt(z, acts, n) && PendingAt(z, acts, n);
    ForwardStep(After(z, acts[..n]), acts[n], x);
  }

  lemma ProgressNext(z: Sys, acts: seq<Act>, i: nat, n: nat, x: Id)
    requires WellKeyed(z.store) && AckStamps(z.store) && Possible(z, acts) && i <= n < |acts|
    requires TypedRun(z, acts) && PendingOnly(z, acts)
    requires Progress(After(z, acts[..i]).store, After(z, acts[..n]).store, x)
    ensures Progress(After(z, acts[..i]).store, After(z, acts[..n + 1]).store, x)
  {
    ProgressInRun(z, acts, n, x);
    ProgressTransitive(After(z, acts[..i]).store, After(z, acts[..n]).store, After(z, acts[..n + 1]).store, x);
  }

  /**
    Pending, delivered, acknowledged: over any stretch of a run that respects the calls'
    contracts a delivery stays stored for the same pair, its rank never falls, and an
    acked_at once set never changes.
   */
  lemma {:induction false} LifeCycle(z: Sys, acts: seq<Act>, i: nat, j: nat, x: Id)
    requires WellKeyed(z.store) && AckStamps(z.store) && Possible(z, acts) && i <= j <= |acts|
    requires TypedRun(z, acts) && PendingOnly(z, acts)
    requires IsDelivery(After(z, acts[..i]).store, x)
    ensures Progress(After(z, acts[..i]).store, After(z, acts[..j]).store, x)
    decreases j - i
  {
    if i < j {
      LifeCycle(z, acts, i, j - 1, x);
      ProgressNext(z, acts, i, j - 1, x);
    }
  }

  // ── Ack twice is Ack once ─────────────────────────────────────────────────

  /** What Ack writes to the delivery `x`. */
  function AckedNow(s: Store, x: Id, now: string): Store
    requires x in s.entities
  {
    Merge(s, x, map[Status := "acked", AckedAt := now, UpdatedAt := now])
  }

  /** One fault-free Ack, which acts on whichever delivery of the pair the store lists first. */
  ghost predicate AckCall(s: Store, agency: string, sub: Id, event: Id, now: string, t: Store) {
    var found := DeliveriesOf(s, agency, sub, event);
    if found == {} then t == s
    else exists x | x in found :: t == if Get(s.entities[x], Status) == "acked" then s else AckedNow(s, x, now)
  }

  lemma AckKeepsPair(s: Store, agency: string, sub: Id, event: Id, x: Id, now: string)
    requires x in s.entities
    ensures DeliveriesOf(AckedNow(s, x, now), agency, sub, event) == DeliveriesOf(s, agency, sub, event)
  {
  }

  predicate AllAcked(s: Store, ds: set<Id>) {
    forall x | x in ds :: x in s.entities && Get(s.entities[x], Status) == "acked"
  }

  /**
    Acking a pair twice leaves the same store as acking it once, for every listing order,
    exactly when the pair has at most one delivery or all of them are acknowledged.
   */
  lemma AckIdempotentIff(s: Store, agency: string, sub: Id, event: Id)
    ensures (forall now, now', t, t' ::
               AckCall(s, agency, sub, event, now, t) && AckCall(t, agency, sub, event, now', t') ==> t' == t)
            <==>
            (var found := DeliveriesOf(s, agency, sub, event);
             (forall x, y | x in found && y in found :: x == y) || AllAcked(s, found))
  {
    var found := DeliveriesOf(s, agency, sub, event);
    if (forall x, y | x in found && y in found :: x == y) || AllAcked(s, found) {
      forall now, now', t, t' | AckCall(s, agency, sub, event, now, t) && AckCall(t, agency, sub, event, now', t')
        ensures t' == t
      {
        AckSettles(s, agency, sub, event, now, t);
      }
    } else {
      var v :| v in found && Get(s.entities[v], Status) != "acked";
      var w :| w in found && w != v;
      AckTwiceDiffers(s, agency, sub, event, v, w);
    }
  }

  lemma AckSettles(s: Store, agency: string, sub: Id, event: Id, now: string, t: Store)
    requires AckCall(s, agency, sub, event, now, t)
    requires var found := DeliveriesOf(s, agency, sub, event);
             (forall x, y | x in found && y in found :: x == y) || AllAcked(s, found)
    ensures AllAcked(t, DeliveriesOf(t, agency, sub, event))
  {
    var found := DeliveriesOf(s, agency, sub, event);
    if found != {} {
      var x :| x in found && t == if Get(s.entities[x], Status) == "acked" then s else AckedNow(s, x, now);
      AckKeepsPair(s, agency, sub, event, x, now);
    }
  }

  lemma AckTwiceDiffers(s: Store, agency: string, sub: Id, event: Id, v: Id, w: Id)
    requires v in DeliveriesOf(s, agency, sub, event) && w in DeliveriesOf(s, agency, sub, event)
    requires v != w && Get(s.entities[v], Status) != "acked"
    ensures exists now, now', t, t' ::
              AckCall(s, agency, sub, event, now, t) && AckCall(t, agency, sub, event, now', t') && t' != t
  {
    var t := if Get(s.entities[w], Status) == "acked" then s else AckedNow(s, w, "");
    var t' := AckedNow(t, v, "");
    AckKeepsPair(s, agency, sub, event, w, "");
    assert AckCall(s, agency, sub, event, "", t);
    assert AckCall(t, agency, sub, event, "", t');
    assert Get(t'.entities[v], Status) == "acked";
  }

  // ── Conservation ──────────────────────────────────────────────────────────

  function Deliveries(s: Store): set<Id> {
    set x | x in s.entities && s.entities[x].kind == DeliveryKind
  }

  /** The fan-out reached every active subscription of the event's topic. */
  ghost predicate Complete(s: Store, a: Act) {
    a.RecordedEvent? ==> SubRefs(a.deliveries) == ActiveOn(s, a.event.agency, Get(a.event, EventTopic))
  }

  /** Summed over the recorded events: how many subscriptions were active on each topic. */
  ghost function ActiveTotal(z: Sys, acts: seq<Act>): nat {
    if acts == [] then 0
    else
      var init, a := acts[..|acts| - 1], acts[|acts| - 1];
      ActiveTotal(z, init) +
      if a.RecordedEvent? then |ActiveOn(After(z, init).store, a.event.agency, Get(a.event, EventTopic))| else 0
  }

  lemma RefsAppend(ds: seq<Entity>, d: Entity)
    ensures SubRefs(ds + [d]) == SubRefs(ds) + {Get(d, SubscriptionRef)}
  {
    assert (ds + [d])[|ds|] == d;
    forall r | r in SubRefs(ds) ensures r in SubRefs(ds + [d]) {
      var i :| 0 <= i < |ds| && Get(ds[i], SubscriptionRef) == r;
      assert (ds + [d])[i] == ds[i];
    }
  }

  lemma {:induction false} RefCount(ds: seq<Entity>)
    requires forall i, j | 0 <= i < j < |ds| :: Get(ds[i], SubscriptionRef) != Get(ds[j], SubscriptionRef)
    ensures |SubRefs(ds)| == |ds|
  {
    if ds != [] {
      var init, d := ds[..|ds| - 1], ds[|ds| - 1];
      RefCount(init);
      assert ds == init + [d];
      RefsAppend(init, d);
      assert Get(d, SubscriptionRef) !in SubRefs(init);
    }
  }

  lemma FanOutNew(s: Store, e: Entity, ds: seq<Entity>)
    requires WellKeyed(s) && FanOut(s, e, ds)
    ensures Deliveries(s) !! Ids(ds)
    ensures forall i | 0 <= i < |ds| :: ds[i].kind == DeliveryKind && ds[i].id !in Put(s, e).entities
  {
    assert forall i | 0 <= i < |ds| :: IsPending(ds[i], e.agency, e.id);
  }

  lemma FanOutAdds(s: Store, e: Entity, topicId: Id, linked: bool, ds: seq<Entity>)
    requires WellKeyed(s) && New(s, e) && e.kind == EventKind && FanOut(s, e, ds)
    ensures Deliveries(PutAll(WithEvent(s, e, topicId, linked), ds)) == Deliveries(s) + Ids(ds)
    ensures Deliveries(s) !! Ids(ds)
  {
    var w := WithEvent(s, e, topicId, linked);
    FanOutNew(s, e, ds);
    PutAdds(w, ds);
    assert Deliveries(w) == Deliveries(s);
  }

  lemma PutAdds(w: Store, ds: seq<Entity>)
    requires DistinctIds(ds)
    requires forall i | 0 <= i < |ds| :: ds[i].kind == DeliveryKind && ds[i].id !in w.entities
    ensures Deliveries(PutAll(w, ds)) == Deliveries(w) + Ids(ds)
  {
    var t := PutAll(w, ds);
    PutAllContents(w, ds);
    forall x | x in Ids(ds) ensures x in Deliveries(t) {
      var i :| 0 <= i < |ds| && ds[i].id == x;
    }
  }

  /** One step changes the number of deliveries by its fan-out and by nothing else. */
  lemma CountStep(z: Sys, a: Act)
    requires WellKeyed(z.store) && Enabled(z, a) && Typed(z.store, a) && !a.RecordedDelivery?
    ensures |Deliveries(Apply(z, a).store)| == |Deliveries(z.store)| + if a.RecordedEvent? then |a.deliveries| else 0
  {
    if a.RecordedEvent? {
      FanOutAdds(z.store, a.event, a.topicId, a.linked, a.deliveries);
      IdCount(a.deliveries);
    } else {
      assert Deliveries(Apply(z, a).store) == Deliveries(z.store);
    }
  }

  ghost predicate CompleteAt(z: Sys, acts: seq<Act>, i: nat)
    requires i < |acts|
  {
    Complete(After(z, acts[..i]).store, acts[i])
  }

  ghost predicate CompleteRun(z: Sys, acts: seq<Act>) {
    forall i | 0 <= i < |acts| :: CompleteAt(z, acts, i)
  }

  lemma CompleteMore(z: Sys, acts: seq<Act>, a: Act)
    requires CompleteRun(z, acts) && Complete(After(z, acts).store, a)
    ensures CompleteRun(z, acts + [a])
  {
    var more := acts + [a];
    forall i | 0 <= i < |more| ensures CompleteAt(z, more, i) {
      if i < |acts| {
        assert more[..i] == acts[..i] && CompleteAt(z, acts, i);
      } else {
        assert more[..i] == acts;
      }
    }
  }

  lemma {:induction false} ConservationUpTo(z: Sys, acts: seq<Act>, n: nat)
    requires WellKeyed(z.store) && Possible(z, acts) && Uniqueness.Internal(acts) && TypedRun(z, acts) && n <= |acts|
    requires CompleteRun(z, acts)
    ensures |Deliveries(After(z, acts[..n]).store)| == |Deliveries(z.store)| + ActiveTotal(z, acts[..n])
  {
    if n > 0 {
      var a := acts[n - 1];
      ConservationUpTo(z, acts, n - 1);
      KeyedRun(z, acts, n - 1);
      RunPrefix(z, acts, n - 1);
      assert TypedAt(z, acts, n - 1) && CompleteAt(z, acts, n - 1);
      CountStep(After(z, acts[..n - 1]), a);
      assert acts[..n][..n - 1] == acts[..n - 1] && acts[..n][n - 1] == a;
      if a.RecordedEvent? {
        RefCount(a.deliveries);
      }
    }
  }

  /**
    Exact fan-out and conservation: when every fan-out is complete, as it is without
    faults, the deliveries of a run are, over those there were, the sum over its recorded
    events of the subscriptions active on exactly that topic at that moment.
   */
  lemma Conservation(z: Sys, acts: seq<Act>)
    requires WellKeyed(z.store) && Possible(z, acts) && Uniqueness.Internal(acts) && TypedRun(z, acts)
    requires CompleteRun(z, acts)
    ensures |Deliveries(After(z, acts).store)| == |Deliveries(z.store)| + ActiveTotal(z, acts)
  {
    ConservationUpTo(z, acts, |acts|);
    assert acts[..|acts|] == acts;
  }

  // ── A paused subscription gains nothing ───────────────────────────────────

  function DeliveriesTo(s: Store, sub: Id): set<Id> {
    set x | x in s.entities && s.entities[x].kind == DeliveryKind && Get(s.entities[x], SubscriptionRef) == sub
  }

  predicate Inactive(s: Store, sub: Id) {
    sub in s.entities ==> Get(s.entities[sub], Status) != ACTIVE
  }

  lemma InactiveNotServed(s: Store, e: Entity, ds: seq<Entity>, sub: Id)
    requires FanOut(s, e, ds) && Inactive(s, sub)
    ensures forall i | 0 <= i < |ds| :: Get(ds[i], SubscriptionRef) != sub
  {
    assert sub !in Matching(s, ActiveSubs(e.agency, Get(e, EventTopic)));
  }

  lemma InactiveStep(z: Sys, a: Act, sub: Id)
    requires WellKeyed(z.store) && Enabled(z, a) && Typed(z.store, a) && !a.RecordedDelivery? && Inactive(z.store, sub)
    ensures DeliveriesTo(Apply(z, a).store, sub) == DeliveriesTo(z.store, sub)
  {
    var t := Apply(z, a).store;
    if a.RecordedEvent? {
      InactiveNotServed(z.store, a.event, a.deliveries, sub);
    }
    forall x | x in DeliveriesTo(t, sub) ensures x in DeliveriesTo(z.store, sub) {
      if IsDelivery(z.store, x) {
        EntityStays(z, a, x);
      } else {
        NewDeliveries(z, a, x);
      }
    }
    forall x | x in DeliveriesTo(z.store, sub) ensures x in DeliveriesTo(t, sub) {
      EntityStays(z, a, x);
    }
  }

  ghost predicate InactiveAt(z: Sys, acts: seq<Act>, k: nat, sub: Id)
    requires k <= |acts|
  {
    Inactive(After(z, acts[..k]).store, sub)
  }

  /**
    While a subscription is not active it gains no delivery and loses none, whatever is
    recorded on its topic and even if Subscribe is called for it again.
   */
  lemma {:induction false} InactiveGainsNothing(z: Sys, acts: seq<Act>, i: nat, j: nat, sub: Id)
    requires WellKeyed(z.store) && Possible(z, acts) && Uniqueness.Internal(acts) && TypedRun(z, acts) && i <= j <= |acts|
    requires forall k | i <= k < j :: InactiveAt(z, acts, k, sub)
    ensures DeliveriesTo(After(z, acts[..j]).store, sub) == DeliveriesTo(After(z, acts[..i]).store, sub)
    decreases j - i
  {
    if i < j {
      InactiveGainsNothing(z, acts, i, j - 1, sub);
      KeyedRun(z, acts, j - 1);
      RunPrefix(z, acts, j - 1);
      assert TypedAt(z, acts, j - 1) && InactiveAt(z, acts, j - 1, sub);
      InactiveStep(After(z, acts[..j - 1]), acts[j - 1], sub);
    }
  }

  // ── An active subscription is served ──────────────────────────────────────

  /** The calls that write or remove the entity they are given. */
  predicate Touches(a: Act, x: Id) {
    (a.UpdatedSubscription? || a.MarkedDelivered? || a.Acked? || a.DeletedTopic? || a.Unsubscribed?) && a.id == x
  }

  lemma UntouchedStep(z: Sys, a: Act, u: Entity)
    requires WellKeyed(z.store) && Enabled(z, a) && InStore(z.store, u) && !Touches(a, u.id)
    ensures InStore(Apply(z, a).store, u)
  {
    if a.RecordedEvent? {
      PutAllContents(WithEvent(z.store, a.event, a.topicId, a.linked), a.deliveries);
    }
  }

  lemma {:induction false} UntouchedRun(z: Sys, acts: seq<Act>, i: nat, j: nat, u: Entity)
    requires WellKeyed(z.store) && Possible(z, acts) && i <= j <= |acts| && InStore(After(z, acts[..i]).store, u)
    requires forall k | i <= k < j :: !Touches(acts[k], u.id)
    ensures InStore(After(z, acts[..j]).store, u)
    decreases j - i
  {
    if i < j {
      UntouchedRun(z, acts, i, j - 1, u);
      KeyedRun(z, acts, j - 1);
      RunPrefix(z, acts, j - 1);
      UntouchedStep(After(z, acts[..j - 1]), acts[j - 1], u);
    }
  }

  /** Exactly one of `ds` is for the subscription, and it is a pending delivery of the event. */
  ghost predicate ServedOnce(ds: seq<Entity>, sub: Id, event: Entity) {
    exists i | 0 <= i < |ds| ::
      KeyIs(ds[i], SubscriptionRef, sub) && KeyIs(ds[i], EventRef, event.id) && KeyIs(ds[i], Status, "pending") &&
      ds[i].kind == DeliveryKind && ds[i].agency == event.agency &&
      forall j | 0 <= j < |ds| && KeyIs(ds[j], SubscriptionRef, sub) :: j == i
  }

  /** A complete fan-out serves each subscription that is active on the event's topic exactly once. */
  lemma ActiveIsServedOnce(z: Sys, a: Act, u: Entity)
    requires Enabled(z, a) && a.RecordedEvent? && Complete(z.store, a) && InStore(z.store, u)
    requires u.kind == SubscriptionKind && u.agency == a.event.agency
    requires KeyIs(u, Status, "active") && KeyIs(u, TopicPattern, Get(a.event, EventTopic))
    ensures ServedOnce(a.deliveries, u.id, a.event)
  {
    var ds := a.deliveries;
    assert u.id in SubRefs(ds);
    var i :| 0 <= i < |ds| && Get(ds[i], SubscriptionRef) == u.id;
    assert IsPending(ds[i], a.event.agency, a.event.id);
    forall j | 0 <= j < |ds| && KeyIs(ds[j], SubscriptionRef, u.id) ensures j == i {
      assert Get(ds[j], SubscriptionRef) == Get(ds[i], SubscriptionRef);
    }
  }

  /**
    A new subscription works: as long as no call was given its ID, every complete fan-out of
    an event on its pattern delivers to it exactly once.
   */
  lemma NewSubscriberServed(z: Sys, acts: seq<Act>, i: nat, j: nat)
    requires WellKeyed(z.store) && Possible(z, acts) && i < j < |acts| && acts[i].Subscribed? && acts[j].RecordedEvent?
    requires acts[j].event.agency == acts[i].sub.agency && KeyIs(acts[i].sub, TopicPattern, Get(acts[j].event, EventTopic))
    requires CompleteAt(z, acts, j) && forall k | i < k < j :: !Touches(acts[k], acts[i].sub.id)
    ensures ServedOnce(acts[j].deliveries, acts[i].sub.id, acts[j].event)
  {
    var u := acts[i].sub;
    RunPrefix(z, acts, i);
    UntouchedRun(z, acts, i + 1, j, u);
    RunPrefix(z, acts, j);
    ActiveIsServedOnce(After(z, acts[..j]), acts[j], u);
  }
}
