/**
  Agencies do not see each other: dropping every other agency's acts from a run leaves a
  possible run that looks the same to the agency that remains.
 */
module Isolation {
  import opened Text
  import opened EntityStore
  import opened ManagerSpec
  import opened HashCache

  /** The acts of one agency, in order. */
  function Purge(acts: seq<Act>, agency: string): seq<Act> {
    if acts == [] then []
    else
      Purge(acts[..|acts| - 1], agency) +
      if AgencyOfAct(acts[|acts| - 1]) == agency then [acts[|acts| - 1]] else []
  }

  /** No agency of the run can share a cache key with this one. */
  predicate Apart(acts: seq<Act>, agency: string) {
    forall i | 0 <= i < |acts| :: KeysApart(agency, AgencyOfAct(acts[i]))
  }

  /** `p` holds the same entities of `agency` as `s`, and has issued no ID that `s` has not. */
  ghost predicate SameEntities(s: Store, p: Store, agency: string) {
    && WellKeyed(s) && WellKeyed(p) && p.issued <= s.issued
    && (forall id | Present(s, agency, id) :: id in p.entities && p.entities[id] == s.entities[id])
    && (forall id | Present(p, agency, id) :: id in s.entities && p.entities[id] == s.entities[id])
  }

  ghost predicate SameHashes(h: map<string, string>, g: map<string, string>, agency: string) {
    forall service: string {:trigger Key(agency, service)} ::
      (Key(agency, service) in h <==> Key(agency, service) in g) &&
      (Key(agency, service) in h ==> h[Key(agency, service)] == g[Key(agency, service)])
  }

  ghost predicate Alike(z: Sys, p: Sys, agency: string) {
    SameEntities(z.store, p.store, agency) && SameHashes(z.hashes, p.hashes, agency)
  }

  // ── What an agency can read ───────────────────────────────────────────────

  lemma SameMatching(s: Store, p: Store, agency: string, f: Filter)
    requires SameEntities(s, p, agency) && f.agency == agency
    ensures Matching(p, f) == Matching(s, f)
    ensures forall id | id in Matching(s, f) :: p.entities[id] == s.entities[id]
  {
    assert forall id | id in Matching(s, f) :: Present(s, agency, id);
    assert forall id | id in Matching(p, f) :: Present(p, agency, id);
  }

  /** Every listing of the agency gives the same entities, and every cache lookup the same hash. */
  ghost predicate ReadsAlike(z: Sys, p: Sys, agency: string) {
    && (forall f: Filter | f.agency == agency ::
          Matching(p.store, f) == Matching(z.store, f) &&
          forall id | id in Matching(z.store, f) :: p.store.entities[id] == z.store.entities[id])
    && (forall service: string :: Cached(p.hashes, Key(agency, service)) == Cached(z.hashes, Key(agency, service)))
  }

  lemma AlikeReads(z: Sys, p: Sys, agency: string)
    requires Alike(z, p, agency)
    ensures ReadsAlike(z, p, agency)
  {
    forall f: Filter | f.agency == agency
      ensures Matching(p.store, f) == Matching(z.store, f)
      ensures forall id | id in Matching(z.store, f) :: p.store.entities[id] == z.store.entities[id]
    {
      SameMatching(z.store, p.store, agency, f);
    }
  }

  // ── Acts of other agencies ────────────────────────────────────────────────

  lemma OthersPut(s: Store, p: Store, e: Entity, agency: string)
    requires SameEntities(s, p, agency) && New(s, e) && e.agency != agency
    ensures SameEntities(Put(s, e), p, agency)
  {
  }

  lemma {:induction false} OthersPutAll(s: Store, p: Store, es: seq<Entity>, agency: string)
    requires SameEntities(s, p, agency) && DistinctIds(es)
    requires forall i | 0 <= i < |es| :: New(s, es[i]) && es[i].agency != agency
    ensures SameEntities(PutAll(s, es), p, agency)
    ensures PutAll(s, es).issued == s.issued + Ids(es)
  {
    if es != [] {
      var init, e := es[..|es| - 1], es[|es| - 1];
      OthersPutAll(s, p, init, agency);
      assert es == init + [e];
      IdsAppend(init, e);
      assert e.id !in Ids(init);
      OthersPut(PutAll(s, init), p, e, agency);
    }
  }

  lemma OthersMerge(s: Store, p: Store, id: Id, props: Props, agency: string)
    requires SameEntities(s, p, agency) && id in s.entities && s.entities[id].agency != agency
    ensures SameEntities(Merge(s, id, props), p, agency)
  {
  }

  lemma OthersRemove(s: Store, p: Store, id: Id, agency: string)
    requires SameEntities(s, p, agency) && id in s.entities && s.entities[id].agency != agency
    ensures SameEntities(RemoveAll(s, {id}), p, agency)
  {
  }

  lemma SameIgnoresEdges(s: Store, p: Store, e: Edge, agency: string)
    requires SameEntities(s, p, agency)
    ensures SameEntities(Link(s, e), p, agency) && SameEntities(Link(s, e), Link(p, e), agency)
  {
  }

  lemma OthersEvent(s: Store, p: Store, a: Act, agency: string)
    requires SameEntities(s, p, agency) && a.RecordedEvent? && a.event.agency != agency
    requires New(s, a.event) && FanOut(s, a.event, a.deliveries)
    ensures SameEntities(PutAll(WithEvent(s, a.event, a.topicId, a.linked), a.deliveries), p, agency)
  {
    var e := a.event;
    OthersPut(s, p, e, agency);
    SameIgnoresEdges(Put(s, e), p, Edge(e.agency, FOR_TOPIC, e.id, a.topicId), agency);
    assert forall i | 0 <= i < |a.deliveries| :: IsPending(a.deliveries[i], e.agency, e.id);
    OthersPutAll(WithEvent(s, e, a.topicId, a.linked), p, a.deliveries, agency);
  }

  lemma OthersHash(h: map<string, string>, g: map<string, string>, other: string, service: string, hash: string, agency: string)
    requires SameHashes(h, g, agency) && other != agency && KeysApart(agency, other)
    ensures SameHashes(h[Key(other, service) := hash], g, agency)
  {
    forall s: string ensures Key(agency, s) != Key(other, service) {
      if Key(agency, s) == Key(other, service) {
        KeyInjective(agency, s, other, service);
      }
    }
  }

  /** An act of one agency leaves everything another agency can see as it was. */
  lemma OthersInvisible(z: Sys, p: Sys, a: Act, agency: string)
    requires Alike(z, p, agency) && Enabled(z, a) && AgencyOfAct(a) != agency
    requires KeysApart(agency, AgencyOfAct(a))
    ensures Alike(Apply(z, a), p, agency)
  {
    var s, q := z.store, p.store;
    match a {
      case RegisteredTopic(t) => OthersPut(s, q, t, agency);
      case DeletedTopic(_, id) => OthersRemove(s, q, id, agency);
      case StoredHash(other, service, hash, _) => OthersHash(z.hashes, p.hashes, other, service, hash, agency);
      case RecordedEvent(_, _, _, _) => OthersEvent(s, q, a, agency);
      case Subscribed(u, link) =>
        OthersPut(s, q, u, agency);
        if link.Some? {
          SameIgnoresEdges(Put(s, u), q, Edge(u.agency, SUBSCRIBES_TO, u.id, link.value), agency);
        }
      case UpdatedSubscription(_, id, status, now) => OthersMerge(s, q, id, StatusProps(status, now), agency);
      case Unsubscribed(_, id) => OthersRemove(s, q, id, agency);
      case RecordedDelivery(d) => OthersPut(s, q, d, agency);
      case MarkedDelivered(_, id, now) => OthersMerge(s, q, id, DeliveredProps(now), agency);
      case Acked(_, id, now) => OthersMerge(s, q, id, AckedProps(now), agency);
    }
  }

  // ── The agency's own acts ─────────────────────────────────────────────────

  lemma OwnEnabled(z: Sys, p: Sys, a: Act, agency: string)
    requires Alike(z, p, agency) && Enabled(z, a) && AgencyOfAct(a) == agency
    ensures Enabled(p, a)
  {
    var s, q := z.store, p.store;
    match a {
      case RegisteredTopic(t) => SameMatching(s, q, agency, TopicByPattern(agency, t.props[Pattern]));
      case StoredHash(_, _, _, patterns) =>
        forall x | x in patterns ensures Matching(q, TopicByPattern(agency, x)) != {} {
          SameMatching(s, q, agency, TopicByPattern(agency, x));
        }
      case RecordedEvent(e, topicId, _, ds) =>
        SameMatching(s, q, agency, TopicByPattern(agency, e.props[EventTopic]));
        SameMatching(s, q, agency, ActiveSubs(agency, Get(e, EventTopic)));
      case Subscribed(u, _) =>
        SameMatching(s, q, agency, SubByKey(agency, u.props[SubscriberService], u.props[TopicPattern]));
      case RecordedDelivery(d) =>
      case _ => assert Present(s, agency, a.id);
    }
  }

  lemma OwnPut(s: Store, p: Store, e: Entity, agency: string)
    requires SameEntities(s, p, agency) && New(s, e)
    ensures SameEntities(Put(s, e), Put(p, e), agency)
  {
  }

  lemma {:induction false} OwnPutAll(s: Store, p: Store, es: seq<Entity>, agency: string)
    requires SameEntities(s, p, agency) && DistinctIds(es) && forall i | 0 <= i < |es| :: New(s, es[i])
    ensures SameEntities(PutAll(s, es), PutAll(p, es), agency)
    ensures PutAll(s, es).issued == s.issued + Ids(es)
  {
    if es != [] {
      var init, e := es[..|es| - 1], es[|es| - 1];
      OwnPutAll(s, p, init, agency);
      assert es == init + [e];
      IdsAppend(init, e);
      assert e.id !in Ids(init);
      OwnPut(PutAll(s, init), PutAll(p, init), e, agency);
    }
  }

  lemma OwnMerge(s: Store, p: Store, id: Id, props: Props, agency: string)
    requires SameEntities(s, p, agency) && Present(s, agency, id)
    ensures id in p.entities && SameEntities(Merge(s, id, props), Merge(p, id, props), agency)
  {
  }

  lemma OwnRemove(s: Store, p: Store, id: Id, agency: string)
    requires SameEntities(s, p, agency) && Present(s, agency, id)
    ensures SameEntities(RemoveAll(s, {id}), RemoveAll(p, {id}), agency)
  {
    forall x | Present(RemoveAll(s, {id}), agency, x) ensures x in RemoveAll(p, {id}).entities {
      assert Present(s, agency, x);
    }
    forall x | Present(RemoveAll(p, {id}), agency, x) ensures x in RemoveAll(s, {id}).entities {
      assert Present(p, agency, x);
    }
  }

  lemma OwnEvent(s: Store, p: Store, a: Act, agency: string)
    requires SameEntities(s, p, agency) && a.RecordedEvent? && New(s, a.event) && FanOut(s, a.event, a.deliveries)
    ensures SameEntities(PutAll(WithEvent(s, a.event, a.topicId, a.linked), a.deliveries),
                         PutAll(WithEvent(p, a.event, a.topicId, a.linked), a.deliveries), agency)
  {
    var e := a.event;
    var edge := Edge(e.agency, FOR_TOPIC, e.id, a.topicId);
    OwnPut(s, p, e, agency);
    SameIgnoresEdges(Put(s, e), Put(p, e), edge, agency);
    OwnPutAll(WithEvent(s, e, a.topicId, a.linked), WithEvent(p, e, a.topicId, a.linked), a.deliveries, agency);
  }

  lemma OwnApplied(z: Sys, p: Sys, a: Act, agency: string)
    requires Alike(z, p, agency) && Enabled(z, a) && AgencyOfAct(a) == agency
    ensures Alike(Apply(z, a), Apply(p, a), agency)
  {
    var s, q := z.store, p.store;
    match a {
      case RegisteredTopic(t) => OwnPut(s, q, t, agency);
      case DeletedTopic(_, id) => OwnRemove(s, q, id, agency);
      case StoredHash(_, service, hash, _) =>
      case RecordedEvent(_, _, _, _) => OwnEvent(s, q, a, agency);
      case Subscribed(u, link) =>
        OwnPut(s, q, u, agency);
        if link.Some? {
          var edge := Edge(u.agency, SUBSCRIBES_TO, u.id, link.value);
          SameIgnoresEdges(Put(s, u), Put(q, u), edge, agency);
        }
      case UpdatedSubscription(_, id, status, now) => OwnMerge(s, q, id, StatusProps(status, now), agency);
      case Unsubscribed(_, id) => OwnRemove(s, q, id, agency);
      case RecordedDelivery(d) => OwnPut(s, q, d, agency);
      case MarkedDelivered(_, id, now) => OwnMerge(s, q, id, DeliveredProps(now), agency);
      case Acked(_, id, now) => OwnMerge(s, q, id, AckedProps(now), agency);
    }
  }

  // ── Whole runs ────────────────────────────────────────────────────────────

  lemma {:induction false} PurgedAlike(z: Sys, acts: seq<Act>, agency: string)
    requires WellKeyed(z.store) && Possible(z, acts) && Apart(acts, agency)
    ensures Possible(z, Purge(acts, agency))
    ensures Alike(After(z, acts), After(z, Purge(acts, agency)), agency)
  {
    if acts != [] {
      var init, a := acts[..|acts| - 1], acts[|acts| - 1];
      PurgedAlike(z, init, agency);
      var y, p := After(z, init), After(z, Purge(init, agency));
      if AgencyOfAct(a) == agency {
        OwnEnabled(y, p, a, agency);
        OwnApplied(y, p, a, agency);
        RunMore(z, Purge(init, agency), a);
      } else {
        OthersInvisible(y, p, a, agency);
        assert Purge(acts, agency) == Purge(init, agency);
      }
    }
  }

  /**
    Non-interference: with agencies whose keys are apart, the agency's own acts alone are a
    possible run, with the same IDs, after which each listing and each cache lookup of the
    agency gives what it gives after the full run.
   */
  lemma PurgedRun(z: Sys, acts: seq<Act>, agency: string)
    requires WellKeyed(z.store) && Possible(z, acts) && Apart(acts, agency)
    ensures Possible(z, Purge(acts, agency))
    ensures ReadsAlike(After(z, acts), After(z, Purge(acts, agency)), agency)
  {
    PurgedAlike(z, acts, agency);
    AlikeReads(After(z, acts), After(z, Purge(acts, agency)), agency);
  }
}
