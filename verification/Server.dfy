/** The request handlers that project topics, over the manager. */
module Server {
  import opened Wrappers
  import opened Text
  import opened Timestamps
  import opened Topics
  import opened EntityStore
  import opened EventLog
  import opened ManagerSpec
  import DeliveryLife
  import M = Manager

  function Coalesce(a: string, b: string): string {
    if a != "" then a else b
  }

  /** An event carries the two projections of its topic. */
  predicate Projected(e: Entity) {
    EventTopic in e.props && KeyIs(e, Domain, DomainOf(e.props[EventTopic])) &&
    KeyIs(e, Action, ActionOf(e.props[EventTopic]))
  }

  ghost predicate AllProjected(s: Store) {
    forall x | x in s.entities && s.entities[x].kind == EventKind :: Projected(s.entities[x])
  }

  function TopicQuery(topic: string, limit: int, after: string): M.EventQuery {
    M.EventQuery(DomainOf(topic), "", ActionOf(topic), limit, after)
  }

  /** The events of the agency whose topic a query for `topic` selects. */
  function Selected(s: Store, agency: string, topic: string): set<Entity> {
    set x | x in s.entities && s.entities[x].agency == agency && s.entities[x].kind == EventKind &&
            Selects(topic, Get(s.entities[x], EventTopic)) :: s.entities[x]
  }

  lemma QueryFinds(s: Store, agency: string, topic: string, limit: int, after: string, listing: seq<Entity>)
    requires AllProjected(s) && IsListing(listing, s, M.EventsBy(agency, TopicQuery(topic, limit, after)))
    ensures (set e | e in listing) == Selected(s, agency, topic)
  {
    var q := TopicQuery(topic, limit, after);
    forall x | x in s.entities
      ensures Matches(s.entities[x], M.EventsBy(agency, q)) <==>
              s.entities[x].agency == agency && s.entities[x].kind == EventKind &&
              Selects(topic, Get(s.entities[x], EventTopic))
    {
      M.EventsByMatches(s.entities[x], agency, q);
    }
    forall e | e in Selected(s, agency, topic) ensures e in listing {
      var x :| x in s.entities && s.entities[x] == e && Matches(e, M.EventsBy(agency, q));
      assert x in Ids(listing);
      var i :| 0 <= i < |listing| && listing[i].id == x;
    }
    forall e | e in listing ensures e in Selected(s, agency, topic) {
      var i :| 0 <= i < |listing| && listing[i] == e;
      assert e.id in Ids(listing);
    }
  }

  lemma EventStored(z: Sys, acts: seq<Act>)
    requires WellKeyed(z.store) && Possible(z, acts) && acts != [] && acts[|acts| - 1].RecordedEvent?
    ensures var t, e := After(z, acts).store, acts[|acts| - 1].event; e.id in t.entities && t.entities[e.id] == e
  {
    var n := |acts| - 1;
    DeliveryLife.KeyedRun(z, acts, n);
    var s, a := After(z, acts[..n]).store, acts[n];
    PutAllContents(WithEvent(s, a.event, a.topicId, a.linked), a.deliveries);
  }

  lemma RequestKept(e: Entity, req: M.EventRequest, now: string)
    requires e.props == M.EventProps(req, now) && req.publishedAt != ""
    ensures KeyIs(e, EventTopic, req.topic) && KeyIs(e, Domain, req.domain) && KeyIs(e, Action, req.action)
    ensures KeyIs(e, Payload, req.payload) && KeyIs(e, PublishedAt, req.publishedAt) && KeyIs(e, SourceService, req.service)
    ensures KeyIs(e, AgencyOf, req.agencyOf) && KeyIs(e, CreatedAt, now)
    ensures req.domain == DomainOf(req.topic) && req.action == ActionOf(req.topic) ==> Projected(e)
  {
  }

  lemma StampNotEmpty(now: Clock)
    ensures FormatSeconds(now) != ""
  {
    assert FormatSeconds(now)[|FormatSeconds(now)| - 1] == 'Z';
  }

  // ── Runs whose events were all published ──────────────────────────────────

  /** An event the act records carries its projections, as every event of Publish does. */
  predicate Projecting(a: Act) {
    a.RecordedEvent? ==> Projected(a.event)
  }

  predicate IsEvent(s: Store, x: Id) {
    x in s.entities && s.entities[x].kind == EventKind
  }

  /** A recording adds its event and leaves the others as they are. */
  lemma EventsOf(s: Store, a: Act)
    requires WellKeyed(s) && a.RecordedEvent? && a.event.kind == EventKind
    requires New(s, a.event) && FanOut(s, a.event, a.deliveries)
    ensures var t := PutAll(WithEvent(s, a.event, a.topicId, a.linked), a.deliveries);
            && s.issued + {a.event.id} <= t.issued
            && (forall x :: IsEvent(t, x) <==> IsEvent(s, x) || x == a.event.id)
            && (forall x | IsEvent(s, x) :: t.entities[x] == s.entities[x])
            && t.entities[a.event.id] == a.event
  {
    var w := WithEvent(s, a.event, a.topicId, a.linked);
    var t := PutAll(w, a.deliveries);
    DeliveryLife.FanOutNew(s, a.event, a.deliveries);
    PutAllContents(w, a.deliveries);
    forall x ensures IsEvent(t, x) <==> IsEvent(s, x) || x == a.event.id {
      if x in Ids(a.deliveries) {
        var i :| 0 <= i < |a.deliveries| && a.deliveries[i].id == x;
      }
    }
  }

  function RecordedBy(a: Act): set<Entity> {
    if a.RecordedEvent? then {a.event} else {}
  }

  /** All events that the run recorded. */
  function Recorded(acts: seq<Act>): set<Entity> {
    set i | 0 <= i < |acts| && acts[i].RecordedEvent? :: acts[i].event
  }

  lemma RecordedMore(acts: seq<Act>, n: nat)
    requires n < |acts|
    ensures Recorded(acts[..n + 1]) == Recorded(acts[..n]) + RecordedBy(acts[n])
  {
    var f, g := acts[..n], acts[..n + 1];
    assert forall i | 0 <= i < n :: g[i] == f[i];
    assert g[n] == acts[n];
    forall e | e in Recorded(f) ensures e in Recorded(g) {
      var i :| 0 <= i < |f| && f[i].RecordedEvent? && f[i].event == e;
      assert g[i].RecordedEvent? && g[i].event == e;
    }
  }

  /** What a handler adds to a run: acts on topics and hashes, and recordings of projected events. */
  ghost predicate Handled(before: seq<Act>, after: seq<Act>) {
    && |before| <= |after| && after[..|before|] == before
    && forall i | |before| <= i < |after| :: HandlerAct(after[i])
  }

  predicate HandlerAct(a: Act) {
    (a.RegisteredTopic? || a.StoredHash? || a.RecordedEvent?) && Projecting(a)
  }

  /** What Publish adds to a run: at most a topic, and then the event. */
  lemma PublishActs(before: seq<Act>, after: seq<Act>, recorded: bool, agency: string, props: Props)
    requires recorded ==> after != [] && M.OnlyTopic(before, after[..|after| - 1], agency, props) &&
                          after[|after| - 1].RecordedEvent? && Projected(after[|after| - 1].event)
    requires !recorded ==> M.OnlyTopic(before, after, agency, props)
    ensures Handled(before, after)
    ensures Recorded(after) == Recorded(before) + if recorded then {after[|after| - 1].event} else {}
  {
    var mid := if recorded then after[..|after| - 1] else after;
    if mid != before {
      RecordedMore(mid, |before|);
      assert mid[..|before|] == before && mid[..|before| + 1] == mid;
    }
    if recorded {
      RecordedMore(after, |mid|);
      assert after[..|mid|] == mid && after[..|mid| + 1] == after;
      assert mid[..|before|] == after[..|before|];
      assert forall i | 0 <= i < |mid| :: after[i] == mid[i];
    }
  }

  lemma ProjectingStep(z: Sys, a: Act)
    requires WellKeyed(z.store) && AllProjected(z.store) && Enabled(z, a) && Projecting(a)
    ensures AllProjected(Apply(z, a).store)
  {
    var t := Apply(z, a).store;
    if a.RecordedEvent? {
      EventsOf(z.store, a);
    }
    forall x | x in t.entities && t.entities[x].kind == EventKind ensures Projected(t.entities[x]) {
      assert IsEvent(t, x);
    }
  }

  lemma {:induction false} StaysProjected(z: Sys, before: seq<Act>, acts: seq<Act>)
    requires WellKeyed(z.store) && Possible(z, acts)
    requires AllProjected(After(z, before).store) && Handled(before, acts)
    ensures AllProjected(After(z, acts).store)
    decreases |acts|
  {
    if |before| == |acts| {
      assert acts == before;
    } else {
      var n := |acts| - 1;
      assert acts[..n][..|before|] == before;
      StaysProjected(z, before, acts[..n]);
      DeliveryLife.KeyedRun(z, acts, n);
      ProjectingStep(After(z, acts[..n]), acts[n]);
    }
  }

  ghost predicate Events(s: Store, es: set<Entity>) {
    forall e :: e in es <==> e.id in s.entities && s.entities[e.id] == e && e.kind == EventKind
  }

  /** A typed act neither removes nor changes an event, and only a recording adds one. */
  lemma EventsStep(z: Sys, a: Act, es: set<Entity>)
    requires WellKeyed(z.store) && Enabled(z, a) && DeliveryLife.Typed(z.store, a) && Events(z.store, es)
    ensures Events(Apply(z, a).store, es + RecordedBy(a))
  {
    if a.RecordedEvent? {
      EventsRecorded(z.store, a, es);
    }
  }

  lemma EventsRecorded(s: Store, a: Act, es: set<Entity>)
    requires WellKeyed(s) && Events(s, es) && a.RecordedEvent? && a.event.kind == EventKind
    requires New(s, a.event) && FanOut(s, a.event, a.deliveries)
    ensures Events(PutAll(WithEvent(s, a.event, a.topicId, a.linked), a.deliveries), es + {a.event})
  {
    var t := PutAll(WithEvent(s, a.event, a.topicId, a.linked), a.deliveries);
    EventsOf(s, a);
    forall e | e in es + {a.event} ensures e.id in t.entities && t.entities[e.id] == e && e.kind == EventKind {
      if e in es {
        assert e.id in s.entities && s.entities[e.id] == e && IsEvent(s, e.id);
      } else {
        assert e == a.event && IsEvent(t, e.id);
      }
    }
    forall e: Entity | e.id in t.entities && t.entities[e.id] == e && e.kind == EventKind ensures e in es + {a.event} {
      assert IsEvent(t, e.id);
      if IsEvent(s, e.id) {
        assert e.id in s.entities && s.entities[e.id] == e;
      } else {
        assert e == a.event;
      }
    }
  }

  lemma EventsNext(z: Sys, acts: seq<Act>, n: nat)
    requires WellKeyed(z.store) && Possible(z, acts) && DeliveryLife.TypedRun(z, acts) && n < |acts|
    requires Events(After(z, acts[..n]).store, Recorded(acts[..n]))
    ensures Events(After(z, acts[..n + 1]).store, Recorded(acts[..n + 1]))
  {
    DeliveryLife.KeyedRun(z, acts, n);
    RunPrefix(z, acts, n);
    assert DeliveryLife.TypedAt(z, acts, n);
    EventsStep(After(z, acts[..n]), acts[n], Recorded(acts[..n]));
    RecordedMore(acts, n);
  }

  lemma {:induction false} EventsRun(z: Sys, acts: seq<Act>, n: nat)
    requires WellKeyed(z.store) && Events(z.store, {}) && Possible(z, acts) && DeliveryLife.TypedRun(z, acts) && n <= |acts|
    ensures Events(After(z, acts[..n]).store, Recorded(acts[..n]))
  {
    if n == 0 {
      assert Recorded(acts[..0]) == {} && After(z, acts[..0]) == z;
    } else {
      EventsRun(z, acts, n - 1);
      EventsNext(z, acts, n - 1);
    }
  }

  /** A run from a store without events in which every recorded event carries its projections. */
  ghost predicate Publishing(z: Sys, acts: seq<Act>) {
    && WellKeyed(z.store) && Events(z.store, {}) && Possible(z, acts)
    && forall i | 0 <= i < |acts| :: Projecting(acts[i])
  }

  /** And in which calls that take an ID are given one of the type they are for. */
  ghost predicate PublishedOnly(z: Sys, acts: seq<Act>) {
    Publishing(z, acts) && DeliveryLife.TypedRun(z, acts)
  }

  /** The recorded events of the agency that a query for `asked` selects. */
  function Answer(acts: seq<Act>, agency: string, asked: string): set<Entity> {
    set e | e in Recorded(acts) && e.agency == agency && Selects(asked, Get(e, EventTopic))
  }

  /** Handlers keep a run one whose events were all published. */
  lemma StaysPublished(z: Sys, before: seq<Act>, after: seq<Act>)
    requires PublishedOnly(z, before) && Possible(z, after) && Handled(before, after)
    ensures PublishedOnly(z, after)
  {
    forall i | 0 <= i < |after| ensures DeliveryLife.TypedAt(z, after, i) && Projecting(after[i]) {
      if i < |before| {
        assert after[..i] == before[..i] && DeliveryLife.TypedAt(z, before, i) && Projecting(before[i]);
      } else {
        assert HandlerAct(after[i]);
      }
    }
  }

  /** What handlers add to a run keeps its events projected, and keeps it one of published events. */
  lemma HandledKeeps(z: Sys, before: seq<Act>, after: seq<Act>)
    requires WellKeyed(z.store) && Possible(z, after) && Handled(before, after)
    ensures AllProjected(After(z, before).store) ==> AllProjected(After(z, after).store)
    ensures PublishedOnly(z, before) ==> PublishedOnly(z, after)
  {
    if AllProjected(After(z, before).store) {
      StaysProjected(z, before, after);
    }
    if PublishedOnly(z, before) {
      StaysPublished(z, before, after);
    }
  }

  /** The event that a projected request asks for: its content, and the projections of its topic. */
  predicate Carries(e: Entity, req: M.EventRequest) {
    KeyIs(e, EventTopic, req.topic) && KeyIs(e, Payload, req.payload) && KeyIs(e, PublishedAt, req.publishedAt) &&
    KeyIs(e, SourceService, req.service) && KeyIs(e, AgencyOf, req.agencyOf) && Projected(e)
  }

  /** After `before` the run has at most the event's topic and, on success, then the recording of the event. */
  predicate Adds(before: seq<Act>, after: seq<Act>, r: Result<Entity>, agency: string, req: M.EventRequest) {
    if r.Failure? then M.OnlyTopic(before, after, agency, M.LazyProps(req, req.publishedAt))
    else
      after != [] && M.OnlyTopic(before, after[..|after| - 1], agency, M.LazyProps(req, req.publishedAt)) &&
      after[|after| - 1].RecordedEvent? && after[|after| - 1].event == r.value &&
      r.value == Entity(r.value.id, agency, EventKind, M.EventProps(req, req.publishedAt))
  }

  /** The store calls of RecordEvent up to the event's creation: one lookup, or four calls where the topic is missing. */
  function CallsBefore(known: bool): nat {
    if known then 1 else 4
  }

  /** The event `e` was recorded last, fanned out to `active` as far as the calls from `n` on went, and linked. */
  ghost predicate FansOut(after: seq<Act>, e: Entity, active: set<Id>, s: Store, t: Store, now: string,
                          faults: nat -> bool, n: nat) {
    after != [] && after[|after| - 1].RecordedEvent? && after[|after| - 1].event == e &&
    (after[|after| - 1].linked <==> !faults(n)) && M.Reaches(after[|after| - 1].deliveries, active, faults, n + 1) &&
    M.RecordingLeaves(after[|after| - 1], s, t, now)
  }

  /**
    A recording whose store calls begin with `n`: exactly which faults make it fail, and whom it
    reaches: every subscription active on the topic save those whose own delivery failed.
   */
  ghost predicate RecordingWent(s: Store, t: Store, after: seq<Act>, r: Result<Entity>, agency: string, topic: string,
                                now: string, faults: nat -> bool, n: nat) {
    var known := With(s, agency, TopicKind, Pattern, topic) != {};
    var created := n + CallsBefore(known);
    (r.Success? <==> M.Resolves(faults, n, known) && !faults(created)) &&
    (r.Success? ==> FansOut(after, r.value, ActiveOn(s, agency, topic), s, t, now, faults, created + 1))
  }

  lemma RecordingDone(s: Store, t: Store, before: seq<Act>, after: seq<Act>, r: Result<Entity>, agency: string,
                      req: M.EventRequest, now: string, faults: nat -> bool, n: nat)
    requires var known := With(s, agency, TopicKind, Pattern, req.topic) != {};
             r.Success? <==> M.Resolves(faults, n, known) && !faults(n + if known then 1 else 4)
    requires r.Success? ==> M.RecordedAsAsked(before, after, r.value, s, t, agency, req, now)
    requires r.Success? ==>
               var created := n + if With(s, agency, TopicKind, Pattern, req.topic) != {} then 1 else 4;
               M.Records(after[|after| - 1], agency, req, now, r.value, s, faults, created)
    ensures RecordingWent(s, t, after, r, agency, req.topic, now, faults, n)
  {
  }

  /** What recording a projected request does to a run. */
  lemma RecordingHandled(z: Sys, before: seq<Act>, after: seq<Act>, r: Result<Entity>, agency: string, req: M.EventRequest)
    requires WellKeyed(z.store) && Possible(z, after)
    requires req.domain == DomainOf(req.topic) && req.action == ActionOf(req.topic) && req.publishedAt != ""
    requires Adds(before, after, r, agency, req)
    ensures Handled(before, after)
    ensures Recorded(after) == Recorded(before) + if r.Success? then {r.value} else {}
    ensures AllProjected(After(z, before).store) ==> AllProjected(After(z, after).store)
    ensures PublishedOnly(z, before) ==> PublishedOnly(z, after)
    ensures r.Success? ==>
              var t := After(z, after).store;
              r.value.id in t.entities && t.entities[r.value.id] == r.value && Carries(r.value, req)
  {
    if r.Success? {
      RequestKept(r.value, req, req.publishedAt);
      EventStored(z, after);
    }
    PublishActs(before, after, r.Success?, agency, M.LazyProps(req, req.publishedAt));
    HandledKeeps(z, before, after);
  }

  /**
    Query completeness and precision over runs: whatever else was registered, subscribed,
    paused, delivered, acknowledged or deleted in between, a listing for the query holds
    exactly the events that the run recorded for the agency and whose topic it selects.
   */
  lemma QueryComplete(z: Sys, acts: seq<Act>, agency: string, asked: string, limit: int, after: string, listing: seq<Entity>)
    requires PublishedOnly(z, acts)
    requires IsListing(listing, After(z, acts).store, M.EventsBy(agency, TopicQuery(asked, limit, after)))
    ensures (set e | e in listing) == Answer(acts, agency, asked)
  {
    var s := After(z, acts).store;
    assert acts[..|acts|] == acts;
    EventsRun(z, acts, |acts|);
    DeliveryLife.KeyedRun(z, acts, |acts|);
    forall x | x in s.entities && s.entities[x].kind == EventKind ensures Projected(s.entities[x]) {
      assert s.entities[x] in Recorded(acts);
    }
    QueryFinds(s, agency, asked, limit, after, listing);
    SelectedIsAnswer(s, acts, agency, asked);
  }

  lemma SelectedIsAnswer(s: Store, acts: seq<Act>, agency: string, asked: string)
    requires WellKeyed(s) && Events(s, Recorded(acts))
    ensures Selected(s, agency, asked) == Answer(acts, agency, asked)
  {
    forall e | e in Selected(s, agency, asked) ensures e in Answer(acts, agency, asked) {
      assert e.id in s.entities && s.entities[e.id] == e;
    }
    forall e | e in Answer(acts, agency, asked) ensures e in Selected(s, agency, asked) {
      assert e.id in s.entities && s.entities[e.id] == e;
    }
  }

  // ── Runs in which events can be removed or overwritten ────────────────────

  /** The IDs given to DeleteTopic or Unsubscribe, which check no type. */
  function Removed(acts: seq<Act>): set<Id> {
    if acts == [] then {}
    else
      var a := acts[|acts| - 1];
      Removed(acts[..|acts| - 1]) + if a.DeletedTopic? || a.Unsubscribed? then {a.id} else {}
  }

  function IdsOf(es: set<Entity>): set<Id> {
    set e | e in es :: e.id
  }

  /** What UpdateSubscription, MarkDelivered and Ack write. */
  predicate Overwritable(p: Prop) {
    p == Status || p == UpdatedAt || p == LastAttemptedAt || p == AckedAt
  }

  /** `d` is the event `e`, with everything it was recorded with but what those calls write. */
  predicate StillEvent(e: Entity, d: Entity) {
    d.id == e.id && d.agency == e.agency && d.kind == e.kind &&
    forall p | !Overwritable(p) :: (p in d.props <==> p in e.props) && (p in e.props ==> d.props[p] == e.props[p])
  }

  /** The stored events are those of `es` but the ones in `gone`. */
  ghost predicate EventsLeft(s: Store, es: set<Entity>, gone: set<Id>) {
    && gone <= s.issued && IdsOf(es) <= s.issued
    && (forall x :: IsEvent(s, x) <==> x in IdsOf(es) && x !in gone)
    && (forall e | e in es && e.id !in gone :: e.id in s.entities && StillEvent(e, s.entities[e.id]))
  }

  lemma EventIn(s: Store, es: set<Entity>, x: Id)
    requires WellKeyed(s) && Events(s, es)
    ensures IsEvent(s, x) ==> s.entities[x] in es
  {
    if IsEvent(s, x) {
      assert s.entities[x].id == x;
    }
  }

  lemma LeftRecorded(s: Store, a: Act, es: set<Entity>, gone: set<Id>)
    requires WellKeyed(s) && EventsLeft(s, es, gone) && a.RecordedEvent? && a.event.kind == EventKind
    requires New(s, a.event) && FanOut(s, a.event, a.deliveries)
    ensures EventsLeft(PutAll(WithEvent(s, a.event, a.topicId, a.linked), a.deliveries), es + {a.event}, gone)
  {
    var t := PutAll(WithEvent(s, a.event, a.topicId, a.linked), a.deliveries);
    EventsOf(s, a);
    assert IdsOf(es + {a.event}) == IdsOf(es) + {a.event.id};
    forall e | e in es + {a.event} && e.id !in gone ensures e.id in t.entities && StillEvent(e, t.entities[e.id]) {
      if e in es {
        assert e.id in IdsOf(es) && IsEvent(s, e.id);
      }
    }
  }

  lemma LeftMerged(s: Store, id: Id, props: Props, es: set<Entity>, gone: set<Id>)
    requires EventsLeft(s, es, gone) && id in s.entities && forall p | p in props :: Overwritable(p)
    ensures EventsLeft(Merge(s, id, props), es, gone)
  {
    var t := Merge(s, id, props);
    assert forall x :: IsEvent(t, x) <==> IsEvent(s, x);
  }

  lemma LeftRemoved(s: Store, id: Id, es: set<Entity>, gone: set<Id>)
    requires WellKeyed(s) && EventsLeft(s, es, gone) && id in s.entities
    ensures EventsLeft(RemoveAll(s, {id}), es, gone + {id})
  {
    var t := RemoveAll(s, {id});
    assert forall x :: IsEvent(t, x) <==> IsEvent(s, x) && x != id;
  }

  lemma LeftPut(s: Store, e: Entity, es: set<Entity>, gone: set<Id>)
    requires WellKeyed(s) && EventsLeft(s, es, gone) && New(s, e) && e.kind != EventKind
    ensures EventsLeft(Put(s, e), es, gone)
  {
    assert forall x :: IsEvent(Put(s, e), x) <==> IsEvent(s, x);
  }

  lemma LeftStep(z: Sys, a: Act, es: set<Entity>, gone: set<Id>)
    requires WellKeyed(z.store) && Enabled(z, a) && EventsLeft(z.store, es, gone)
    ensures EventsLeft(Apply(z, a).store, es + RecordedBy(a),
                       gone + if a.DeletedTopic? || a.Unsubscribed? then {a.id} else {})
  {
    var s := z.store;
    assert es + {} == es && gone + {} == gone;
    match a {
      case RegisteredTopic(t) => LeftPut(s, t, es, gone);
      case DeletedTopic(_, id) => LeftRemoved(s, id, es, gone);
      case StoredHash(_, _, _, _) =>
      case RecordedEvent(_, _, _, _) => LeftRecorded(s, a, es, gone);
      case Subscribed(u, _) => LeftPut(s, u, es, gone);
      case UpdatedSubscription(_, id, status, now) => LeftMerged(s, id, StatusProps(status, now), es, gone);
      case Unsubscribed(_, id) => LeftRemoved(s, id, es, gone);
      case RecordedDelivery(d) => LeftPut(s, d, es, gone);
      case MarkedDelivered(_, id, now) => LeftMerged(s, id, DeliveredProps(now), es, gone);
      case Acked(_, id, now) => LeftMerged(s, id, AckedProps(now), es, gone);
    }
  }

  lemma LeftNext(z: Sys, acts: seq<Act>, n: nat)
    requires WellKeyed(z.store) && Possible(z, acts) && n < |acts|
    requires EventsLeft(After(z, acts[..n]).store, Recorded(acts[..n]), Removed(acts[..n]))
    ensures EventsLeft(After(z, acts[..n + 1]).store, Recorded(acts[..n + 1]), Removed(acts[..n + 1]))
  {
    DeliveryLife.KeyedRun(z, acts, n);
    RunPrefix(z, acts, n);
    LeftStep(After(z, acts[..n]), acts[n], Recorded(acts[..n]), Removed(acts[..n]));
    RecordedMore(acts, n);
    assert acts[..n + 1][..n] == acts[..n];
  }

  /**
    Whatever IDs the calls are given: the stored events are exactly the recorded ones but
    those whose ID was given to DeleteTopic or Unsubscribe, and each still has its agency,
    topic, projections, payload and stamps.
   */
  lemma {:induction false} LeftRun(z: Sys, acts: seq<Act>, n: nat)
    requires WellKeyed(z.store) && Events(z.store, {}) && Possible(z, acts) && n <= |acts|
    ensures EventsLeft(After(z, acts[..n]).store, Recorded(acts[..n]), Removed(acts[..n]))
  {
    if n == 0 {
      assert acts[..0] == [] && Recorded(acts[..0]) == {};
      forall x ensures !IsEvent(z.store, x) {
        EventIn(z.store, {}, x);
      }
    } else {
      LeftRun(z, acts, n - 1);
      LeftNext(z, acts, n - 1);
    }
  }

  /**
    Query completeness without assuming types: a listing holds exactly the recorded events of
    the agency whose topic the query selects, but those whose ID was given to DeleteTopic or
    Unsubscribe.
   */
  lemma QueryExact(z: Sys, acts: seq<Act>, agency: string, asked: string, limit: int, after: string, listing: seq<Entity>)
    requires Publishing(z, acts)
    requires IsListing(listing, After(z, acts).store, M.EventsBy(agency, TopicQuery(asked, limit, after)))
    ensures Ids(listing) == IdsOf(Answer(acts, agency, asked)) - Removed(acts)
  {
    var s := After(z, acts).store;
    assert acts[..|acts|] == acts;
    LeftRun(z, acts, |acts|);
    DeliveryLife.KeyedRun(z, acts, |acts|);
    LeftProjected(s, acts);
    QueryFinds(s, agency, asked, limit, after, listing);
    LeftSelected(s, acts, agency, asked);
    ListedIds(listing);
  }

  lemma LeftFrom(s: Store, es: set<Entity>, gone: set<Id>, x: Id) returns (e: Entity)
    requires EventsLeft(s, es, gone) && IsEvent(s, x)
    ensures e in es && e.id == x && x !in gone && StillEvent(e, s.entities[x])
  {
    e :| e in es && e.id == x;
  }

  lemma StillProjected(e: Entity, d: Entity)
    requires StillEvent(e, d) && Projected(e)
    ensures Projected(d)
  {
    assert !Overwritable(EventTopic) && !Overwritable(Domain) && !Overwritable(Action);
  }

  lemma LeftProjected(s: Store, acts: seq<Act>)
    requires EventsLeft(s, Recorded(acts), Removed(acts)) && forall i | 0 <= i < |acts| :: Projecting(acts[i])
    ensures AllProjected(s)
  {
    forall x | x in s.entities && s.entities[x].kind == EventKind ensures Projected(s.entities[x]) {
      var e := LeftFrom(s, Recorded(acts), Removed(acts), x);
      var i :| 0 <= i < |acts| && acts[i].RecordedEvent? && acts[i].event == e;
      assert Projecting(acts[i]);
      StillProjected(e, s.entities[x]);
    }
  }

  lemma ListedIds(listing: seq<Entity>)
    ensures Ids(listing) == IdsOf(set e | e in listing)
  {
  }

  lemma LeftSelected(s: Store, acts: seq<Act>, agency: string, asked: string)
    requires WellKeyed(s) && EventsLeft(s, Recorded(acts), Removed(acts))
    ensures IdsOf(Selected(s, agency, asked)) == IdsOf(Answer(acts, agency, asked)) - Removed(acts)
  {
    forall x | x in IdsOf(Selected(s, agency, asked)) ensures x in IdsOf(Answer(acts, agency, asked)) - Removed(acts) {
      assert IsEvent(s, x);
      var e := LeftFrom(s, Recorded(acts), Removed(acts), x);
      assert !Overwritable(EventTopic) && e in Answer(acts, agency, asked);
    }
    forall x | x in IdsOf(Answer(acts, agency, asked)) - Removed(acts) ensures x in IdsOf(Selected(s, agency, asked)) {
      var e :| e in Answer(acts, agency, asked) && e.id == x;
      assert StillEvent(e, s.entities[x]) && !Overwritable(EventTopic);
      assert s.entities[x] in Selected(s, agency, asked);
    }
  }

  /** One registration request per pattern, with the pattern's projections. */
  method ProjectPatterns(service: string, patterns: seq<string>) returns (topics: seq<M.TopicRequest>)
    ensures |topics| == |patterns|
    ensures forall j | 0 <= j < |topics| ::
              topics[j] == M.TopicRequest(patterns[j], DomainOf(patterns[j]), ActionOf(patterns[j]), service, "")
  {
    topics := [];
    for i := 0 to |patterns|
      invariant |topics| == i
      invariant forall j | 0 <= j < i ::
          topics[j] == M.TopicRequest(patterns[j], DomainOf(patterns[j]), ActionOf(patterns[j]), service, "")
    {
      var domain := DomainFromTopic(patterns[i]);
      var action := ActionFromTopic(patterns[i]);
      topics := topics + [M.TopicRequest(patterns[i], domain, action, service, "")];
    }
  }

  /** `t` is a topic for one of the patterns, of the service, with the pattern's projections. */
  predicate ForPattern(t: Entity, agency: string, service: string, patterns: seq<string>) {
    t.agency == agency && t.kind == TopicKind && Pattern in t.props && t.props[Pattern] in patterns &&
    KeyIs(t, Domain, DomainOf(t.props[Pattern])) && KeyIs(t, Action, ActionOf(t.props[Pattern])) &&
    KeyIs(t, SourceService, service) && KeyIs(t, Description, "")
  }

  ghost predicate NewProjected(before: seq<Act>, after: seq<Act>, agency: string, service: string, patterns: seq<string>) {
    forall i | |before| <= i < |after| && after[i].RegisteredTopic? :: ForPattern(after[i].topic, agency, service, patterns)
  }

  lemma RequestsProjected(before: seq<Act>, after: seq<Act>, agency: string, service: string, patterns: seq<string>,
                          topics: seq<M.TopicRequest>, now: string)
    requires M.RegisteredAsAsked(before, after, agency, topics, now) && |topics| == |patterns|
    requires forall j | 0 <= j < |topics| ::
               topics[j] == M.TopicRequest(patterns[j], DomainOf(patterns[j]), ActionOf(patterns[j]), service, "")
    ensures NewProjected(before, after, agency, service, patterns)
  {
    forall i | |before| <= i < |after| && after[i].RegisteredTopic?
      ensures ForPattern(after[i].topic, agency, service, patterns)
    {
      var k :| 0 <= k < |topics| && M.TopicAsked(after[i].topic, agency, topics[k], now);
      assert patterns[k] in patterns;
    }
  }

  class Server {
    const mgr: M.Manager
    const agencyId: string

    ghost predicate Valid()
      reads this, mgr, mgr.dm
    {
      mgr.Valid()
    }

    constructor (mgr: M.Manager, agencyId: string)
      requires mgr.Valid()
      ensures Valid() && this.mgr == mgr && this.agencyId == agencyId
    {
      this.mgr, this.agencyId := mgr, agencyId;
    }

    /** Records an event whose domain and action are the projections of its topic. */
    method Publish(agencyId: string, topic: string, payload: string, source: string, now: Clock)
        returns (r: Result<Entity>)
      requires Valid()
      modifies mgr`acts, mgr.dm
      ensures Valid() && (old(AllProjected(mgr.dm.store)) ==> AllProjected(mgr.dm.store))
      ensures NoFaultsFrom(mgr.dm.faults, old(mgr.dm.calls)) ==> r.Success?
      ensures RecordingWent(old(mgr.dm.store), mgr.dm.store, mgr.acts, r, if agencyId != "" then agencyId else this.agencyId,
                            topic, FormatSeconds(now), mgr.dm.faults, old(mgr.dm.calls))
      ensures r.Success? ==> var agency := if agencyId != "" then agencyId else this.agencyId;
                             Stored(r.value, agency) && KeyIs(r.value, AgencyOf, agency) &&
                             KeyIs(r.value, EventTopic, topic) && KeyIs(r.value, Domain, DomainOf(topic)) &&
                             KeyIs(r.value, Action, ActionOf(topic)) && KeyIs(r.value, Payload, payload) &&
                             KeyIs(r.value, PublishedAt, FormatSeconds(now)) && KeyIs(r.value, SourceService, source)
      ensures PublishedOnly(mgr.origin, old(mgr.acts)) ==> PublishedOnly(mgr.origin, mgr.acts)
      ensures Recorded(mgr.acts) == Recorded(old(mgr.acts)) + if r.Success? then {r.value} else {}
    {
      var agency := Coalesce(agencyId, this.agencyId);
      var domain := DomainFromTopic(topic);
      var action := ActionFromTopic(topic);
      StampNotEmpty(now);
      r := RecordProjected(agency, M.EventRequest(topic, domain, agency, action, payload, source, FormatSeconds(now)));
    }

    ghost predicate Stored(e: Entity, agency: string)
      reads mgr, mgr.dm
    {
      e.id in mgr.dm.store.entities && mgr.dm.store.entities[e.id] == e && e.agency == agency && e.kind == EventKind
    }

    method RecordProjected(agency: string, req: M.EventRequest) returns (r: Result<Entity>)
      requires Valid()
      requires req.domain == DomainOf(req.topic) && req.action == ActionOf(req.topic) && req.publishedAt != ""
      modifies mgr`acts, mgr.dm
      ensures Valid() && (old(AllProjected(mgr.dm.store)) ==> AllProjected(mgr.dm.store))
      ensures NoFaultsFrom(mgr.dm.faults, old(mgr.dm.calls)) ==> r.Success?
      ensures RecordingWent(old(mgr.dm.store), mgr.dm.store, mgr.acts, r, agency, req.topic, req.publishedAt, mgr.dm.faults,
                            old(mgr.dm.calls))
      ensures r.Success? ==> Stored(r.value, agency) && Carries(r.value, req)
      ensures PublishedOnly(mgr.origin, old(mgr.acts)) ==> PublishedOnly(mgr.origin, mgr.acts)
      ensures Recorded(mgr.acts) == Recorded(old(mgr.acts)) + if r.Success? then {r.value} else {}
    {
      ghost var before := mgr.acts;
      r := RecordRequest(agency, req);
      RecordingHandled(mgr.origin, before, mgr.acts, r, agency, req);
    }

    method RecordRequest(agency: string, req: M.EventRequest) returns (r: Result<Entity>)
      requires Valid()
      modifies mgr`acts, mgr.dm
      ensures Valid() && Adds(old(mgr.acts), mgr.acts, r, agency, req)
      ensures RecordingWent(old(mgr.dm.store), mgr.dm.store, mgr.acts, r, agency, req.topic, req.publishedAt, mgr.dm.faults,
                            old(mgr.dm.calls))
    {
      ghost var s, before, n := mgr.dm.store, mgr.acts, mgr.dm.calls;
      r := mgr.RecordEvent(agency, req, req.publishedAt);
      RecordingDone(s, mgr.dm.store, before, mgr.acts, r, agency, req, req.publishedAt, mgr.dm.faults, n);
    }

    /**
      Where all events came from Publish, the answer without limit and fence is exactly the
      events recorded for the agency, ever, whose topic the query selects, each once; a fence
      and a limit then cut that answer down.
     */
    method QueryEvents(agencyId: string, topic: string, limit: int, after: string)
        returns (r: Result<seq<Entity>>, ghost listing: seq<Entity>)
      requires Valid()
      modifies mgr.dm`calls
      ensures Valid()
      ensures r.Success? <==> !mgr.dm.faults(old(mgr.dm.calls))
      ensures r.Success? ==> var agency := if agencyId != "" then agencyId else this.agencyId;
                             IsListing(listing, mgr.dm.store, M.EventsBy(agency, TopicQuery(topic, limit, after))) &&
                             (AllProjected(mgr.dm.store) ==>
                                (set e | e in listing) == Selected(mgr.dm.store, agency, topic)) &&
                             (PublishedOnly(mgr.origin, mgr.acts) ==>
                                (set e | e in listing) == Answer(mgr.acts, agency, topic)) &&
                             (Publishing(mgr.origin, mgr.acts) ==>
                                Ids(listing) == IdsOf(Answer(mgr.acts, agency, topic)) - Removed(mgr.acts)) &&
                             r.value <= Kept(listing, after) &&
                             (|r.value| == if 0 < limit < |Kept(listing, after)| then limit else |Kept(listing, after)|) &&
                             (limit <= 0 && after == "" ==> r.value == listing)
    {
      var agency := Coalesce(agencyId, this.agencyId);
      var domain := DomainFromTopic(topic);
      var action := ActionFromTopic(topic);
      r, listing := mgr.ListEvents(agency, M.EventQuery(domain, "", action, limit, after));
      if r.Success? {
        if AllProjected(mgr.dm.store) {
          QueryFinds(mgr.dm.store, agency, topic, limit, after, listing);
        }
        if PublishedOnly(mgr.origin, mgr.acts) {
          QueryComplete(mgr.origin, mgr.acts, agency, topic, limit, after, listing);
        }
        if Publishing(mgr.origin, mgr.acts) {
          QueryExact(mgr.origin, mgr.acts, agency, topic, limit, after, listing);
        }
        NoFence(listing);
      }
    }

    /** Registers every pattern with its projections, as `Manager.RegisterTopics` does. */
    method RegisterTopics(agencyId: string, service: string, hash: string, patterns: seq<string>, now: Clock)
        returns (r: Result<()>)
      requires Valid()
      modifies mgr`acts, mgr`topicHashByKey, mgr.dm
      ensures Valid() && (old(AllProjected(mgr.dm.store)) ==> AllProjected(mgr.dm.store))
      ensures var agency := if agencyId != "" then agencyId else this.agencyId;
              (r.Success? && !M.Skips(old(mgr.topicHashByKey), agency + ":" + service, hash) ==>
                 forall p | p in patterns :: With(mgr.dm.store, agency, TopicKind, Pattern, p) != {}) &&
              NewProjected(old(mgr.acts), mgr.acts, agency, service, patterns)
      ensures NoFaultsFrom(mgr.dm.faults, old(mgr.dm.calls)) ==> r.Success?
      ensures PublishedOnly(mgr.origin, old(mgr.acts)) ==> PublishedOnly(mgr.origin, mgr.acts)
    {
      var agency := Coalesce(agencyId, this.agencyId);
      var topics := ProjectPatterns(service, patterns);
      r := mgr.RegisterTopics(agency, service, hash, topics, FormatSeconds(now));
      HandledKeeps(mgr.origin, old(mgr.acts), mgr.acts);
      RequestsProjected(old(mgr.acts), mgr.acts, agency, service, patterns, topics, FormatSeconds(now));
      assert forall i | 0 <= i < |patterns| :: topics[i].pattern == patterns[i];
    }
  }

  lemma {:induction false} NoFence(es: seq<Entity>)
    ensures Kept(es, "") == es
  {
    if es != [] {
      NoFence(es[..|es| - 1]);
    }
  }
}
