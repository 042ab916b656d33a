/** The for_topic edges that RecordEvent draws. */
module TopicGraph {
  import opened EntityStore
  import opened ManagerSpec
  import opened Uniqueness

  /** The for_topic edges out of `id`, oldest first. */
  function ForTopic(edges: seq<Edge>, id: Id): seq<Edge> {
    if edges == [] then []
    else
      var e := edges[|edges| - 1];
      ForTopic(edges[..|edges| - 1], id) + if e.name == FOR_TOPIC && e.from == id then [e] else []
  }

  ghost predicate EdgesIssued(s: Store) {
    forall i | 0 <= i < |s.edges| :: s.edges[i].from in s.issued
  }

  lemma ForTopicMore(edges: seq<Edge>, e: Edge, id: Id)
    ensures ForTopic(edges + [e], id) == ForTopic(edges, id) + if e.name == FOR_TOPIC && e.from == id then [e] else []
  {
    assert (edges + [e])[..|edges|] == edges;
  }

  lemma {:induction false} NoneBeforeIssue(edges: seq<Edge>, issued: set<Id>, id: Id)
    requires forall i | 0 <= i < |edges| :: edges[i].from in issued
    requires id !in issued
    ensures ForTopic(edges, id) == []
  {
    if edges != [] {
      NoneBeforeIssue(edges[..|edges| - 1], issued, id);
    }
  }

  lemma EdgesStep(z: Sys, a: Act)
    requires WellKeyed(z.store) && EdgesIssued(z.store) && Enabled(z, a)
    ensures EdgesIssued(Apply(z, a).store)
    ensures z.store.issued <= Apply(z, a).store.issued
  {
    if a.RecordedEvent? {
      PutAllContents(WithEvent(z.store, a.event, a.topicId, a.linked), a.deliveries);
    }
  }

  lemma {:induction false} EdgesRun(z: Sys, acts: seq<Act>, n: nat)
    requires Inv(z.store) && EdgesIssued(z.store) && Possible(z, acts) && Internal(acts) && n <= |acts|
    ensures Inv(After(z, acts[..n]).store) && EdgesIssued(After(z, acts[..n]).store)
    ensures z.store.issued <= After(z, acts[..n]).store.issued
  {
    if n > 0 {
      EdgesRun(z, acts, n - 1);
      RunPrefix(z, acts, n - 1);
      InvStep(After(z, acts[..n - 1]), acts[n - 1]);
      EdgesStep(After(z, acts[..n - 1]), acts[n - 1]);
    }
  }

  /** No later step draws a for_topic edge out of an ID already issued. */
  lemma OldEdgesStay(z: Sys, a: Act, id: Id)
    requires WellKeyed(z.store) && Enabled(z, a) && id in z.store.issued
    ensures ForTopic(Apply(z, a).store.edges, id) == ForTopic(z.store.edges, id) && id in Apply(z, a).store.issued
  {
    match a {
      case RecordedEvent(e, topicId, linked, ds) =>
        PutAllContents(WithEvent(z.store, e, topicId, linked), ds);
        ForTopicMore(z.store.edges, Edge(e.agency, FOR_TOPIC, e.id, topicId), id);
      case Subscribed(u, link) =>
        if link.Some? {
          ForTopicMore(z.store.edges, Edge(u.agency, SUBSCRIBES_TO, u.id, link.value), id);
        }
      case _ =>
    }
  }

  lemma RecordDraws(z: Sys, a: Act)
    requires Inv(z.store) && EdgesIssued(z.store) && Enabled(z, a) && a.RecordedEvent?
    ensures a.event.id in Apply(z, a).store.issued
    ensures ForTopic(Apply(z, a).store.edges, a.event.id) ==
            if a.linked then [Edge(a.event.agency, FOR_TOPIC, a.event.id, a.topicId)] else []
    ensures Matching(z.store, TopicByPattern(a.event.agency, a.event.props[EventTopic])) == {a.topicId}
  {
    var e := a.event;
    PutAllContents(WithEvent(z.store, e, a.topicId, a.linked), a.deliveries);
    NoneBeforeIssue(z.store.edges, z.store.issued, e.id);
    ForTopicMore(z.store.edges, Edge(e.agency, FOR_TOPIC, e.id, a.topicId), e.id);
    LookupsAreSingle(z.store, e.agency, "", e.props[EventTopic], "", "");
  }

  lemma {:induction false} EdgesLast(z: Sys, acts: seq<Act>, i: nat, j: nat, id: Id)
    requires Inv(z.store) && EdgesIssued(z.store) && Possible(z, acts) && Internal(acts) && i <= j <= |acts|
    requires id in After(z, acts[..i]).store.issued
    ensures id in After(z, acts[..j]).store.issued
    ensures ForTopic(After(z, acts[..j]).store.edges, id) == ForTopic(After(z, acts[..i]).store.edges, id)
    decreases j - i
  {
    if i < j {
      EdgesLast(z, acts, i, j - 1, id);
      EdgesRun(z, acts, j - 1);
      RunPrefix(z, acts, j - 1);
      OldEdgesStay(After(z, acts[..j - 1]), acts[j - 1], id);
    }
  }

  /**
    Each recorded event has for ever exactly the one for_topic edge of its recording (none
    if drawing it failed), and its target was the only topic with that pattern then,
    whatever registrations and deletions came before or after.
   */
  lemma OneEdgePerEvent(z: Sys, acts: seq<Act>, i: nat)
    requires Inv(z.store) && EdgesIssued(z.store) && Possible(z, acts) && Internal(acts)
    requires i < |acts| && acts[i].RecordedEvent?
    ensures var a := acts[i];
            ForTopic(After(z, acts).store.edges, a.event.id) ==
              (if a.linked then [Edge(a.event.agency, FOR_TOPIC, a.event.id, a.topicId)] else []) &&
            EventTopic in a.event.props &&
            Matching(After(z, acts[..i]).store, TopicByPattern(a.event.agency, a.event.props[EventTopic])) == {a.topicId}
  {
    EdgesRun(z, acts, i);
    RunPrefix(z, acts, i);
    RecordDraws(After(z, acts[..i]), acts[i]);
    assert acts[..|acts|] == acts;
    EdgesLast(z, acts, i + 1, |acts|, acts[i].event.id);
  }
}
