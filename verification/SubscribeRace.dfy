/**
  Subscribe as concurrent threads run it: one step per store call or mutex section, any
  interleaving, any store call failing, with Unsubscribe and UpdateSubscription (one store
  call each) in between.
 */
module SubscribeRace {
  import opened Wrappers
  import opened EntityStore
  import opened ManagerSpec
  import Uniqueness

  datatype Request = Request(agency: string, service: string, pattern: string)

  function CacheKey(r: Request): string {
    SeenKey(r.agency, r.service, r.pattern)
  }

  function Wanted(r: Request): Filter {
    SubByKey(r.agency, r.service, r.pattern)
  }

  /** What a thread does next. */
  datatype Pc =
    | ReadSeen                       // mu.RLock: look the key up
    | ListSeen                       // the key was seen: list existing
    | Evict                          // mu.Lock: delete the key
    | ListAgain                      // slow path: list existing
    | Create
    | MarkSeen(sub: Entity)          // mu.Lock: set the key, then return sub
    | Returned(sub: Entity, at: nat) // at: how many steps the world had taken by then
    | Failed

  /** One call in flight; `start` is how many steps the world had taken when it began. */
  datatype Call = Call(req: Request, pc: Pc, start: nat)

  datatype World = World(store: Store, seen: set<string>, calls: map<nat, Call>)

  datatype Outcome = Fault | Empty | First(sub: Entity)

  datatype Label =
    | Begin(t: nat, req: Request)
    | Read(t: nat)
    | List(t: nat, outcome: Outcome)
    | Delete(t: nat)
    | Insert(t: nat, created: Option<Entity>)
    | Mark(t: nat)
    | Unsubscribe(agency: string, id: Id)
    | Update(agency: string, id: Id, status: string, now: string)

  ghost predicate ListOutcome(s: Store, f: Filter, o: Outcome) {
    match o
    case Fault => true
    case Empty => Matching(s, f) == {}
    case First(e) => e.id in Matching(s, f) && s.entities[e.id] == e
  }

  ghost predicate Enabled(w: World, l: Label) {
    match l
    case Begin(t, _) => t !in w.calls
    case Read(t) => t in w.calls && w.calls[t].pc.ReadSeen?
    case List(t, o) =>
      t in w.calls && (w.calls[t].pc.ListSeen? || w.calls[t].pc.ListAgain?) &&
      ListOutcome(w.store, Wanted(w.calls[t].req), o)
    case Delete(t) => t in w.calls && w.calls[t].pc.Evict?
    case Insert(t, created) =>
      t in w.calls && w.calls[t].pc.Create? &&
      (created.Some? ==> New(w.store, created.value) && Matches(created.value, Wanted(w.calls[t].req)))
    case Mark(t) => t in w.calls && w.calls[t].pc.MarkSeen?
    case Unsubscribe(agency, id) => Present(w.store, agency, id)
    case Update(agency, id, _, _) => Present(w.store, agency, id)
  }

  function Goto(w: World, t: nat, pc: Pc): World
    requires t in w.calls
  {
    w.(calls := w.calls[t := w.calls[t].(pc := pc)])
  }

  function AfterList(pc: Pc, o: Outcome, now: nat): Pc {
    match o
    case First(e) => if pc.ListSeen? then Returned(e, now + 1) else MarkSeen(e)
    case Empty => if pc.ListSeen? then Evict else Create
    case Fault => if pc.ListSeen? then Evict else Failed
  }

  function Step(w: World, l: Label, now: nat): World {
    match l
    case Begin(t, req) => w.(calls := w.calls[t := Call(req, ReadSeen, now)])
    case Read(t) =>
      if t !in w.calls then w
      else Goto(w, t, if CacheKey(w.calls[t].req) in w.seen then ListSeen else ListAgain)
    case List(t, o) => if t !in w.calls then w else Goto(w, t, AfterList(w.calls[t].pc, o, now))
    case Delete(t) =>
      if t !in w.calls then w else Goto(w.(seen := w.seen - {CacheKey(w.calls[t].req)}), t, ListAgain)
    case Insert(t, created) =>
      if t !in w.calls then w
      else if created.None? then Goto(w, t, Failed)
      else Goto(w.(store := Put(w.store, created.value)), t, MarkSeen(created.value))
    case Mark(t) =>
      if t !in w.calls || !w.calls[t].pc.MarkSeen? then w
      else Goto(w.(seen := w.seen + {CacheKey(w.calls[t].req)}), t, Returned(w.calls[t].pc.sub, now + 1))
    case Unsubscribe(_, id) => w.(store := RemoveAll(w.store, {id}))
    case Update(_, id, status, stamp) => w.(store := MergeIf(w.store, id, StatusProps(status, stamp)))
  }

  function World0(s: Store): World {
    World(s, {}, map[])
  }

  /** The world after the first `|ls|` steps of a run that starts with an empty cache. */
  function Reach(s: Store, ls: seq<Label>): World {
    if ls == [] then World0(s) else Step(Reach(s, ls[..|ls| - 1]), ls[|ls| - 1], |ls| - 1)
  }

  ghost predicate Run(s: Store, ls: seq<Label>) {
    ls != [] ==> Run(s, ls[..|ls| - 1]) && Enabled(Reach(s, ls[..|ls| - 1]), ls[|ls| - 1])
  }

  // ── Soundness under every interleaving ────────────────────────────────────

  /** At moment `i` of the run, `e` was stored and was what `r` asks for. */
  ghost predicate StoredAt(s: Store, ls: seq<Label>, i: nat, r: Request, e: Entity) {
    i <= |ls| && var st := Reach(s, ls[..i]).store;
    e.id in st.entities && st.entities[e.id] == e && Matches(e, Wanted(r))
  }

  /** Some subscription for `key` was stored at some moment of the run so far. */
  ghost predicate WasStored(s: Store, ls: seq<Label>, key: string) {
    exists i: nat, r, e :: CacheKey(r) == key && StoredAt(s, ls, i, r, e)
  }

  /** It was so at some moment from `start` to `end`. */
  ghost predicate StoredBetween(s: Store, ls: seq<Label>, start: nat, end: nat, r: Request, e: Entity) {
    exists i: nat :: start <= i <= end && StoredAt(s, ls, i, r, e)
  }

  ghost predicate CallSound(s: Store, ls: seq<Label>, c: Call) {
    && c.start <= |ls|
    && (c.pc.MarkSeen? ==> StoredBetween(s, ls, c.start, |ls|, c.req, c.pc.sub))
    && (c.pc.Returned? ==> c.pc.at <= |ls| && StoredBetween(s, ls, c.start, c.pc.at, c.req, c.pc.sub))
  }

  ghost predicate Sound(s: Store, ls: seq<Label>) {
    && (forall key | key in Reach(s, ls).seen :: WasStored(s, ls, key))
    && (forall t | t in Reach(s, ls).calls :: CallSound(s, ls, Reach(s, ls).calls[t]))
  }

  /** The past of a run does not change when the run goes on. */
  lemma PastStays(s: Store, ls: seq<Label>, l: Label, i: nat, r: Request, e: Entity)
    requires StoredAt(s, ls, i, r, e)
    ensures StoredAt(s, ls + [l], i, r, e)
  {
    assert (ls + [l])[..i] == ls[..i];
  }

  lemma SoundStays(s: Store, ls: seq<Label>, l: Label)
    ensures forall key | WasStored(s, ls, key) :: WasStored(s, ls + [l], key)
    ensures forall c | CallSound(s, ls, c) :: CallSound(s, ls + [l], c)
  {
    forall key | WasStored(s, ls, key) ensures WasStored(s, ls + [l], key) {
      var i: nat, r, e :| CacheKey(r) == key && StoredAt(s, ls, i, r, e);
      PastStays(s, ls, l, i, r, e);
    }
    forall c | CallSound(s, ls, c) ensures CallSound(s, ls + [l], c) {
      if c.pc.MarkSeen? || c.pc.Returned? {
        var end := if c.pc.Returned? then c.pc.at else |ls|;
        var i: nat :| c.start <= i <= end && StoredAt(s, ls, i, c.req, c.pc.sub);
        PastStays(s, ls, l, i, c.req, c.pc.sub);
      }
    }
  }

  /** The moving call after a listing that found `e`, or after creating `e`, holds it now. */
  lemma JustStored(s: Store, ls: seq<Label>, l: Label, start: nat, r: Request, e: Entity)
    requires start <= |ls| && Matches(e, Wanted(r))
    requires var st := Reach(s, ls + [l]).store; e.id in st.entities && st.entities[e.id] == e
    ensures StoredBetween(s, ls + [l], start, |ls| + 1, r, e)
  {
    assert (ls + [l])[..|ls| + 1] == ls + [l];
    assert StoredAt(s, ls + [l], |ls| + 1, r, e);
  }

  lemma SoundStep(s: Store, ls: seq<Label>, l: Label)
    requires Sound(s, ls) && Enabled(Reach(s, ls), l)
    ensures Sound(s, ls + [l])
  {
    var w := Reach(s, ls);
    assert (ls + [l])[..|ls|] == ls;
    assert Reach(s, ls + [l]) == Step(w, l, |ls|);
    SoundStays(s, ls, l);
    match l {
      case List(t, o) =>
        if o.First? {
          JustStored(s, ls, l, w.calls[t].start, w.calls[t].req, o.sub);
        }
      case Insert(t, created) =>
        if created.Some? {
          JustStored(s, ls, l, w.calls[t].start, w.calls[t].req, created.value);
        }
      case Mark(t) =>
        var c := w.calls[t];
        var i: nat :| c.start <= i <= |ls| && StoredAt(s, ls, i, c.req, c.pc.sub);
        PastStays(s, ls, l, i, c.req, c.pc.sub);
        assert WasStored(s, ls + [l], CacheKey(c.req));
      case _ =>
    }
  }

  lemma {:induction false} SoundRun(s: Store, ls: seq<Label>)
    requires Run(s, ls)
    ensures Sound(s, ls)
  {
    if ls != [] {
      SoundRun(s, ls[..|ls| - 1]);
      SoundStep(s, ls[..|ls| - 1], ls[|ls| - 1]);
      assert ls == ls[..|ls| - 1] + [ls[|ls| - 1]];
    }
  }

  /**
    Under every interleaving and every fault: each key marked as seen is one whose
    subscription was stored at some earlier moment, and each call that returned gave back a
    subscription for its own service and pattern that was stored at some moment between the
    call's first step and its return.
   */
  lemma SubscribeSound(s: Store, ls: seq<Label>)
    requires Run(s, ls)
    ensures forall key | key in Reach(s, ls).seen :: WasStored(s, ls, key)
    ensures forall t | t in Reach(s, ls).calls && Reach(s, ls).calls[t].pc.Returned? ::
              var c := Reach(s, ls).calls[t];
              c.pc.at <= |ls| && StoredBetween(s, ls, c.start, c.pc.at, c.req, c.pc.sub)
  {
    SoundRun(s, ls);
  }

  lemma RunMore(s: Store, ls: seq<Label>, l: Label)
    requires Run(s, ls) && Enabled(Reach(s, ls), l)
    ensures Run(s, ls + [l]) && Reach(s, ls + [l]) == Step(Reach(s, ls), l, |ls|)
  {
    assert (ls + [l])[..|ls|] == ls;
  }

  // ── When the subscription key stays unique ────────────────────────────────

  /** At most one subscription for each (service, pattern) of an agency. */
  ghost predicate OnePerKey(s: Store) {
    Uniqueness.Unique(s, SubscriptionKind, Uniqueness.SUB_KEY)
  }

  lemma WantedIs(e: Entity, r: Request)
    ensures Matches(e, Wanted(r)) <==>
            e.agency == r.agency && e.kind == SubscriptionKind && KeyIs(e, SubscriberService, r.service) &&
            KeyIs(e, TopicPattern, r.pattern)
  {
    assert SubscriberService in Wanted(r).props && TopicPattern in Wanted(r).props;
  }

  /** Two entities are rivals for the key exactly when some request wants them both. */
  lemma RivalsWanted(x: Entity, y: Entity, r: Request)
    requires Matches(x, Wanted(r))
    ensures Uniqueness.Rivals(y, x, SubscriptionKind, Uniqueness.SUB_KEY) <==> Matches(y, Wanted(r))
  {
    assert SubscriberService in Uniqueness.SUB_KEY && TopicPattern in Uniqueness.SUB_KEY;
  }

  /**
    The create step of a call keeps the key unique if and only if nothing its request asks
    for is stored at that moment.
   */
  lemma CreateKeepsUniqueIff(w: World, t: nat, e: Entity, now: nat)
    requires WellKeyed(w.store) && OnePerKey(w.store) && Enabled(w, Insert(t, Some(e)))
    ensures OnePerKey(Step(w, Insert(t, Some(e)), now).store) <==> Matching(w.store, Wanted(w.calls[t].req)) == {}
  {
    var r, s' := w.calls[t].req, Put(w.store, e);
    if Matching(w.store, Wanted(r)) == {} {
      forall x | x in w.store.entities
        ensures !Uniqueness.Rivals(w.store.entities[x], e, SubscriptionKind, Uniqueness.SUB_KEY)
      {
        RivalsWanted(e, w.store.entities[x], r);
        assert x !in Matching(w.store, Wanted(r));
      }
      Uniqueness.UniquePut(w.store, e, SubscriptionKind, Uniqueness.SUB_KEY);
    } else {
      var x :| x in Matching(w.store, Wanted(r));
      RivalsWanted(e, w.store.entities[x], r);
      assert s'.entities[x] == w.store.entities[x] && s'.entities[e.id] == e && x != e.id;
    }
  }

  predicate Unfinished(c: Call) {
    !c.pc.Returned? && !c.pc.Failed?
  }

  /** Step `i` does not begin a call while another for the same key is unfinished. */
  ghost predicate ExclusiveAt(s: Store, ls: seq<Label>, i: nat)
    requires i < |ls|
  {
    ls[i].Begin? ==> var w := Reach(s, ls[..i]);
                     forall t | t in w.calls && Unfinished(w.calls[t]) :: w.calls[t].req != ls[i].req
  }

  ghost predicate Exclusive(s: Store, ls: seq<Label>) {
    forall i | 0 <= i < |ls| :: ExclusiveAt(s, ls, i)
  }

  /** One unfinished call for each key, and nothing stored for the key of a call that is about to create. */
  ghost predicate Alone(w: World) {
    && WellKeyed(w.store) && OnePerKey(w.store)
    && (forall t, u | t in w.calls && u in w.calls && Unfinished(w.calls[t]) && Unfinished(w.calls[u]) &&
          w.calls[t].req == w.calls[u].req :: t == u)
    && (forall t | t in w.calls && w.calls[t].pc.Create? :: Matching(w.store, Wanted(w.calls[t].req)) == {})
  }

  lemma AloneStep(w: World, l: Label, now: nat)
    requires Alone(w) && Enabled(w, l)
    requires l.Begin? ==> forall t | t in w.calls && Unfinished(w.calls[t]) :: w.calls[t].req != l.req
    ensures Alone(Step(w, l, now))
  {
    match l {
      case Insert(t, created) =>
        if created.Some? {
          CreateKeepsUniqueIff(w, t, created.value, now);
          CreateHidesNothing(w, t, created.value);
        }
      case Unsubscribe(_, id) => AloneRemoved(w, id);
      case Update(_, id, status, stamp) => AloneUpdated(w, id, StatusProps(status, stamp));
      case _ =>
    }
  }

  lemma AloneRemoved(w: World, id: Id)
    requires Alone(w)
    ensures Alone(w.(store := RemoveAll(w.store, {id})))
  {
    forall t | t in w.calls && w.calls[t].pc.Create?
      ensures Matching(RemoveAll(w.store, {id}), Wanted(w.calls[t].req)) == {}
    {
      var f := Wanted(w.calls[t].req);
      assert Matching(RemoveAll(w.store, {id}), f) == Matching(w.store, f) - {id};
    }
  }

  lemma AloneUpdated(w: World, id: Id, props: Props)
    requires Alone(w) && id in w.store.entities && SubscriberService !in props && TopicPattern !in props
    ensures Alone(w.(store := Merge(w.store, id, props)))
  {
    Uniqueness.UniqueMerge(w.store, id, props, SubscriptionKind, Uniqueness.SUB_KEY);
    forall t | t in w.calls && w.calls[t].pc.Create?
      ensures Matching(Merge(w.store, id, props), Wanted(w.calls[t].req)) == {}
    {
      var f := Wanted(w.calls[t].req);
      assert Matching(Merge(w.store, id, props), f) == Matching(w.store, f);
    }
  }

  /** A created subscription is for its own request only, so no other call about to create is affected. */
  lemma CreateHidesNothing(w: World, t: nat, e: Entity)
    requires Alone(w) && Enabled(w, Insert(t, Some(e)))
    ensures forall u | u in w.calls && u != t && w.calls[u].pc.Create? ::
              Matching(Put(w.store, e), Wanted(w.calls[u].req)) == {}
  {
    forall u | u in w.calls && u != t && w.calls[u].pc.Create?
      ensures Matching(Put(w.store, e), Wanted(w.calls[u].req)) == {}
    {
      var r, q := w.calls[t].req, w.calls[u].req;
      assert Unfinished(w.calls[t]) && Unfinished(w.calls[u]) && r != q;
      WantedIs(e, r);
      WantedIs(e, q);
      assert Matching(Put(w.store, e), Wanted(q)) == Matching(w.store, Wanted(q));
    }
  }

  lemma {:induction false} AloneRun(s: Store, ls: seq<Label>, n: nat)
    requires WellKeyed(s) && OnePerKey(s) && Run(s, ls) && Exclusive(s, ls) && n <= |ls|
    ensures Run(s, ls[..n]) && Alone(Reach(s, ls[..n]))
  {
    if n > 0 {
      AloneRun(s, ls, n - 1);
      RunPrefix(s, ls, n - 1);
      assert ExclusiveAt(s, ls, n - 1);
      AloneStep(Reach(s, ls[..n - 1]), ls[n - 1], n - 1);
    }
  }

  lemma {:induction false} RunPrefix(s: Store, ls: seq<Label>, n: nat)
    requires Run(s, ls) && n < |ls|
    ensures Run(s, ls[..n + 1]) && Enabled(Reach(s, ls[..n]), ls[n])
    ensures Reach(s, ls[..n + 1]) == Step(Reach(s, ls[..n]), ls[n], n)
  {
    var init := ls[..|ls| - 1];
    assert ls[..n + 1][..n] == ls[..n];
    if n < |init| {
      RunPrefix(s, init, n);
      assert init[..n] == ls[..n] && init[..n + 1] == ls[..n + 1];
    } else {
      assert ls[..n + 1] == ls;
    }
  }

  /**
    Under every interleaving and every fault in which no call begins while another call for
    the same agency, service and pattern is unfinished, every store reached has at most one
    subscription for each key.
   */
  lemma NoOverlapNoDuplicates(s: Store, ls: seq<Label>, n: nat)
    requires WellKeyed(s) && OnePerKey(s) && Run(s, ls) && Exclusive(s, ls) && n <= |ls|
    ensures OnePerKey(Reach(s, ls[..n]).store)
  {
    AloneRun(s, ls, n);
  }

  // ── What interleaving costs ───────────────────────────────────────────────

  lemma BothReachCreate(s: Store, r: Request) returns (ls: seq<Label>)
    requires Matching(s, Wanted(r)) == {}
    ensures Run(s, ls) && Reach(s, ls) == World(s, {}, map[0 := Call(r, Create, 0), 1 := Call(r, Create, 1)])
  {
    ls := [];
    RunMore(s, ls, Begin(0, r));
    ls := ls + [Begin(0, r)];
    RunMore(s, ls, Begin(1, r));
    ls := ls + [Begin(1, r)];
    RunMore(s, ls, Read(0));
    ls := ls + [Read(0)];
    RunMore(s, ls, Read(1));
    ls := ls + [Read(1)];
    RunMore(s, ls, List(0, Empty));
    ls := ls + [List(0, Empty)];
    RunMore(s, ls, List(1, Empty));
    ls := ls + [List(1, Empty)];
  }

  /**
    List-then-create is not atomic: two overlapping calls with one key can both create, so
    `NoOverlapNoDuplicates` does need its hypothesis.
   */
  lemma OverlapDuplicates(s: Store, r: Request, a: Entity, b: Entity) returns (ls: seq<Label>)
    requires Matching(s, Wanted(r)) == {} && New(s, a) && New(s, b) && a.id != b.id
    requires Matches(a, Wanted(r)) && Matches(b, Wanted(r))
    ensures Run(s, ls) && {a.id, b.id} <= Matching(Reach(s, ls).store, Wanted(r))
  {
    ls := BothReachCreate(s, r);
    RunMore(s, ls, Insert(0, Some(a)));
    ls := ls + [Insert(0, Some(a))];
    RunMore(s, ls, Insert(1, Some(b)));
    ls := ls + [Insert(1, Some(b))];
  }
}
