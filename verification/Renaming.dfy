/**
  One agency's part of two stores, alike up to a one-to-one renaming of IDs, and the changes
  that keep it so.
 */
module Renaming {
  import opened EntityStore
  import opened ManagerSpec
  import opened Isolation
  import Uniqueness
  import DeliveryLife

  /** Pairs IDs of one store with IDs of another; `from` is the inverse of `to`. */
  datatype Pairing = Pairing(to: map<Id, Id>, from: map<Id, Id>)

  predicate Paired(r: Pairing) {
    && (forall x | x in r.to :: r.to[x] in r.from && r.from[r.to[x]] == x)
    && (forall y | y in r.from :: r.from[y] in r.to && r.to[r.from[y]] == y)
  }

  function Flip(r: Pairing): Pairing {
    Pairing(r.from, r.to)
  }

  function Pair(r: Pairing, x: Id, y: Id): Pairing {
    Pairing(r.to[x := y], r.from[y := x])
  }

  /** The pairing with which two runs from one store begin. */
  function Identity(ids: set<Id>): Pairing {
    Pairing(map x | x in ids :: x, map x | x in ids :: x)
  }

  predicate Linked(r: Pairing, x: Id, y: Id) {
    x in r.to && r.to[x] == y
  }

  /** What one request calls `x` the other calls `y`: its partner, or for an unknown ID another unknown one. */
  predicate SameId(r: Pairing, x: Id, y: Id) {
    if x in r.to then y == r.to[x] else y !in r.from
  }

  predicate Grows(r: Pairing, q: Pairing) {
    forall x | x in r.to :: Linked(q, x, r.to[x])
  }

  predicate IsRef(p: Prop) {
    p == SubscriptionRef || p == EventRef
  }

  predicate SameProps(r: Pairing, p: Props, q: Props) {
    p.Keys == q.Keys && forall k | k in p :: if IsRef(k) then Linked(r, p[k], q[k]) else q[k] == p[k]
  }

  /** The same entity but for its ID and, in a delivery, the IDs it refers to. */
  predicate Twin(r: Pairing, e: Entity, d: Entity) {
    Linked(r, e.id, d.id) && d.agency == e.agency && d.kind == e.kind &&
    if e.kind == DeliveryKind then SameProps(r, e.props, d.props) else d.props == e.props
  }

  /** Each entity of the agency in `s` has its twin in `t`. */
  ghost predicate Half(s: Store, t: Store, agency: string, r: Pairing) {
    forall x | Present(s, agency, x) ::
      x in r.to && Present(t, agency, r.to[x]) && Twin(r, s.entities[x], t.entities[r.to[x]])
  }

  /** The agency's entities are the same in both stores, up to the pairing of IDs. */
  ghost predicate Mirrored(s: Store, t: Store, agency: string, r: Pairing) {
    && WellKeyed(s) && WellKeyed(t) && Paired(r) && r.to.Keys <= s.issued && r.from.Keys <= t.issued
    && Half(s, t, agency, r) && Half(t, s, agency, Flip(r))
  }

  ghost predicate Renamed(z: Sys, y: Sys, agency: string, r: Pairing) {
    Mirrored(z.store, y.store, agency, r) && SameHashes(z.hashes, y.hashes, agency)
  }

  // ── Reading and turning a pairing ─────────────────────────────────────────

  lemma MirroredFlip(s: Store, t: Store, agency: string, r: Pairing)
    requires Mirrored(s, t, agency, r)
    ensures Mirrored(t, s, agency, Flip(r))
  {
    assert Flip(Flip(r)) == r;
  }

  lemma SameIdFlip(r: Pairing, x: Id, y: Id)
    requires Paired(r) && SameId(r, x, y)
    ensures SameId(Flip(r), y, x)
  {
  }

  lemma TwinFlip(r: Pairing, e: Entity, d: Entity)
    requires Paired(r) && Twin(r, e, d)
    ensures Twin(Flip(r), d, e)
  {
  }

  lemma TwinGrows(r: Pairing, q: Pairing, e: Entity, d: Entity)
    requires Grows(r, q) && Twin(r, e, d)
    ensures Twin(q, e, d)
  {
  }

  lemma GrowsTransitive(r: Pairing, p: Pairing, q: Pairing)
    requires Grows(r, p) && Grows(p, q)
    ensures Grows(r, q)
  {
  }

  /** Every store mirrors itself: references in deliveries are to issued IDs. */
  lemma MirrorsItself(s: Store, agency: string)
    requires Uniqueness.Inv(s)
    ensures Mirrored(s, s, agency, Identity(s.issued))
  {
    var r := Identity(s.issued);
    forall x | Present(s, agency, x) ensures Twin(r, s.entities[x], s.entities[x]) {
      if s.entities[x].kind == DeliveryKind {
        assert Uniqueness.Sound(s, s.entities[x]);
      }
    }
  }

  /** Any listing that does not ask for deliveries finds the partners of what it finds. */
  lemma PartnersListed(s: Store, t: Store, agency: string, r: Pairing, f: Filter)
    requires Mirrored(s, t, agency, r) && f.agency == agency && f.kind != DeliveryKind
    ensures forall x | x in Matching(s, f) :: x in r.to && r.to[x] in Matching(t, f)
  {
    assert forall x | x in Matching(s, f) :: Present(s, agency, x);
  }

  /** So such listings correspond both ways. */
  lemma ListingsCorrespond(s: Store, t: Store, agency: string, r: Pairing, f: Filter)
    requires Mirrored(s, t, agency, r) && f.agency == agency && f.kind != DeliveryKind
    ensures forall x | x in Matching(s, f) :: x in r.to && r.to[x] in Matching(t, f)
    ensures forall y | y in Matching(t, f) :: y in r.from && r.from[y] in Matching(s, f)
    ensures Matching(s, f) == {} <==> Matching(t, f) == {}
  {
    PartnersListed(s, t, agency, r, f);
    MirroredFlip(s, t, agency, r);
    PartnersListed(t, s, agency, Flip(r), f);
  }

  lemma ForPair(e: Entity, agency: string, u: Id, v: Id)
    ensures Matches(e, DeliveryFor(agency, u, v)) <==>
            e.agency == agency && e.kind == DeliveryKind && KeyIs(e, SubscriptionRef, u) && KeyIs(e, EventRef, v)
  {
    assert SubscriptionRef in DeliveryFor(agency, u, v).props && EventRef in DeliveryFor(agency, u, v).props;
  }

  /** A listing for a (subscription, event) pair finds the partners under the partners' pair. */
  lemma DeliveryPartners(s: Store, t: Store, agency: string, r: Pairing, u: Id, e: Id, v: Id, d: Id)
    requires Mirrored(s, t, agency, r) && SameId(r, u, v) && SameId(r, e, d)
    ensures forall x | x in Matching(s, DeliveryFor(agency, u, e)) ::
              x in r.to && r.to[x] in Matching(t, DeliveryFor(agency, v, d))
  {
    forall x | x in Matching(s, DeliveryFor(agency, u, e))
      ensures x in r.to && r.to[x] in Matching(t, DeliveryFor(agency, v, d))
    {
      assert Present(s, agency, x);
      ForPair(s.entities[x], agency, u, e);
      ForPair(t.entities[r.to[x]], agency, v, d);
      assert IsRef(SubscriptionRef) && IsRef(EventRef);
    }
  }

  lemma DeliveriesCorrespond(s: Store, t: Store, agency: string, r: Pairing, u: Id, e: Id, v: Id, d: Id)
    requires Mirrored(s, t, agency, r) && SameId(r, u, v) && SameId(r, e, d)
    ensures forall x | x in Matching(s, DeliveryFor(agency, u, e)) ::
              x in r.to && r.to[x] in Matching(t, DeliveryFor(agency, v, d))
    ensures Matching(s, DeliveryFor(agency, u, e)) == {} <==> Matching(t, DeliveryFor(agency, v, d)) == {}
  {
    DeliveryPartners(s, t, agency, r, u, e, v, d);
    MirroredFlip(s, t, agency, r);
    SameIdFlip(r, u, v);
    SameIdFlip(r, e, d);
    DeliveryPartners(t, s, agency, Flip(r), v, d, u, e);
  }

  lemma PresentCorresponds(s: Store, t: Store, agency: string, r: Pairing, x: Id, y: Id)
    requires Mirrored(s, t, agency, r) && SameId(r, x, y)
    ensures Present(s, agency, x) <==> Present(t, agency, y)
    ensures Present(s, agency, x) ==> Linked(r, x, y)
  {
    if Present(t, agency, y) {
      assert y in Flip(r).to;
    }
  }

  // ── Changes on both sides ─────────────────────────────────────────────────

  lemma PutHalf(s: Store, t: Store, agency: string, r: Pairing, e: Entity, d: Entity)
    requires Mirrored(s, t, agency, r) && New(s, e) && New(t, d) && e.agency == agency
    requires Twin(Pair(r, e.id, d.id), e, d)
    ensures Half(Put(s, e), Put(t, d), agency, Pair(r, e.id, d.id))
  {
    var q := Pair(r, e.id, d.id);
    forall x | Present(Put(s, e), agency, x)
      ensures x in q.to && Present(Put(t, d), agency, q.to[x]) &&
              Twin(q, Put(s, e).entities[x], Put(t, d).entities[q.to[x]])
    {
      if x != e.id {
        assert Present(s, agency, x) && r.to[x] in t.issued;
        TwinGrows(r, q, s.entities[x], t.entities[r.to[x]]);
      }
    }
  }

  lemma PairPaired(s: Store, t: Store, r: Pairing, x: Id, y: Id)
    requires Paired(r) && r.to.Keys <= s.issued && r.from.Keys <= t.issued && x !in s.issued && y !in t.issued
    ensures Paired(Pair(r, x, y)) && Grows(r, Pair(r, x, y))
  {
  }

  /** Two new entities, twins once their IDs are paired. */
  lemma PutMirrored(s: Store, t: Store, agency: string, r: Pairing, e: Entity, d: Entity)
    requires Mirrored(s, t, agency, r) && New(s, e) && New(t, d) && e.agency == agency
    requires Twin(Pair(r, e.id, d.id), e, d)
    ensures Mirrored(Put(s, e), Put(t, d), agency, Pair(r, e.id, d.id))
  {
    PairPaired(s, t, r, e.id, d.id);
    PutHalf(s, t, agency, r, e, d);
    MirroredFlip(s, t, agency, r);
    TwinFlip(Pair(r, e.id, d.id), e, d);
    PutHalf(t, s, agency, Flip(r), d, e);
  }

  lemma LinkMirrored(s: Store, t: Store, agency: string, r: Pairing, e: Edge, d: Edge)
    requires Mirrored(s, t, agency, r)
    ensures Mirrored(Link(s, e), t, agency, r) && Mirrored(s, Link(t, d), agency, r)
    ensures Mirrored(Link(s, e), Link(t, d), agency, r)
  {
  }

  lemma MergeHalf(s: Store, t: Store, agency: string, r: Pairing, x: Id, props: Props)
    requires Mirrored(s, t, agency, r) && Present(s, agency, x) && forall k | k in props :: !IsRef(k)
    ensures x in r.to && r.to[x] in t.entities
    ensures Half(Merge(s, x, props), Merge(t, r.to[x], props), agency, r)
  {
    var s', t' := Merge(s, x, props), Merge(t, r.to[x], props);
    forall v | Present(s', agency, v)
      ensures v in r.to && Present(t', agency, r.to[v]) && Twin(r, s'.entities[v], t'.entities[r.to[v]])
    {
      assert Present(s, agency, v);
      if v != x {
        assert r.to[v] != r.to[x];
      }
    }
  }

  lemma MergeMirrored(s: Store, t: Store, agency: string, r: Pairing, x: Id, y: Id, props: Props)
    requires Mirrored(s, t, agency, r) && Present(s, agency, x) && Linked(r, x, y)
    requires forall k | k in props :: !IsRef(k)
    ensures y in t.entities && Mirrored(Merge(s, x, props), Merge(t, y, props), agency, r)
  {
    MergeHalf(s, t, agency, r, x, props);
    MirroredFlip(s, t, agency, r);
    MergeHalf(t, s, agency, Flip(r), y, props);
  }

  lemma RemoveHalf(s: Store, t: Store, agency: string, r: Pairing, x: Id, y: Id)
    requires Mirrored(s, t, agency, r) && Linked(r, x, y)
    ensures Half(RemoveAll(s, {x}), RemoveAll(t, {y}), agency, r)
  {
    forall v | Present(RemoveAll(s, {x}), agency, v)
      ensures v in r.to && Present(RemoveAll(t, {y}), agency, r.to[v]) &&
              Twin(r, RemoveAll(s, {x}).entities[v], RemoveAll(t, {y}).entities[r.to[v]])
    {
      assert Present(s, agency, v);
    }
  }

  lemma RemoveMirrored(s: Store, t: Store, agency: string, r: Pairing, x: Id, y: Id)
    requires Mirrored(s, t, agency, r) && Linked(r, x, y)
    ensures Mirrored(RemoveAll(s, {x}), RemoveAll(t, {y}), agency, r)
  {
    RemoveHalf(s, t, agency, r, x, y);
    MirroredFlip(s, t, agency, r);
    RemoveHalf(t, s, agency, Flip(r), y, x);
  }

  /** What another agency does on the first side leaves the mirror as it is. */
  lemma OthersMirrored(z: Sys, y: Sys, z': Sys, agency: string, r: Pairing)
    requires Renamed(z, y, agency, r) && Alike(z', z, agency)
    ensures Renamed(z', y, agency, r)
  {
    forall x | Present(z'.store, agency, x) ensures x in r.to && z'.store.entities[x] == z.store.entities[x] {
      assert Present(z.store, agency, x);
    }
  }

  // ── Two fan-outs ──────────────────────────────────────────────────────────

  /** The subscription that the delivery with ID `x` is for. */
  ghost function RefOf(ds: seq<Entity>, x: Id): Id
    requires x in Ids(ds)
  {
    var i :| 0 <= i < |ds| && ds[i].id == x;
    Get(ds[i], SubscriptionRef)
  }

  /** The delivery for subscription `u`. */
  ghost function DeliveryTo(ds: seq<Entity>, u: Id): Id
    requires u in SubRefs(ds)
  {
    var i :| 0 <= i < |ds| && Get(ds[i], SubscriptionRef) == u;
    ds[i].id
  }

  /** Each delivery of one fan-out with the other's delivery for the paired subscription. */
  ghost function Mates(ds: seq<Entity>, es: seq<Entity>, to: map<Id, Id>): map<Id, Id> {
    map x | x in Ids(ds) && RefOf(ds, x) in to && to[RefOf(ds, x)] in SubRefs(es) :: DeliveryTo(es, to[RefOf(ds, x)])
  }

  ghost function PairAll(r: Pairing, ds: seq<Entity>, es: seq<Entity>): Pairing {
    Pairing(r.to + Mates(ds, es, r.to), r.from + Mates(es, ds, r.from))
  }

  ghost predicate DistinctRefs(ds: seq<Entity>) {
    DistinctIds(ds) && forall i, j | 0 <= i < j < |ds| :: Get(ds[i], SubscriptionRef) != Get(ds[j], SubscriptionRef)
  }

  /** Both fan-outs serve the same subscriptions, up to the pairing. */
  ghost predicate ServeAlike(ds: seq<Entity>, es: seq<Entity>, r: Pairing) {
    && DistinctRefs(ds) && DistinctRefs(es)
    && (forall u | u in SubRefs(ds) :: u in r.to && r.to[u] in SubRefs(es))
    && (forall v | v in SubRefs(es) :: v in r.from && r.from[v] in SubRefs(ds))
  }

  lemma MateOf(ds: seq<Entity>, es: seq<Entity>, r: Pairing, i: nat) returns (j: nat)
    requires ServeAlike(ds, es, r) && i < |ds|
    ensures j < |es| && Linked(r, Get(ds[i], SubscriptionRef), Get(es[j], SubscriptionRef))
    ensures ds[i].id in Mates(ds, es, r.to) && Mates(ds, es, r.to)[ds[i].id] == es[j].id
  {
    var u := Get(ds[i], SubscriptionRef);
    assert u in SubRefs(ds) && ds[i].id in Ids(ds);
    assert RefOf(ds, ds[i].id) == u;
    j :| 0 <= j < |es| && Get(es[j], SubscriptionRef) == r.to[u];
    assert DeliveryTo(es, r.to[u]) == es[j].id;
  }

  /** The mate's mate is the delivery itself. */
  lemma MatesInverse(ds: seq<Entity>, es: seq<Entity>, r: Pairing)
    requires Paired(r) && ServeAlike(ds, es, r)
    ensures Mates(ds, es, r.to).Keys == Ids(ds)
    ensures forall x | x in Ids(ds) :: Mates(ds, es, r.to)[x] in Ids(es)
    ensures forall x | x in Ids(ds) :: Mates(ds, es, r.to)[x] in Mates(es, ds, r.from) &&
                                       Mates(es, ds, r.from)[Mates(ds, es, r.to)[x]] == x
  {
    forall x | x in Ids(ds)
      ensures x in Mates(ds, es, r.to) && Mates(ds, es, r.to)[x] in Ids(es)
      ensures Mates(ds, es, r.to)[x] in Mates(es, ds, r.from) && Mates(es, ds, r.from)[Mates(ds, es, r.to)[x]] == x
    {
      var i :| 0 <= i < |ds| && ds[i].id == x;
      var j := MateOf(ds, es, r, i);
      var k := MateOf(es, ds, Flip(r), j);
      assert Get(ds[k], SubscriptionRef) == Get(ds[i], SubscriptionRef);
      assert k == i;
    }
  }

  /** Adding new pairs to a pairing keeps `from` the inverse of `to`. */
  lemma JoinInverse(to: map<Id, Id>, from: map<Id, Id>, more: map<Id, Id>, back: map<Id, Id>)
    requires forall x | x in to :: to[x] in from && from[to[x]] == x
    requires forall x | x in more :: more[x] in back && back[more[x]] == x
    requires from.Keys !! back.Keys && to.Keys !! more.Keys
    ensures forall x | x in to + more :: (to + more)[x] in from + back && (from + back)[(to + more)[x]] == x
    ensures forall x | x in to :: (to + more)[x] == to[x]
  {
  }

  lemma PairAllPaired(s: Store, t: Store, r: Pairing, ds: seq<Entity>, es: seq<Entity>)
    requires Paired(r) && r.to.Keys <= s.issued && r.from.Keys <= t.issued && ServeAlike(ds, es, r)
    requires (forall i | 0 <= i < |ds| :: New(s, ds[i])) && (forall i | 0 <= i < |es| :: New(t, es[i]))
    ensures Paired(PairAll(r, ds, es)) && Grows(r, PairAll(r, ds, es))
    ensures PairAll(r, ds, es).to.Keys == r.to.Keys + Ids(ds)
  {
    var more, back := Mates(ds, es, r.to), Mates(es, ds, r.from);
    MatesInverse(ds, es, r);
    MatesInverse(es, ds, Flip(r));
    assert r.to.Keys !! more.Keys && r.from.Keys !! back.Keys;
    JoinInverse(r.to, r.from, more, back);
    JoinInverse(r.from, r.to, back, more);
  }

  /** Deliveries for paired subscriptions agree in everything but IDs. */
  ghost predicate PropsAlike(ds: seq<Entity>, es: seq<Entity>, r: Pairing) {
    forall i, j | 0 <= i < |ds| && 0 <= j < |es| &&
      Linked(r, Get(ds[i], SubscriptionRef), Get(es[j], SubscriptionRef)) :: SameProps(r, ds[i].props, es[j].props)
  }

  ghost predicate NewDeliveries(s: Store, agency: string, ds: seq<Entity>) {
    forall i | 0 <= i < |ds| :: New(s, ds[i]) && ds[i].agency == agency && ds[i].kind == DeliveryKind
  }

  /** The twin of a delivery among the other fan-out's. */
  lemma TwinOf(s: Store, t: Store, agency: string, ds: seq<Entity>, es: seq<Entity>, r: Pairing, i: nat) returns (j: nat)
    requires Paired(r) && r.to.Keys <= s.issued && r.from.Keys <= t.issued
    requires ServeAlike(ds, es, r) && PropsAlike(ds, es, r)
    requires NewDeliveries(s, agency, ds) && NewDeliveries(t, agency, es) && i < |ds|
    ensures j < |es| && Twin(PairAll(r, ds, es), ds[i], es[j])
  {
    j := MateOf(ds, es, r, i);
    PairAllPaired(s, t, r, ds, es);
    assert SameProps(r, ds[i].props, es[j].props);
  }

  lemma PutAllHalf(s: Store, t: Store, agency: string, r: Pairing, ds: seq<Entity>, es: seq<Entity>)
    requires Mirrored(s, t, agency, r) && ServeAlike(ds, es, r) && PropsAlike(ds, es, r)
    requires NewDeliveries(s, agency, ds) && NewDeliveries(t, agency, es)
    ensures Half(PutAll(s, ds), PutAll(t, es), agency, PairAll(r, ds, es))
  {
    var q, s', t' := PairAll(r, ds, es), PutAll(s, ds), PutAll(t, es);
    PutAllContents(s, ds);
    PutAllContents(t, es);
    PairAllPaired(s, t, r, ds, es);
    forall x | Present(s', agency, x)
      ensures x in q.to && Present(t', agency, q.to[x]) && Twin(q, s'.entities[x], t'.entities[q.to[x]])
    {
      if x in Ids(ds) {
        var i :| 0 <= i < |ds| && ds[i].id == x;
        var j := TwinOf(s, t, agency, ds, es, r, i);
      } else {
        assert Present(s, agency, x);
        TwinGrows(r, q, s.entities[x], t.entities[r.to[x]]);
      }
    }
  }

  lemma PropsAlikeFlip(ds: seq<Entity>, es: seq<Entity>, r: Pairing)
    requires Paired(r) && PropsAlike(ds, es, r)
    ensures PropsAlike(es, ds, Flip(r))
  {
    forall j, i | 0 <= j < |es| && 0 <= i < |ds| &&
      Linked(Flip(r), Get(es[j], SubscriptionRef), Get(ds[i], SubscriptionRef))
      ensures SameProps(Flip(r), es[j].props, ds[i].props)
    {
      assert SameProps(r, ds[i].props, es[j].props);
    }
  }

  /** Two fan-outs to paired subscriptions. */
  lemma PutAllMirrored(s: Store, t: Store, agency: string, r: Pairing, ds: seq<Entity>, es: seq<Entity>)
    requires Mirrored(s, t, agency, r) && ServeAlike(ds, es, r) && PropsAlike(ds, es, r)
    requires NewDeliveries(s, agency, ds) && NewDeliveries(t, agency, es)
    ensures Mirrored(PutAll(s, ds), PutAll(t, es), agency, PairAll(r, ds, es))
  {
    PutAllHalf(s, t, agency, r, ds, es);
    MirroredFlip(s, t, agency, r);
    PropsAlikeFlip(ds, es, r);
    PutAllHalf(t, s, agency, Flip(r), es, ds);
    PairAllPaired(s, t, r, ds, es);
    PairAllPaired(t, s, Flip(r), es, ds);
    PutAllContents(s, ds);
    PutAllContents(t, es);
    DeliveryLife.KeyedPutAll(s, ds);
    DeliveryLife.KeyedPutAll(t, es);
  }
}
