/**
  The entity store under both components: typed entities with string properties, an
  equality filter that lists in no promised order, merging updates, and deletion.
  IDs are never reused. Every call can fail, as an arbitrary fault schedule decides.
 */
module EntityStore {
  import opened Wrappers

  type Id = string

  datatype Kind = TopicKind | EventKind | SubscriptionKind | DeliveryKind | MessageKind

  datatype Prop =
    | Name | TopicName | Cursor | MessageId | Attributes
    | Pattern | Domain | Action | SourceService | Description
    | EventTopic | AgencyOf | Payload | PublishedAt
    | SubscriberId | SubscriberService | TopicPattern | Status
    | SubscriptionRef | EventRef | LastAttemptedAt | AckedAt
    | CreatedAt | UpdatedAt

  type Props = map<Prop, string>

  datatype Entity = Entity(id: Id, agency: string, kind: Kind, props: Props)

  datatype Edge = Edge(agency: string, name: string, from: Id, to: Id)

  datatype Filter = Filter(agency: string, kind: Kind, props: Props)

  datatype Store = Store(entities: map<Id, Entity>, issued: set<Id>, edges: seq<Edge>)

  /** strProp: a missing property reads as the empty string. */
  function Get(e: Entity, p: Prop): string {
    if p in e.props then e.props[p] else ""
  }

  predicate Matches(e: Entity, f: Filter) {
    e.agency == f.agency && e.kind == f.kind && forall p | p in f.props :: p in e.props && e.props[p] == f.props[p]
  }

  predicate KeyIs(e: Entity, p: Prop, v: string) {
    p in e.props && e.props[p] == v
  }

  /** The agency's entities of that kind with value `v` for `p`. */
  function With(s: Store, agency: string, kind: Kind, p: Prop, v: string): set<Id> {
    set x | x in s.entities && s.entities[x].kind == kind && s.entities[x].agency == agency && KeyIs(s.entities[x], p, v)
  }

  predicate InStore(s: Store, e: Entity) {
    e.id in s.entities && s.entities[e.id] == e
  }

  /** The IDs a listing with filter `f` contains. */
  function Matching(s: Store, f: Filter): set<Id> {
    set id | id in s.entities && Matches(s.entities[id], f)
  }

  function Ids(es: seq<Entity>): set<Id> {
    set i | 0 <= i < |es| :: es[i].id
  }

  ghost predicate DistinctIds(es: seq<Entity>) {
    forall i, j | 0 <= i < j < |es| :: es[i].id != es[j].id
  }

  ghost predicate StoredIn(es: seq<Entity>, s: Store) {
    forall i | 0 <= i < |es| :: es[i].id in s.entities && s.entities[es[i].id] == es[i]
  }

  /** `es` lists the matches of `f` once each, in some order. */
  ghost predicate IsListing(es: seq<Entity>, s: Store, f: Filter) {
    DistinctIds(es) && StoredIn(es, s) && Ids(es) == Matching(s, f)
  }

  lemma IdsAppend(es: seq<Entity>, e: Entity)
    ensures Ids(es + [e]) == Ids(es) + {e.id}
  {
    assert forall i | 0 <= i < |es| :: (es + [e])[i] == es[i];
    assert (es + [e])[|es|] == e;
    forall id | id in Ids(es) ensures id in Ids(es + [e]) {
      var i :| 0 <= i < |es| && es[i].id == id;
      assert (es + [e])[i].id == id;
    }
  }

  lemma {:induction false} IdCount(es: seq<Entity>)
    requires DistinctIds(es)
    ensures |Ids(es)| == |es|
  {
    if es != [] {
      var init, e := es[..|es| - 1], es[|es| - 1];
      IdCount(init);
      assert es == init + [e];
      IdsAppend(init, e);
      assert e.id !in Ids(init);
    }
  }

  /** A listing of what a pass over the store has met before `todo`. */
  ghost predicate ListedBefore(es: seq<Entity>, s: Store, f: Filter, todo: set<Id>) {
    DistinctIds(es) && StoredIn(es, s) && Ids(es) == Matching(s, f) - todo
  }

  lemma ListNext(es: seq<Entity>, s: Store, f: Filter, todo: set<Id>, id: Id)
    requires WellKeyed(s) && ListedBefore(es, s, f, todo) && id in todo && id in s.entities
    ensures ListedBefore(if Matches(s.entities[id], f) then es + [s.entities[id]] else es, s, f, todo - {id})
  {
    if Matches(s.entities[id], f) {
      IdsAppend(es, s.entities[id]);
      assert forall i | 0 <= i < |es| :: es[i].id in Ids(es);
    }
  }

  ghost predicate WellKeyed(s: Store) {
    forall id | id in s.entities :: s.entities[id].id == id && id in s.issued
  }

  predicate Present(s: Store, agency: string, id: Id) {
    id in s.entities && s.entities[id].agency == agency
  }

  function Put(s: Store, e: Entity): Store {
    s.(entities := s.entities[e.id := e], issued := s.issued + {e.id})
  }

  function PutAll(s: Store, es: seq<Entity>): Store {
    if es == [] then s else Put(PutAll(s, es[..|es| - 1]), es[|es| - 1])
  }

  function Merge(s: Store, id: Id, props: Props): Store
    requires id in s.entities
  {
    var e := s.entities[id];
    s.(entities := s.entities[id := e.(props := e.props + props)])
  }

  function RemoveAll(s: Store, ids: set<Id>): Store {
    s.(entities := s.entities - ids)
  }

  function Link(s: Store, e: Edge): Store {
    s.(edges := s.edges + [e])
  }

  ghost predicate NoFaultsFrom(faults: nat -> bool, n: nat) {
    forall k: nat | k >= n :: !faults(k)
  }

  /** A string outside `used`, as a fresh UUID is. */
  method NewId(used: set<string>) returns (id: string)
    ensures id !in used && id != ""
  {
    var todo := used;
    id := "#";
    while todo != {}
      invariant todo <= used && id != ""
      invariant forall u | u in used - todo :: |u| < |id|
      decreases |todo|
    {
      var u :| u in todo;
      if |u| >= |id| {
        id := u + "#";
      }
      todo := todo - {u};
    }
  }

  class DataManager {
    var store: Store
    var calls: nat                 // store calls made so far
    const faults: nat -> bool      // whether the n-th call fails

    ghost predicate Valid()
      reads this
    {
      WellKeyed(store)
    }

    constructor (faults: nat -> bool)
      ensures Valid() && store == Store(map[], {}, []) && calls == 0 && this.faults == faults
    {
      this.faults := faults;
      store := Store(map[], {}, []);
      calls := 0;
    }

    method CreateEntity(agency: string, kind: Kind, props: Props) returns (r: Result<Entity>)
      requires Valid()
      modifies this
      ensures Valid() && calls == old(calls) + 1
      ensures r.Success? <==> !faults(old(calls))
      ensures r.Failure? ==> r.error == StoreFault && store == old(store)
      ensures r.Success? ==> r.value == Entity(r.value.id, agency, kind, props) && r.value.id !in old(store).issued
      ensures r.Success? ==> store == Put(old(store), r.value)
    {
      var failed := faults(calls);
      calls := calls + 1;
      if failed {
        return Failure(StoreFault);
      }
      var id := NewId(store.issued);
      var e := Entity(id, agency, kind, props);
      store := Put(store, e);
      return Success(e);
    }

    method ListEntities(f: Filter) returns (r: Result<seq<Entity>>)
      requires Valid()
      modifies this`calls
      ensures Valid() && calls == old(calls) + 1
      ensures r.Success? <==> !faults(old(calls))
      ensures r.Failure? ==> r.error == StoreFault
      ensures r.Success? ==> IsListing(r.value, store, f)
    {
      var failed := faults(calls);
      calls := calls + 1;
      if failed {
        return Failure(StoreFault);
      }
      var todo := store.entities.Keys;
      var out: seq<Entity> := [];
      while todo != {}
        invariant todo <= store.entities.Keys && calls == old(calls) + 1
        invariant ListedBefore(out, store, f, todo)
        decreases |todo|
      {
        var id :| id in todo;
        ListNext(out, store, f, todo, id);
        if Matches(store.entities[id], f) {
          out := out + [store.entities[id]];
        }
        todo := todo - {id};
      }
      return Success(out);
    }

    method UpdateEntity(agency: string, id: Id, props: Props) returns (r: Result<Entity>)
      requires Valid()
      modifies this
      ensures Valid() && calls == old(calls) + 1
      ensures r.Success? <==> !faults(old(calls)) && Present(old(store), agency, id)
      ensures r.Failure? ==> store == old(store)
      ensures r.Failure? ==> r.error == if faults(old(calls)) then StoreFault else EntityNotFound
      ensures r.Success? ==> store == Merge(old(store), id, props) && r.value == store.entities[id]
    {
      var failed := faults(calls);
      calls := calls + 1;
      if failed {
        return Failure(StoreFault);
      }
      if !Present(store, agency, id) {
        return Failure(EntityNotFound);
      }
      store := Merge(store, id, props);
      return Success(store.entities[id]);
    }

    method DeleteEntity(agency: string, id: Id) returns (r: Result<()>)
      requires Valid()
      modifies this
      ensures Valid() && calls == old(calls) + 1
      ensures r.Success? <==> !faults(old(calls)) && Present(old(store), agency, id)
      ensures r.Failure? ==> store == old(store)
      ensures r.Failure? ==> r.error == if faults(old(calls)) then StoreFault else EntityNotFound
      ensures r.Success? ==> store == RemoveAll(old(store), {id})
    {
      var failed := faults(calls);
      calls := calls + 1;
      if failed {
        return Failure(StoreFault);
      }
      if !Present(store, agency, id) {
        return Failure(EntityNotFound);
      }
      store := RemoveAll(store, {id});
      return Success(());
    }

    method CreateRelationship(e: Edge) returns (r: Result<()>)
      requires Valid()
      modifies this
      ensures Valid() && calls == old(calls) + 1
      ensures r.Success? <==> !faults(old(calls))
      ensures r.Failure? ==> r.error == StoreFault && store == old(store)
      ensures r.Success? ==> store == Link(old(store), e)
    {
      var failed := faults(calls);
      calls := calls + 1;
      if failed {
        return Failure(StoreFault);
      }
      store := Link(store, e);
      return Success(());
    }
  }
}
