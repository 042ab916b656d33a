/**
  The produces-hash cache against the store: RegisterTopics skips all work when the cached
  hash equals the given one. When is that skip harmless?
 */
module HashCache {
  import opened Text
  import opened EntityStore
  import opened ManagerSpec
  import opened DeliveryLife

  /** Go's map read: a missing key reads as the empty string. */
  function Cached(hashes: map<string, string>, key: string): string {
    if key in hashes then hashes[key] else ""
  }

  ghost predicate AllRegistered(s: Store, agency: string, patterns: set<string>) {
    forall p | p in patterns :: Matching(s, TopicByPattern(agency, p)) != {}
  }

  /** What a RegisterTopics call can do: skip, take the hash over once every pattern has a topic, or fail. */
  ghost predicate RegistersCall(z: Sys, agency: string, service: string, hash: string, patterns: set<string>,
                                ok: bool, y: Sys) {
    var key := Key(agency, service);
    if Cached(z.hashes, key) == hash then ok && y == z
    else if ok then AllRegistered(y.store, agency, patterns) && y.hashes == z.hashes[key := hash]
    else y.hashes == z.hashes
  }

  /** Every hash cached for the agency stands for patterns that all have a topic. */
  ghost predicate CacheAgrees(z: Sys, agency: string, meaning: string -> set<string>) {
    forall service: string {:trigger Key(agency, service)} ::
      Key(agency, service) in z.hashes ==> AllRegistered(z.store, agency, meaning(z.hashes[Key(agency, service)]))
  }

  /** The agency deletes no topic and its hashes stand for pattern sets; nobody else's keys can be its keys. */
  ghost predicate Steady(s: Store, a: Act, agency: string, meaning: string -> set<string>) {
    && KeysApart(agency, AgencyOfAct(a))
    && (AgencyOfAct(a) == agency ==>
          Typed(s, a) && !a.DeletedTopic? && (a.StoredHash? ==> a.patterns == meaning(a.hash)))
  }

  ghost predicate SteadyAt(z: Sys, acts: seq<Act>, i: nat, agency: string, meaning: string -> set<string>)
    requires i < |acts|
  {
    Steady(After(z, acts[..i]).store, acts[i], agency, meaning)
  }

  ghost predicate SteadyRun(z: Sys, acts: seq<Act>, agency: string, meaning: string -> set<string>) {
    forall i | 0 <= i < |acts| :: SteadyAt(z, acts, i, agency, meaning)
  }

  lemma TopicsStay(z: Sys, a: Act, meaning: string -> set<string>, agency: string, pattern: string)
    requires WellKeyed(z.store) && Enabled(z, a) && Steady(z.store, a, agency, meaning)
    requires Matching(z.store, TopicByPattern(agency, pattern)) != {}
    ensures Matching(Apply(z, a).store, TopicByPattern(agency, pattern)) != {}
  {
    var x :| x in Matching(z.store, TopicByPattern(agency, pattern));
    TopicStays(z, a, meaning, agency, x);
    assert x in Matching(Apply(z, a).store, TopicByPattern(agency, pattern));
  }

  lemma TopicStays(z: Sys, a: Act, meaning: string -> set<string>, agency: string, x: Id)
    requires WellKeyed(z.store) && Enabled(z, a) && Steady(z.store, a, agency, meaning)
    requires Present(z.store, agency, x) && HasKind(z.store, x, TopicKind)
    ensures x in Apply(z, a).store.entities && Apply(z, a).store.entities[x] == z.store.entities[x]
  {
    if a.RecordedEvent? {
      PutAllContents(WithEvent(z.store, a.event, a.topicId, a.linked), a.deliveries);
    }
  }

  lemma CacheStep(z: Sys, a: Act, agency: string, meaning: string -> set<string>)
    requires WellKeyed(z.store) && Enabled(z, a) && Steady(z.store, a, agency, meaning) && CacheAgrees(z, agency, meaning)
    ensures CacheAgrees(Apply(z, a), agency, meaning)
  {
    var y := Apply(z, a);
    forall service: string | Key(agency, service) in y.hashes
      ensures AllRegistered(y.store, agency, meaning(y.hashes[Key(agency, service)]))
    {
      var patterns := meaning(y.hashes[Key(agency, service)]);
      assert AllRegistered(z.store, agency, patterns) by {
        if a.StoredHash? && Key(agency, service) == Key(a.agency, a.service) {
          KeyInjective(agency, service, a.agency, a.service);
        } else {
          assert Key(agency, service) in z.hashes;
        }
      }
      forall p | p in patterns ensures Matching(y.store, TopicByPattern(agency, p)) != {} {
        TopicsStay(z, a, meaning, agency, p);
      }
    }
  }

  lemma {:induction false} CacheRun(z: Sys, acts: seq<Act>, n: nat, agency: string, meaning: string -> set<string>)
    requires WellKeyed(z.store) && CacheAgrees(z, agency, meaning) && Possible(z, acts) && SteadyRun(z, acts, agency, meaning)
    requires n <= |acts|
    ensures CacheAgrees(After(z, acts[..n]), agency, meaning)
  {
    if n > 0 {
      CacheRun(z, acts, n - 1, agency, meaning);
      KeyedRun(z, acts, n - 1);
      RunPrefix(z, acts, n - 1);
      assert SteadyAt(z, acts, n - 1, agency, meaning);
      CacheStep(After(z, acts[..n - 1]), acts[n - 1], agency, meaning);
    }
  }

  /**
    In every steady run, faults included, a RegisterTopics call that is skipped finds a
    topic for every pattern it asked for, unless it is skipped for an empty hash where none
    is cached.
   */
  lemma SkipIsSound(z: Sys, acts: seq<Act>, meaning: string -> set<string>, agency: string, service: string, hash: string)
    requires WellKeyed(z.store) && z.hashes == map[] && Possible(z, acts) && SteadyRun(z, acts, agency, meaning)
    requires Cached(After(z, acts).hashes, Key(agency, service)) == hash
    ensures if Key(agency, service) in After(z, acts).hashes
            then AllRegistered(After(z, acts).store, agency, meaning(hash))
            else hash == ""
  {
    CacheRun(z, acts, |acts|, agency, meaning);
    assert acts[..|acts|] == acts;
  }

  /**
    What success of a RegisterTopics call is worth, exactly: after a steady run it leaves a
    topic for every requested pattern if and only if its hash is not empty, or some hash was
    cached for the service, or the topics were all there before. In the remaining case, a
    first call with the empty hash, it registers nothing and still succeeds.
   */
  lemma SuccessRegistersIff(z: Sys, acts: seq<Act>, meaning: string -> set<string>, agency: string, service: string,
                            hash: string, ok: bool, y: Sys)
    requires WellKeyed(z.store) && z.hashes == map[] && Possible(z, acts) && SteadyRun(z, acts, agency, meaning)
    requires RegistersCall(After(z, acts), agency, service, hash, meaning(hash), ok, y) && ok
    ensures AllRegistered(y.store, agency, meaning(hash)) <==>
            hash != "" || Key(agency, service) in After(z, acts).hashes ||
            AllRegistered(After(z, acts).store, agency, meaning(hash))
    ensures hash == "" && Key(agency, service) !in After(z, acts).hashes ==> y == After(z, acts)
  {
    if Cached(After(z, acts).hashes, Key(agency, service)) == hash {
      SkipIsSound(z, acts, meaning, agency, service, hash);
    }
  }

  lemma LastOfPattern(s: Store, id: Id, f: Filter)
    ensures Matching(RemoveAll(s, {id}), f) == {} <==> Matching(s, f) <= {id}
  {
    assert Matching(RemoveAll(s, {id}), f) == Matching(s, f) - {id};
  }

  /**
    A deletion never touches the cache: the next RegisterTopics call with the cached hash is
    skipped, succeeds and changes nothing, and it leaves a topic for every pattern it asks
    for if and only if each of them had a topic other than the deleted one.
   */
  lemma DeletionBreaksSkip(z: Sys, agency: string, id: Id, service: string, hash: string, patterns: set<string>,
                           ok: bool, w: Sys)
    requires Enabled(z, DeletedTopic(agency, id)) && Cached(z.hashes, Key(agency, service)) == hash
    requires RegistersCall(Apply(z, DeletedTopic(agency, id)), agency, service, hash, patterns, ok, w)
    ensures ok && w == Apply(z, DeletedTopic(agency, id))
    ensures AllRegistered(w.store, agency, patterns) <==>
            forall p | p in patterns :: !(Matching(z.store, TopicByPattern(agency, p)) <= {id})
  {
    forall p | p in patterns
      ensures Matching(w.store, TopicByPattern(agency, p)) == {} <==> Matching(z.store, TopicByPattern(agency, p)) <= {id}
    {
      LastOfPattern(z.store, id, TopicByPattern(agency, p));
    }
  }

  /** After a steady run that cached the hash: if and only if the deleted topic was not the only one of any pattern. */
  lemma DeletionAfterSteadyRun(z: Sys, acts: seq<Act>, meaning: string -> set<string>, agency: string, service: string,
                               hash: string, id: Id, ok: bool, w: Sys)
    requires WellKeyed(z.store) && z.hashes == map[] && Possible(z, acts) && SteadyRun(z, acts, agency, meaning)
    requires var y := After(z, acts);
             Key(agency, service) in y.hashes && y.hashes[Key(agency, service)] == hash &&
             Enabled(y, DeletedTopic(agency, id)) &&
             RegistersCall(Apply(y, DeletedTopic(agency, id)), agency, service, hash, meaning(hash), ok, w)
    ensures AllRegistered(w.store, agency, meaning(hash)) <==>
            forall p | p in meaning(hash) :: Matching(After(z, acts).store, TopicByPattern(agency, p)) != {id}
  {
    SkipIsSound(z, acts, meaning, agency, service, hash);
    DeletionBreaksSkip(After(z, acts), agency, id, service, hash, meaning(hash), ok, w);
  }
}
