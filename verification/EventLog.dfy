/** The fence and limit that ListEvents applies to a listing. */
module EventLog {
  import opened Text
  import opened Timestamps
  import opened EntityStore

  /** PublishedAt, or CreatedAt for rows without it. */
  function EventStamp(e: Entity): string {
    if Get(e, PublishedAt) == "" then Get(e, CreatedAt) else Get(e, PublishedAt)
  }

  predicate Survives(e: Entity, fence: string) {
    fence == "" || EventStamp(e) == "" || !Less(EventStamp(e), fence)
  }

  /** The events of a listing that survive the fence, in listing order. */
  function Kept(es: seq<Entity>, fence: string): seq<Entity> {
    if es == [] then []
    else Kept(es[..|es| - 1], fence) + if Survives(es[|es| - 1], fence) then [es[|es| - 1]] else []
  }

  lemma {:induction false} KeptPrefix(es: seq<Entity>, n: nat, fence: string)
    requires n <= |es|
    ensures Kept(es[..n], fence) <= Kept(es, fence)
  {
    if n == |es| {
      assert es[..n] == es;
    } else {
      KeptPrefix(es[..|es| - 1], n, fence);
      assert es[..|es| - 1][..n] == es[..n];
    }
  }

  /** The scan of ListEvents: skip what the fence drops, stop at the limit. */
  method Scan(es: seq<Entity>, fence: string, limit: int) returns (out: seq<Entity>)
    ensures out <= Kept(es, fence)
    ensures |out| == if 0 < limit < |Kept(es, fence)| then limit else |Kept(es, fence)|
  {
    out := [];
    for i := 0 to |es|
      invariant out == Kept(es[..i], fence)
      invariant limit > 0 ==> |out| < limit
    {
      var e := es[i];
      assert es[..i + 1][..i] == es[..i];
      if fence != "" {
        var ts := Get(e, PublishedAt);
        if ts == "" {
          ts := Get(e, CreatedAt);
        }
        if ts != "" && Less(ts, fence) {
          continue;
        }
      }
      out := out + [e];
      if limit > 0 && |out| >= limit {
        KeptPrefix(es, i + 1, fence);
        return;
      }
    }
    assert es[..|es|] == es;
  }

  /** Exactly the surviving events, each as often as the listing has it. */
  lemma {:induction false} KeptExactly(es: seq<Entity>, fence: string)
    ensures forall e :: e in Kept(es, fence) <==> e in es && Survives(e, fence)
    ensures |Kept(es, fence)| <= |es|
    ensures DistinctIds(es) ==> DistinctIds(Kept(es, fence))
  {
    if es != [] {
      KeptExactly(es[..|es| - 1], fence);
      assert es == es[..|es| - 1] + [es[|es| - 1]];
      if DistinctIds(es) {
        var k := Kept(es[..|es| - 1], fence);
        forall i | 0 <= i < |k| ensures k[i].id != es[|es| - 1].id {
          assert k[i] in es[..|es| - 1];
        }
      }
    }
  }

  /** Raising the fence keeps a subsequence: it only filters further. */
  lemma {:induction false} FenceMonotone(es: seq<Entity>, low: string, high: string)
    requires low == "" || (high != "" && !Less(high, low))
    ensures Kept(Kept(es, low), high) == Kept(es, high)
  {
    if es != [] {
      var init, e := es[..|es| - 1], es[|es| - 1];
      FenceMonotone(init, low, high);
      NotLessChain(low, high, EventStamp(e));
      LessTotal(EventStamp(e), low);
      LessTotal(EventStamp(e), high);
      if Survives(e, low) {
        assert Kept(es, low)[..|Kept(es, low)| - 1] == Kept(init, low);
      } else {
        NotLessChain(EventStamp(e), low, high);
        assert Kept(es, low) == Kept(init, low) && Kept(es, high) == Kept(init, high);
      }
    }
  }

  /** An event survives an empty fence, and without a stamp every fence. */
  lemma Unfenced(e: Entity, fence: string)
    requires fence == "" || (Get(e, PublishedAt) == "" && Get(e, CreatedAt) == "")
    ensures Survives(e, fence)
  {
  }

  /**
    On the whole-second UTC stamps the server writes, the fence is chronological: by the time
    of publication, and for an event without one by the time of its creation.
   */
  lemma FenceChronological(e: Entity, published: Clock, fence: Clock)
    requires ValidClock(published) && ValidClock(fence)
    requires Get(e, PublishedAt) == FormatSeconds(published) ||
             (Get(e, PublishedAt) == "" && Get(e, CreatedAt) == FormatSeconds(published))
    ensures Survives(e, FormatSeconds(fence)) <==> !SecondBefore(published, fence)
  {
    SecondStampsOrder(published, fence);
    assert FormatSeconds(published)[|FormatSeconds(published)| - 1] == 'Z';
    assert FormatSeconds(fence)[|FormatSeconds(fence)| - 1] == 'Z';
  }
}
