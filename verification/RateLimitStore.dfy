/** The attempt limiter as the process holds it, against RateLimit. */
module RateLimitStore {
  import opened Contracts
  import opened RateLimit
  import Names

  class Store {
    var counts: Counts
    var lastCleanup: real
    var cleanupInterval: real

    ghost function Contents(): State
      reads this
    {
      State(counts, lastCleanup)
    }

    constructor ()
      ensures Contents() == Run([], Limits(0, 0.0, 0.0)) && cleanupInterval == 60.0
    {
      counts, lastCleanup, cleanupInterval := map[], 0.0, 60.0;
    }

    method IsRateLimited(key: Name, maxAttempts: int, window: real, now: real) returns (answer: Answer)
      modifies this
      ensures cleanupInterval == old(cleanupInterval)
      ensures (Contents(), answer) == Check(old(Contents()), key, now, Limits(maxAttempts, window, cleanupInterval))
    {
      hide Recent, Cleaned;
      if now - lastCleanup >= cleanupInterval {
        var removed := Cleanup(window, now);
        lastCleanup := now;
      }
      var times := Keep(if key in counts then counts[key] else [], now - window);
      ghost var swept := counts;
      counts := counts[key := times];
      if |counts[key]| >= maxAttempts {
        if counts[key] == [] {
          return IndexFailure;
        }
        var retryAfter := counts[key][0] + window - now;
        return Refused(if retryAfter >= 0.0 then retryAfter else 0.0);
      }
      counts := counts[key := counts[key] + [now]];
      assert swept[key := times][key := times + [now]] == swept[key := times + [now]];
      return Admitted;
    }

    method Clear(key: Name)
      modifies this`counts
      ensures Contents() == Cleared(old(Contents()), key)
    {
      counts := counts - {key};
    }

    method Cleanup(window: real, now: real) returns (removed: int)
      modifies this`counts
      ensures counts == Cleaned(old(counts), now - window)
      ensures removed == |old(counts)| - |counts|
    {
      hide Recent, CleanedExcept, Cleaned;
      var start := now - window;
      var before := |counts|;
      var kept: Counts := map[];
      var rest := counts.Keys;
      CleanedNone(counts, start);
      while rest != {}
        invariant counts == old(counts) && rest <= counts.Keys
        invariant CleanedExcept(counts, rest, kept, start)
      {
        ghost var _ := Names.Member(rest);
        var k :| k in rest;
        var times := Keep(counts[k], start);
        CleanedNext(counts, rest, kept, start, k);
        if times != [] {
          kept := kept[k := times];
        }
        rest := rest - {k};
      }
      CleanedAll(counts, kept, start);
      counts := kept;
      return before - |counts|;
    }
  }

  /** `kept` is what cleaning leaves of the keys outside `rest`. */
  ghost predicate CleanedExcept<K(!new)>(counts: map<K, seq<real>>, rest: set<K>, kept: map<K, seq<real>>, start: real) {
    && (forall k :: k in kept <==> k in counts && k !in rest && Recent(counts[k], start) != [])
    && (forall k :: k in kept ==> kept[k] == Recent(counts[k], start))
  }

  lemma CleanedNone<K(!new)>(counts: map<K, seq<real>>, start: real)
    ensures CleanedExcept(counts, counts.Keys, map[], start)
  {
  }

  lemma CleanedNext<K(!new)>(counts: map<K, seq<real>>, rest: set<K>, kept: map<K, seq<real>>, start: real, k: K)
    requires CleanedExcept(counts, rest, kept, start) && k in rest && k in counts
    ensures var times := Recent(counts[k], start);
      CleanedExcept(counts, rest - {k}, if times != [] then kept[k := times] else kept, start)
  {
  }

  lemma CleanedAll<K(!new)>(counts: map<K, seq<real>>, kept: map<K, seq<real>>, start: real)
    requires CleanedExcept(counts, {}, kept, start)
    ensures kept == Cleaned(counts, start)
  {
  }

  method Keep(times: seq<real>, start: real) returns (kept: seq<real>)
    ensures kept == Recent(times, start)
  {
    kept := [];
    for i := 0 to |times|
      invariant kept == Recent(times[..i], start)
    {
      assert times[..i + 1][..i] == times[..i];
      if times[i] > start {
        kept := kept + [times[i]];
      }
    }
    assert times[..|times|] == times;
  }
}
