// scripts/rate_limit.py: the sliding-window limiter, against a count over its full history.

module RateLimiter {
  import opened Basics

  // How many of the timestamps lie in (after, upTo].
  function CountIn(times: seq<Micros>, after: Micros, upTo: Micros): nat {
    if times == [] then 0
    else CountIn(times[..|times| - 1], after, upTo) + if after < times[|times| - 1] <= upTo then 1 else 0
  }

  // The count is that of the positions whose timestamps lie in the window.
  lemma {:induction false} CountMeans(times: seq<Micros>, after: Micros, upTo: Micros)
    ensures CountIn(times, after, upTo) == |set i | 0 <= i < |times| && after < times[i] <= upTo|
  {
    var inside := set i | 0 <= i < |times| && after < times[i] <= upTo;
    if times != [] {
      var n := |times| - 1;
      CountMeans(times[..n], after, upTo);
      var earlier := set i | 0 <= i < |times[..n]| && after < times[..n][i] <= upTo;
      assert inside == earlier + if after < times[n] <= upTo then {n} else {};
    } else {
      assert inside == {};
    }
  }

  predicate Sorted(times: seq<Micros>) {
    forall i, j :: 0 <= i < j < |times| ==> times[i] <= times[j]
  }

  // Each timestamp was accepted while fewer than `limit` earlier ones lay in the window before it.
  predicate Admitted(times: seq<Micros>, limit: int, window: Micros) {
    times == [] ||
    var earlier, last := times[..|times| - 1], times[|times| - 1];
    Admitted(earlier, limit, window) && CountIn(earlier, last - window, last) < limit
  }

  lemma {:induction false} CountOfConcat(a: seq<Micros>, b: seq<Micros>, after: Micros, upTo: Micros)
    ensures CountIn(a + b, after, upTo) == CountIn(a, after, upTo) + CountIn(b, after, upTo)
  {
    if b == [] {
      assert a + b == a;
    } else {
      assert (a + b)[..|a + b| - 1] == a + b[..|b| - 1];
      CountOfConcat(a, b[..|b| - 1], after, upTo);
    }
  }

  lemma {:induction false} CountNone(times: seq<Micros>, after: Micros, upTo: Micros)
    requires forall i :: 0 <= i < |times| ==> times[i] <= after
    ensures CountIn(times, after, upTo) == 0
  {
    if times != [] {
      CountNone(times[..|times| - 1], after, upTo);
    }
  }

  lemma {:induction false} CountEvery(times: seq<Micros>, after: Micros, upTo: Micros)
    requires forall i :: 0 <= i < |times| ==> after < times[i] <= upTo
    ensures CountIn(times, after, upTo) == |times|
  {
    if times != [] {
      CountEvery(times[..|times| - 1], after, upTo);
    }
  }

  lemma {:induction false} CountWithin(times: seq<Micros>, after: Micros, upTo: Micros, after': Micros, upTo': Micros)
    requires forall i :: 0 <= i < |times| && after < times[i] <= upTo ==> after' < times[i] <= upTo'
    ensures CountIn(times, after, upTo) <= CountIn(times, after', upTo')
  {
    if times != [] {
      CountWithin(times[..|times| - 1], after, upTo, after', upTo');
    }
  }

  lemma {:induction false} CountSplits(times: seq<Micros>, a: Micros, b: Micros, c: Micros)
    requires a <= b <= c
    ensures CountIn(times, a, c) == CountIn(times, a, b) + CountIn(times, b, c)
  {
    if times != [] {
      CountSplits(times[..|times| - 1], a, b, c);
    }
  }

  // No window, wherever it ends, holds more than `limit` acceptances.
  lemma {:induction false} OneWindow(times: seq<Micros>, limit: int, window: Micros, t: Micros)
    requires Sorted(times) && Admitted(times, limit, window)
    ensures CountIn(times, t - window, t) <= Max(0, limit)
  {
    if times != [] {
      var earlier, last := times[..|times| - 1], times[|times| - 1];
      OneWindow(earlier, limit, window, t);
      if t - window < last <= t {
        CountWithin(earlier, t - window, t, last - window, last);
      }
    }
  }

  // k windows in a row hold at most k times the limit.
  lemma {:induction false} ManyWindows(times: seq<Micros>, limit: int, window: Micros, t: Micros, k: nat)
    requires Sorted(times) && Admitted(times, limit, window) && 0 <= window
    ensures CountIn(times, t - k * window, t) <= k * Max(0, limit)
    decreases k
  {
    if k == 0 {
      NothingFits(times, t);
    } else {
      ManyWindows(times, limit, window, t - window, k - 1);
      OneWindow(times, limit, window, t);
      assert t - window - (k - 1) * window == t - k * window;
      assert (k - 1) * Max(0, limit) + Max(0, limit) == k * Max(0, limit);
      assert (k - 1) * window >= 0;
      CountSplits(times, t - k * window, t - window, t);
    }
  }

  lemma {:induction false} NothingFits(times: seq<Micros>, t: Micros)
    ensures CountIn(times, t, t) == 0
  {
    if times != [] {
      NothingFits(times[..|times| - 1], t);
    }
  }

  lemma DroppingOld(history: seq<Micros>, cut: nat, after: Micros, upTo: Micros)
    requires cut <= |history|
    requires forall i :: 0 <= i < cut ==> history[i] <= after
    requires forall i :: cut <= i < |history| ==> after < history[i] <= upTo
    ensures CountIn(history, after, upTo) == |history| - cut
  {
    assert history == history[..cut] + history[cut..];
    CountOfConcat(history[..cut], history[cut..], after, upTo);
    CountNone(history[..cut], after, upTo);
    CountEvery(history[cut..], after, upTo);
  }

  function BucketIn(requests: map<Key, seq<Micros>>, key: Key): seq<Micros> {
    if key in requests then requests[key] else []
  }

  // The bucket is what is left of the history after dropping a prefix that lies outside the window.
  predicate Prunes(bucket: seq<Micros>, history: seq<Micros>, before: Micros) {
    && |bucket| <= |history|
    && history[|history| - |bucket|..] == bucket
    && forall i :: 0 <= i < |history| - |bucket| ==> history[i] <= before
  }

  // The bucket stands for the whole history as far as any window that ends at `clock` or later can tell.
  predicate Faithful(bucket: seq<Micros>, history: seq<Micros>, clock: Micros, limit: int, window: Micros) {
    && Sorted(history) && Admitted(history, limit, window)
    && (forall i :: 0 <= i < |history| ==> history[i] <= clock)
    && Prunes(bucket, history, clock - window)
  }

  lemma FaithfulLater(bucket: seq<Micros>, history: seq<Micros>, clock: Micros, later: Micros, limit: int,
          window: Micros)
    requires Faithful(bucket, history, clock, limit, window) && clock <= later
    ensures Faithful(bucket, history, later, limit, window)
  {
  }

  lemma AllLater(requests: map<Key, seq<Micros>>, accepted: map<Key, seq<Micros>>, clock: Micros, later: Micros,
          limit: int, window: Micros)
    requires clock <= later
    requires forall k :: Faithful(BucketIn(requests, k), BucketIn(accepted, k), clock, limit, window)
    ensures forall k :: Faithful(BucketIn(requests, k), BucketIn(accepted, k), later, limit, window)
  {
    forall k ensures Faithful(BucketIn(requests, k), BucketIn(accepted, k), later, limit, window) {
      FaithfulLater(BucketIn(requests, k), BucketIn(accepted, k), clock, later, limit, window);
    }
  }

  lemma AdmittedSnoc(history: seq<Micros>, now: Micros, limit: int, window: Micros)
    requires Admitted(history, limit, window) && CountIn(history, now - window, now) < limit
    ensures Admitted(history + [now], limit, window)
  {
    hide CountIn;
    var longer := history + [now];
    assert longer[..|longer| - 1] == history && longer[|longer| - 1] == now;
  }

  lemma PrunesSnoc(bucket: seq<Micros>, history: seq<Micros>, now: Micros, before: Micros)
    requires Prunes(bucket, history, before)
    ensures Prunes(bucket + [now], history + [now], before)
  {
    var n := |history| - |bucket|;
    assert |history + [now]| - |bucket + [now]| == n;
    assert (history + [now])[n..] == history[n..] + [now];
    assert forall i :: 0 <= i < n ==> (history + [now])[i] == history[i];
  }

  lemma Remembered(bucket: seq<Micros>, history: seq<Micros>, now: Micros, limit: int, window: Micros)
    requires Faithful(bucket, history, now, limit, window) && CountIn(history, now - window, now) < limit
    ensures Faithful(bucket + [now], history + [now], now, limit, window)
  {
    hide Admitted, CountIn, Prunes;
    AdmittedSnoc(history, now, limit, window);
    PrunesSnoc(bucket, history, now, now - window);
    assert forall i :: 0 <= i < |history| ==> (history + [now])[i] == history[i];
  }

  class InMemoryRateLimiter {
    const limit: int
    const window: Micros
    var requests: map<Key, seq<Micros>>

    ghost var accepted: map<Key, seq<Micros>>  // every timestamp ever accepted
    ghost var clock: Micros                    // the last reading of the clock

    // Every timestamp accepted for the key since the limiter was created.
    ghost function History(key: Key): seq<Micros>
      reads this
    {
      BucketIn(accepted, key)
    }

    ghost predicate Valid()
      reads this
    {
      forall key :: Faithful(BucketIn(requests, key), History(key), clock, limit, window)
    }

    constructor (limit: int, window: Micros, now: Micros)
      ensures Valid() && this.limit == limit && this.window == window && clock == now
      ensures forall key :: History(key) == []
    {
      this.limit, this.window := limit, window;
      requests, accepted, clock := map[], map[], now;
    }

    // A request is accepted exactly when fewer than `limit` accepted ones lie in the window that
    // ends now; acceptances are remembered, and other keys are not affected.
    method Allow(key: Key, now: Micros) returns (ok: bool)
      requires Valid() && clock <= now
      modifies this
      ensures Valid() && clock == now
      ensures ok <==> CountIn(old(History(key)), now - window, now) < limit
      ensures History(key) == old(History(key)) + if ok then [now] else []
      ensures forall k :: k != key ==> History(k) == old(History(k))
      ensures forall k :: k != key ==> BucketIn(requests, k) == old(BucketIn(requests, k))
    {
      hide Faithful, CountIn;
      ghost var history := History(key);
      AllLater(requests, accepted, clock, now, limit, window);
      var bucket := Pruned(BucketIn(requests, key), now, history);
      ok := |bucket| < limit;
      if ok {
        Remembered(bucket, history, now, limit, window);
        bucket := bucket + [now];
        accepted := accepted[key := history + [now]];
      }
      requests := requests[key := bucket];
      clock := now;
      assert BucketIn(requests, key) == bucket && History(key) == history + if ok then [now] else [];
      forall k ensures Faithful(BucketIn(requests, k), History(k), clock, limit, window) {
        assert k != key ==> BucketIn(requests, k) == old(BucketIn(requests, k));
        assert k != key ==> History(k) == old(BucketIn(accepted, k));
      }
    }

    // The loop that pops the timestamps that have left the window.
    method Pruned(entries: seq<Micros>, now: Micros, ghost history: seq<Micros>) returns (bucket: seq<Micros>)
      requires Faithful(entries, history, now, limit, window)
      ensures Faithful(bucket, history, now, limit, window)
      ensures |bucket| == CountIn(history, now - window, now)
    {
      var windowStart := now - window;
      bucket := entries;
      while bucket != [] && bucket[0] <= windowStart
        invariant Prunes(bucket, history, windowStart)
        decreases |bucket|
      {
        assert bucket[0] == history[|history| - |bucket|];
        bucket := bucket[1..];
      }
      forall i | |history| - |bucket| <= i < |history| ensures windowStart < history[i] {
        assert bucket[0] == history[|history| - |bucket|] <= history[i];
      }
      DroppingOld(history, |history| - |bucket|, windowStart, now);
    }
  }
}
