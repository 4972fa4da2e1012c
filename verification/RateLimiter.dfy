/** The token bucket of api/api.go.  Clock readings are parameters; floats are reals. */
module RateLimiter {

  datatype Bucket = Bucket(rate: real, capacity: real, tokens: real, last: real)

  predicate Sound(b: Bucket) {
    b.rate >= 0.0 && 0.0 <= b.tokens <= b.capacity
  }

  /** The tokens the clock adds. */
  function Earned(rate: real, from: real, to: real): real {
    (to - from) * rate
  }

  /** The tokens after refilling up to `now`, capped. */
  function Refilled(b: Bucket, now: real): real {
    var tokens := b.tokens + Earned(b.rate, b.last, now);
    if tokens > b.capacity then b.capacity else tokens
  }

  function Asked(b: Bucket, now: real): (Bucket, bool) {
    var tokens := Refilled(b, now);
    if tokens >= 1.0 then (b.(tokens := tokens - 1.0, last := now), true)
    else (b.(tokens := tokens, last := now), false)
  }

  class Limiter {
    const rate: real
    const capacity: real
    var tokens: real
    var lastRefilled: real

    ghost function State(): Bucket
      reads this
    {
      Bucket(rate, capacity, tokens, lastRefilled)
    }

    constructor (rate: real, capacity: real, now: real)
      ensures State() == Bucket(rate, capacity, capacity, now)
    {
      this.rate := rate;
      this.capacity := capacity;
      tokens := capacity;
      lastRefilled := now;
    }

    method Allow(now: real) returns (ok: bool)
      modifies this
      ensures (State(), ok) == Asked(old(State()), now)
    {
      var elapsed := now - lastRefilled;
      assert elapsed * rate == Earned(rate, lastRefilled, now);
      lastRefilled := now;
      tokens := tokens + elapsed * rate;
      if tokens > capacity {
        tokens := capacity;
      }
      if tokens >= 1.0 {
        tokens := tokens - 1.0;
        return true;
      }
      return false;
    }
  }

  // -------------------------------------------------------------- whole runs

  /** The bucket after requests at the given times. */
  function AfterAll(b: Bucket, times: seq<real>): Bucket {
    if times == [] then b else Asked(AfterAll(b, times[..|times| - 1]), times[|times| - 1]).0
  }

  /** How many of those requests were allowed. */
  function Allowed(b: Bucket, times: seq<real>): nat {
    if times == [] then 0
    else
      var n := |times| - 1;
      Allowed(b, times[..n]) + (if Asked(AfterAll(b, times[..n]), times[n]).1 then 1 else 0)
  }

  /** The clock never goes back, from `start` on. */
  predicate Forward(start: real, times: seq<real>) {
    forall k: nat {:trigger Tick(start, times, k)} :: k < |times| ==> Tick(start, times, k)
  }

  predicate Tick(start: real, times: seq<real>, k: nat)
    requires k < |times|
  {
    (if k == 0 then start else times[k - 1]) <= times[k]
  }

  lemma ForwardPieces(start: real, times: seq<real>, i: nat, j: nat)
    requires Forward(start, times) && i <= j <= |times|
    ensures Forward(start, times[..i])
    ensures Forward(if i == 0 then start else times[i - 1], times[i..j])
  {
    forall k: nat | k < i ensures Tick(start, times[..i], k) {
      assert Tick(start, times, k);
    }
    var from := if i == 0 then start else times[i - 1];
    forall k: nat | k < j - i ensures Tick(from, times[i..j], k) {
      assert Tick(start, times, i + k);
    }
  }

  lemma EarnedGrows(rate: real, a: real, b: real)
    requires rate >= 0.0 && a <= b
    ensures Earned(rate, a, b) >= 0.0
  {
  }

  lemma AskedIsSound(b: Bucket, now: real)
    requires Sound(b) && b.last <= now
    ensures Sound(Asked(b, now).0) && Asked(b, now).0.last == now
  {
    hide Earned;
    EarnedGrows(b.rate, b.last, now);
  }

  /** Tokens stay between zero and the capacity, in every run of a clock that never goes back. */
  lemma {:induction false} TokensStayInRange(b: Bucket, times: seq<real>)
    requires Sound(b) && Forward(b.last, times)
    ensures Sound(AfterAll(b, times)) && AfterAll(b, times).rate == b.rate && AfterAll(b, times).capacity == b.capacity
    ensures AfterAll(b, times).last == if times == [] then b.last else times[|times| - 1]
    decreases |times|
  {
    if times != [] {
      var n := |times| - 1;
      ForwardPieces(b.last, times, n, n);
      assert Tick(b.last, times, n);
      TokensStayInRange(b, times[..n]);
      AskedIsSound(AfterAll(b, times[..n]), times[n]);
    }
  }

  /** From the first request of a window on, what was allowed and what is left never exceeds the
      capacity plus what the clock added. */
  lemma {:induction false} Budget(b: Bucket, times: seq<real>)
    requires Sound(b) && Forward(b.last, times) && times != []
    ensures Allowed(b, times) as real + AfterAll(b, times).tokens
            <= b.capacity + Earned(b.rate, times[0], times[|times| - 1])
    decreases |times|
  {
    assert Tick(b.last, times, |times| - 1);
    hide Earned, Sound, Forward;
    SoundRate(b);
    var n := |times| - 1;
    var before := times[..n];
    ForwardPieces(b.last, times, n, n);
    TokensStayInRange(b, before);
    SoundRate(AfterAll(b, before));
    if n == 0 {
      assert before == [];
      Stretch(b.rate, times[0], times[0], times[0]);
      EarnedGrows(b.rate, b.last, times[0]);
    } else {
      Budget(b, before);
      var mid := AfterAll(b, before);
      assert mid.last == times[n - 1] && mid.rate == b.rate;
      Stretch(b.rate, times[0], times[n - 1], times[n]);
      EarnedGrows(b.rate, times[n - 1], times[n]);
    }
  }

  lemma SoundRate(b: Bucket)
    requires Sound(b)
    ensures b.rate >= 0.0 && 0.0 <= b.tokens <= b.capacity
  {
  }

  lemma Stretch(rate: real, a: real, b: real, c: real)
    ensures Earned(rate, a, b) + Earned(rate, b, c) == Earned(rate, a, c) && Earned(rate, a, a) == 0.0
  {
  }

  lemma {:induction false} SplitRun(b: Bucket, a: seq<real>, c: seq<real>)
    ensures AfterAll(b, a + c) == AfterAll(AfterAll(b, a), c)
    ensures Allowed(b, a + c) == Allowed(b, a) + Allowed(AfterAll(b, a), c)
    decreases |c|
  {
    if c == [] {
      assert a + c == a;
    } else {
      var c' := c[..|c| - 1];
      assert (a + c)[..|a + c| - 1] == a + c';
      SplitRun(b, a, c');
    }
  }

  /** Token-bucket bound.  In every run, the requests allowed in any window, not only from the start,
      are at most the capacity plus the rate times the length of the window. */
  lemma WindowBound(b: Bucket, times: seq<real>, i: nat, j: nat)
    requires Sound(b) && Forward(b.last, times) && i < j <= |times|
    ensures (Allowed(b, times[..j]) - Allowed(b, times[..i])) as real
            <= b.capacity + Earned(b.rate, times[i], times[j - 1])
  {
    hide Forward, AfterAll, Allowed, Earned, Sound;
    var before, window := times[..i], times[i..j];
    ForwardPieces(b.last, times, i, j);
    TokensStayInRange(b, before);
    var mid := AfterAll(b, before);
    assert times[..j] == before + window;
    SplitRun(b, before, window);
    Budget(mid, window);
    TokensStayInRange(mid, window);
    assert window[0] == times[i] && window[|window| - 1] == times[j - 1];
  }

  // --------------------------------------------------------- no refusal too many

  /** The tokens at hand when the last request comes, before it is decided. */
  function Level(b: Bucket, times: seq<real>): real
    requires times != []
  {
    Refilled(AfterAll(b, times[..|times| - 1]), times[|times| - 1])
  }

  lemma LevelNext(b: Bucket, times: seq<real>)
    requires |times| >= 2
    ensures var n := |times| - 1;
      var level := Level(b, times[..n]);
      && AfterAll(b, times[..n]).tokens == (if level >= 1.0 then level - 1.0 else level)
      && AfterAll(b, times[..n]).last == times[n - 1]
      && Allowed(b, times[..n]) == Allowed(b, times[..n - 1]) + (if level >= 1.0 then 1 else 0)
  {
    var n := |times| - 1;
    assert times[..n][..n - 1] == times[..n - 1];
  }

  /** A bucket that starts full is, at any request, short of full by exactly what it allowed, less what
      the clock added, since some request that found it full. */
  lemma {:induction false} LevelSinceFull(b: Bucket, times: seq<real>) returns (i: nat)
    requires Sound(b) && b.tokens == b.capacity && Forward(b.last, times) && times != []
    ensures i < |times|
    ensures Level(b, times)
      == b.capacity + Earned(b.rate, times[i], times[|times| - 1]) - (Allowed(b, times[..|times| - 1]) - Allowed(b, times[..i])) as real
    decreases |times|
  {
    assert Tick(b.last, times, |times| - 1);
    var n := |times| - 1;
    ForwardPieces(b.last, times, n, n);
    TokensStayInRange(b, times[..n]);
    if n == 0 {
      i := 0;
      assert times[..0] == [];
      EarnedGrows(b.rate, b.last, times[0]);
      Stretch(b.rate, times[0], times[0], times[0]);
    } else {
      var j := LevelSinceFull(b, times[..n]);
      LevelNext(b, times);
      assert times[..n][..j] == times[..j] && times[..n][..n - 1] == times[..n - 1];
      hide Earned, AfterAll, Allowed, Sound, Forward;
      Stretch(b.rate, times[j], times[n - 1], times[n]);
      Stretch(b.rate, times[n], times[n], times[n]);
      var mid := AfterAll(b, times[..n]);
      if mid.tokens + Earned(b.rate, times[n - 1], times[n]) > b.capacity {
        i := n;
      } else {
        i := j;
      }
    }
  }

  lemma RefusedBelowOne(b: Bucket, times: seq<real>)
    requires times != []
    ensures Asked(AfterAll(b, times[..|times| - 1]), times[|times| - 1]).1 <==> Level(b, times) >= 1.0
  {
    hide AfterAll, Refilled;
  }

  /** No request is refused unless the bucket was really spent: a refusal means that in some window up to
      it more was allowed than the capacity less one plus what the clock added. */
  lemma RefusedOnlyWhenSpent(b: Bucket, times: seq<real>) returns (i: nat)
    requires Sound(b) && b.tokens == b.capacity && Forward(b.last, times) && times != []
    requires !Asked(AfterAll(b, times[..|times| - 1]), times[|times| - 1]).1
    ensures i < |times|
    ensures (Allowed(b, times[..|times| - 1]) - Allowed(b, times[..i])) as real
      > b.capacity - 1.0 + Earned(b.rate, times[i], times[|times| - 1])
  {
    hide Earned, AfterAll, Allowed, Level, Asked;
    i := LevelSinceFull(b, times);
    RefusedBelowOne(b, times);
  }
}
