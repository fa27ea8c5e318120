/**
 * What the token-bucket engine guarantees, stated about the snapshot
 * functions of module Bucket (and hence, through their methods' contracts,
 * about `GetToken`, `RefillToken` and `InitializeTokenBucket`).
 */
module BucketProperties {
  import opened Wrappers
  import opened Codec
  import opened Keys
  import opened SharedData
  import opened Limits
  import opened Bucket

  /**
   * Bucket key `k` holds at most `maxTokens`, and so does every value a
   * competing worker is still to write.
   */
  predicate Bounded(s: Shared, k: string, maxTokens: U64)
    requires Uniform(s, 8)
  {
    && (k in s.data ==> Stored(s, k) <= maxTokens)
    && (forall i :: 0 <= i < |s.pending| ==> s.pending[i].Foreign? ==> Uint64(s.pending[i].value) <= maxTokens)
  }

  /** Our only write was to `k` and took exactly one token from a positive count. */
  predicate TakesOneToken(m: Mutation, k: string) {
    && m.key == k
    && m.replaced.Some? && |m.replaced.value| == 8
    && Uint64(m.replaced.value) > 0
    && m.value == PutUint64(Uint64(m.replaced.value) - 1)
  }

  /** Our only write was to `k` and added one refill to the count it replaced. */
  predicate AddsOneRefill(m: Mutation, k: string, item: LimitItem) {
    && m.key == k
    && m.replaced.Some? && |m.replaced.value| == 8
    && m.value == PutUint64(Replenish(Uint64(m.replaced.value), item.tokensPerRefill, item.maxTokens))
  }

  /** `t`'s log is `s`'s log plus exactly one write, `m`, and `m`'s value is what `k` now holds. */
  predicate OneMoreWrite(s: Shared, t: Shared, k: string) {
    && |t.mine| == |s.mine| + 1
    && t.mine[..|s.mine|] == s.mine
    && k in t.data
    && t.data[k].value == t.mine[|s.mine|].value
  }

  /** No key other than `k` was added, removed or changed. */
  predicate OnlyTouches(s: Shared, t: Shared, k: string) {
    && t.data.Keys == s.data.Keys + (if k in t.data then {k} else {})
    && (forall j :: j != k && j in s.data ==> t.data[j] == s.data[j])
  }

  /** The first `n` writes to come from competing workers all land a positive count. */
  predicate Contended(s: Shared, n: nat)
    requires Uniform(s, 8)
  {
    n <= |s.pending| && forall i :: 0 <= i < n ==> s.pending[i].Foreign? && Uint64(s.pending[i].value) > 0
  }

  /** The next write to come meets no competing write. */
  predicate Uncontended(s: Shared) {
    s.pending == [] || s.pending[0].Quiet?
  }

  // ---------------------------------------------------------------------------
  // getToken

  /** A write keeps a bucket's bound when what it writes to that bucket is within the bound. */
  lemma WriteKeepsBound(s: Shared, b: string, k: string, v: seq<Byte>, cas: nat, maxTokens: U64)
    requires WellFormed(s) && |v| == 8 && Bounded(s, b, maxTokens)
    requires b == k ==> Uint64(v) <= maxTokens
    ensures WellFormed(Write(s, k, v, cas).after)
    ensures Bounded(Write(s, k, v, cas).after, b, maxTokens)
  {
    WriteEffect(s, k, v, cas);
  }

  /**
   * One attempt touches no key but `k`; it settles on a refusal only when it
   * read zero, and then writes nothing; when it goes round again it has
   * written nothing either.
   */
  lemma TryTokenEffect(s: Shared, k: string)
    requires WellFormed(s)
    ensures var r := TryToken(s, k);
      && OnlyTouches(s, r.after, k)
      && (r.Retry? ==> r.after.mine == s.mine)
      && (r.Settled? && !r.granted ==> r.after == s && k in s.data && Stored(s, k) == 0)
  {
    if k in s.data {
      var e := s.data[k];
      var tokenLeft := Uint64(e.value);
      if tokenLeft != 0 {
        WriteEffect(s, k, PutUint64(tokenLeft - 1), e.cas);
      }
    }
  }

  /** An attempt that grants the request wrote once, taking one token from the positive count it read. */
  lemma TryTokenTakesOneToken(s: Shared, k: string)
    requires WellFormed(s)
    ensures var r := TryToken(s, k);
      r.Settled? && r.granted ==> OneMoreWrite(s, r.after, k) && TakesOneToken(r.after.mine[|s.mine|], k)
  {
    if k in s.data {
      var e := s.data[k];
      var tokenLeft := Uint64(e.value);
      if tokenLeft != 0 && Uncontended(s) {
        UncontendedWrite(s, k, PutUint64(tokenLeft - 1));
      }
    }
  }

  /**
   * A request is refused only after the bucket was read and found empty, and
   * a refused request writes nothing.
   */
  lemma {:induction false} AcquireDeniesOnlyOnZero(s: Shared, k: string, attempt: nat)
    requires WellFormed(s)
    ensures var r := Acquire(s, k, attempt);
      !r.granted ==> k in r.after.data && Stored(r.after, k) == 0 && r.after.mine == s.mine
    decreases MaxGetTokenRetry - attempt
  {
    if attempt < MaxGetTokenRetry {
      TryTokenEffect(s, k);
      if TryToken(s, k).Retry? {
        AcquireDeniesOnlyOnZero(TryToken(s, k).after, k, attempt + 1);
      }
    }
  }

  /**
   * `getToken` writes at most once, and only to take one token from the
   * positive count it read; when it writes, the request is granted.
   */
  lemma {:induction false} AcquireTakesAtMostOneToken(s: Shared, k: string, attempt: nat)
    requires WellFormed(s)
    ensures var r := Acquire(s, k, attempt);
      || r.after.mine == s.mine
      || (r.granted && OneMoreWrite(s, r.after, k) && TakesOneToken(r.after.mine[|s.mine|], k))
    decreases MaxGetTokenRetry - attempt
  {
    if attempt < MaxGetTokenRetry {
      TryTokenEffect(s, k);
      TryTokenTakesOneToken(s, k);
      if TryToken(s, k).Retry? {
        AcquireTakesAtMostOneToken(TryToken(s, k).after, k, attempt + 1);
      }
    }
  }

  /** At most `MaxGetTokenRetry` attempts are made. */
  lemma {:induction false} AcquireAttempts(s: Shared, k: string, attempt: nat)
    requires WellFormed(s) && attempt <= MaxGetTokenRetry
    ensures attempt <= Acquire(s, k, attempt).attempts <= MaxGetTokenRetry
    decreases MaxGetTokenRetry - attempt
  {
    if attempt < MaxGetTokenRetry {
      match TryToken(s, k)
      case Retry(t) =>
        AcquireAttempts(t, k, attempt + 1);
        assert Acquire(s, k, attempt) == Acquire(t, k, attempt + 1);
      case Settled(granted, t) =>
    }
  }

  /** Each attempt gives at most one competing write its chance. */
  lemma {:induction false} AcquireMeetsFewCompetitors(s: Shared, k: string, attempt: nat)
    requires WellFormed(s)
    ensures var r := Acquire(s, k, attempt);
      |r.after.pending| >= |s.pending| - (r.attempts - attempt)
    decreases MaxGetTokenRetry - attempt
  {
    if attempt < MaxGetTokenRetry {
      match TryToken(s, k)
      case Retry(t) =>
        AcquireMeetsFewCompetitors(t, k, attempt + 1);
        assert Acquire(s, k, attempt) == Acquire(t, k, attempt + 1);
      case Settled(granted, t) =>
    }
  }

  /** A bucket that was never created lets every request through, after all attempts, writing nothing. */
  lemma {:induction false} AcquireFailsOpenWhenMissing(s: Shared, k: string, attempt: nat)
    requires WellFormed(s) && k !in s.data && attempt <= MaxGetTokenRetry
    ensures Acquire(s, k, attempt) == Acquired(true, MaxGetTokenRetry, s)
    decreases MaxGetTokenRetry - attempt
  {
    if attempt < MaxGetTokenRetry {
      AcquireFailsOpenWhenMissing(s, k, attempt + 1);
    }
  }

  /**
   * When every remaining attempt loses its compare-and-swap to a competing
   * worker, the request is let through without taking a token.
   */
  lemma {:induction false} AcquireFailsOpenUnderContention(s: Shared, k: string, attempt: nat)
    requires WellFormed(s) && attempt <= MaxGetTokenRetry
    requires k in s.data && Stored(s, k) > 0
    requires Contended(s, MaxGetTokenRetry - attempt)
    ensures var r := Acquire(s, k, attempt);
      r.granted && r.attempts == MaxGetTokenRetry && r.after.mine == s.mine
    decreases MaxGetTokenRetry - attempt
  {
    if attempt < MaxGetTokenRetry {
      var t := Land(s, k);
      assert Acquire(s, k, attempt) == Acquire(t, k, attempt + 1) by {
        assert s.pending[0].Foreign?;
        TryTokenLosesRace(s, k);
      }
      assert t.mine == s.mine;
      ContendedAfterLanding(s, k, MaxGetTokenRetry - attempt);
      AcquireFailsOpenUnderContention(t, k, attempt + 1);
    }
  }

  /** An attempt that reads a positive count loses its write to a competing worker that writes first. */
  lemma TryTokenLosesRace(s: Shared, k: string)
    requires WellFormed(s) && k in s.data && Stored(s, k) > 0
    requires s.pending != [] && s.pending[0].Foreign?
    ensures TryToken(s, k) == Retry(Land(s, k))
  {
    var e := s.data[k];
    assert !Write(s, k, PutUint64(Uint64(e.value) - 1), e.cas).ok;
  }

  /** After one competing write lands on `k`, `k` holds a positive count and one fewer contended write is left. */
  lemma ContendedAfterLanding(s: Shared, k: string, n: nat)
    requires WellFormed(s) && n >= 1 && Contended(s, n)
    ensures var t := Land(s, k);
      WellFormed(t) && k in t.data && Stored(t, k) > 0 && Contended(t, n - 1)
  {
    var t := Land(s, k);
    assert forall i :: 0 <= i < |t.pending| ==> t.pending[i] == s.pending[i + 1];
  }

  /** Without competition a request is granted exactly when a token is left, and takes that token. */
  lemma AcquireUncontended(s: Shared, k: string)
    requires WellFormed(s) && k in s.data && Uncontended(s)
    ensures var r := Acquire(s, k, 0);
      && r.granted == (Stored(s, k) > 0)
      && r.attempts == 1
      && k in r.after.data
      && Stored(r.after, k) == if Stored(s, k) > 0 then Stored(s, k) - 1 else 0
  {
    var c := Stored(s, k);
    if c > 0 {
      Uint64RoundTrip(c - 1);
    }
  }

  /** One attempt never raises a bucket above a bound that holds for it and its competitors. */
  lemma TryTokenKeepsBound(s: Shared, k: string, maxTokens: U64)
    requires WellFormed(s) && Bounded(s, k, maxTokens)
    ensures Bounded(TryToken(s, k).after, k, maxTokens)
  {
    if k in s.data {
      var e := s.data[k];
      var tokenLeft := Uint64(e.value);
      if tokenLeft != 0 {
        Uint64RoundTrip(tokenLeft - 1);
        WriteKeepsBound(s, k, k, PutUint64(tokenLeft - 1), e.cas, maxTokens);
      }
    }
  }

  /** No request ever raises a bucket above a bound that holds for it and its competitors. */
  lemma {:induction false} AcquireKeepsBound(s: Shared, k: string, attempt: nat, maxTokens: U64)
    requires WellFormed(s) && Bounded(s, k, maxTokens)
    ensures Bounded(Acquire(s, k, attempt).after, k, maxTokens)
    decreases MaxGetTokenRetry - attempt
  {
    if attempt < MaxGetTokenRetry {
      TryTokenKeepsBound(s, k, maxTokens);
      if TryToken(s, k).Retry? {
        AcquireKeepsBound(TryToken(s, k).after, k, attempt + 1, maxTokens);
      }
    }
  }

  /** A request touches no key but its own bucket. */
  lemma {:induction false} AcquireOnlyTouchesBucket(s: Shared, k: string, attempt: nat)
    requires WellFormed(s)
    ensures OnlyTouches(s, Acquire(s, k, attempt).after, k)
    decreases MaxGetTokenRetry - attempt
  {
    if attempt < MaxGetTokenRetry {
      TryTokenEffect(s, k);
      if TryToken(s, k).Retry? {
        AcquireOnlyTouchesBucket(TryToken(s, k).after, k, attempt + 1);
      }
    }
  }

  // ---------------------------------------------------------------------------
  // refillToken

  /**
   * Once a refill is claimed, the retry loop adds it exactly once to a bucket
   * that exists, capped at `maxTokens`, and touches nothing else.
   */
  lemma {:induction false} RefillBucketAppliesOnce(s: Shared, k: string, item: LimitItem)
    requires WellFormed(s)
    ensures var r := RefillBucket(s, k, item);
      && OnlyTouches(s, r, k)
      && (k !in s.data ==> r == s)
      && (k in s.data ==> OneMoreWrite(s, r, k) && AddsOneRefill(r.mine[|s.mine|], k, item))
    decreases |s.pending|
  {
    if k in s.data {
      var e := s.data[k];
      var v := PutUint64(Replenish(Uint64(e.value), item.tokensPerRefill, item.maxTokens));
      var w := Write(s, k, v, e.cas);
      WriteEffect(s, k, v, e.cas);
      if w.ok {
        assert Land(s, k).data == s.data;
      } else {
        RefillBucketAppliesOnce(w.after, k, item);
      }
    }
  }

  /** The retry loop never raises the bucket above `maxTokens` when no competitor does. */
  lemma {:induction false} RefillBucketKeepsBound(s: Shared, k: string, item: LimitItem)
    requires WellFormed(s) && Bounded(s, k, item.maxTokens)
    ensures Bounded(RefillBucket(s, k, item), k, item.maxTokens)
    decreases |s.pending|
  {
    if k in s.data {
      var e := s.data[k];
      var n := Replenish(Uint64(e.value), item.tokensPerRefill, item.maxTokens);
      Uint64RoundTrip(n);
      var w := Write(s, k, PutUint64(n), e.cas);
      WriteKeepsBound(s, k, k, PutUint64(n), e.cas, item.maxTokens);
      if !w.ok {
        RefillBucketKeepsBound(w.after, k, item);
      }
    }
  }

  /**
   * A refill pass leaves the store exactly as it was if and only if the
   * refill gate is missing or the interval has not yet elapsed since the
   * time it holds.
   */
  lemma RefillSkipsExactlyWhenNotDue(s: Shared, ruleId: int, item: LimitItem, now: U64)
    requires WellFormed(s)
    ensures var gate := LastRefilledKey(ruleId, item.key);
      (gate !in s.data || Sub64(now, Stored(s, gate)) < item.refillIntervalNanosec)
        <==> RefillItem(s, ruleId, item, now) == s
  {
    var gate := LastRefilledKey(ruleId, item.key);
    if gate in s.data && Sub64(now, Stored(s, gate)) >= item.refillIntervalNanosec {
      var claim := Write(s, gate, PutUint64(now), s.data[gate].cas);
      assert claim.after.next > s.next;
      if claim.ok {
        RefillBucketAdvances(claim.after, TokenBucketKey(ruleId, item.key), item);
      }
    }
  }

  /** The version counter never goes back. */
  lemma {:induction false} RefillBucketAdvances(s: Shared, k: string, item: LimitItem)
    requires WellFormed(s)
    ensures RefillBucket(s, k, item).next >= s.next
    decreases |s.pending|
  {
    if k in s.data {
      var e := s.data[k];
      var w := Write(s, k, PutUint64(Replenish(Uint64(e.value), item.tokensPerRefill, item.maxTokens)), e.cas);
      if !w.ok {
        RefillBucketAdvances(w.after, k, item);
      }
    }
  }

  /**
   * A due refill whose claim on the gate loses to a competing worker leaves
   * the refill to that worker: we write nothing and the bucket is untouched.
   */
  lemma RefillLostClaim(s: Shared, ruleId: int, item: LimitItem, now: U64)
    requires WellFormed(s)
    requires LastRefilledKey(ruleId, item.key) in s.data
    requires Sub64(now, Stored(s, LastRefilledKey(ruleId, item.key))) >= item.refillIntervalNanosec
    requires !Uncontended(s)
    ensures var r := RefillItem(s, ruleId, item, now);
      var bucket := TokenBucketKey(ruleId, item.key);
      && r.mine == s.mine
      && (bucket in r.data <==> bucket in s.data)
      && (bucket in s.data ==> r.data[bucket] == s.data[bucket])
  {
    TokenBucketKeyIsNeverLastRefilledKey(ruleId, item.key, ruleId, item.key);
  }

  /** A due refill whose claim succeeds moves the gate to `now`, and that claim is our first write. */
  lemma RefillAfterClaim(s: Shared, ruleId: int, item: LimitItem, now: U64)
    requires WellFormed(s)
    requires LastRefilledKey(ruleId, item.key) in s.data
    requires Sub64(now, Stored(s, LastRefilledKey(ruleId, item.key))) >= item.refillIntervalNanosec
    requires Uncontended(s)
    ensures var r := RefillItem(s, ruleId, item, now);
      var gate := LastRefilledKey(ruleId, item.key);
      && gate in r.data && Stored(r, gate) == now
      && |r.mine| > |s.mine|
      && r.mine[|s.mine|] == Mutation(gate, Some(s.data[gate].value), PutUint64(now))
  {
    var gate := LastRefilledKey(ruleId, item.key);
    var bucket := TokenBucketKey(ruleId, item.key);
    UncontendedWrite(s, gate, PutUint64(now));
    var claim := Write(s, gate, PutUint64(now), s.data[gate].cas);
    RefillItemDue(s, ruleId, item, now);
    var r := RefillBucket(claim.after, bucket, item);
    assert gate in r.data && r.data[gate] == claim.after.data[gate] by {
      TokenBucketKeyIsNeverLastRefilledKey(ruleId, item.key, ruleId, item.key);
      RefillBucketAppliesOnce(claim.after, bucket, item);
    }
    RefillBucketKeepsLog(claim.after, bucket, item);
    assert r.mine[|s.mine|] == claim.after.mine[|s.mine|];
    Uint64RoundTrip(now);
  }

  /** The retry loop only appends to our log of writes. */
  lemma {:induction false} RefillBucketKeepsLog(s: Shared, k: string, item: LimitItem)
    requires WellFormed(s)
    ensures var r := RefillBucket(s, k, item);
      |r.mine| >= |s.mine| && r.mine[..|s.mine|] == s.mine
    decreases |s.pending|
  {
    if k in s.data {
      var e := s.data[k];
      var v := PutUint64(Replenish(Uint64(e.value), item.tokensPerRefill, item.maxTokens));
      var w := Write(s, k, v, e.cas);
      WriteEffect(s, k, v, e.cas);
      if !w.ok {
        RefillBucketKeepsLog(w.after, k, item);
      }
    }
  }

  /**
   * After a successful claim, a due refill pass writes the bucket exactly
   * once, adding one refill, if the bucket exists, and writes nothing more
   * if it does not.
   */
  lemma RefillAfterClaimFillsBucket(s: Shared, ruleId: int, item: LimitItem, now: U64)
    requires WellFormed(s)
    requires LastRefilledKey(ruleId, item.key) in s.data
    requires Sub64(now, Stored(s, LastRefilledKey(ruleId, item.key))) >= item.refillIntervalNanosec
    requires Uncontended(s)
    ensures var r := RefillItem(s, ruleId, item, now);
      var bucket := TokenBucketKey(ruleId, item.key);
      && (bucket !in s.data ==> |r.mine| == |s.mine| + 1)
      && (bucket in s.data ==> |r.mine| == |s.mine| + 2 && bucket in r.data
                               && r.data[bucket].value == r.mine[|s.mine| + 1].value
                               && AddsOneRefill(r.mine[|s.mine| + 1], bucket, item))
  {
    var gate := LastRefilledKey(ruleId, item.key);
    var bucket := TokenBucketKey(ruleId, item.key);
    TokenBucketKeyIsNeverLastRefilledKey(ruleId, item.key, ruleId, item.key);
    UncontendedWrite(s, gate, PutUint64(now));
    var claim := Write(s, gate, PutUint64(now), s.data[gate].cas);
    RefillItemDue(s, ruleId, item, now);
    RefillBucketAppliesOnce(claim.after, bucket, item);
  }

  /** A due refill pass claims the gate and, if the claim succeeds, refills the bucket. */
  lemma RefillItemDue(s: Shared, ruleId: int, item: LimitItem, now: U64)
    requires WellFormed(s)
    requires LastRefilledKey(ruleId, item.key) in s.data
    requires Sub64(now, Stored(s, LastRefilledKey(ruleId, item.key))) >= item.refillIntervalNanosec
    ensures var gate := LastRefilledKey(ruleId, item.key);
      var claim := Write(s, gate, PutUint64(now), s.data[gate].cas);
      RefillItem(s, ruleId, item, now)
        == if claim.ok then RefillBucket(claim.after, TokenBucketKey(ruleId, item.key), item) else claim.after
  {
  }

  /** Without a competing write, a write under the version just read succeeds and is logged as ours. */
  lemma UncontendedWrite(s: Shared, k: string, v: seq<Byte>)
    requires WellFormed(s) && k in s.data && Uncontended(s)
    ensures var w := Write(s, k, v, s.data[k].cas);
      && w.ok
      && w.after.data == s.data[k := w.after.data[k]]
      && w.after.data[k].value == v
      && w.after.mine == s.mine + [Mutation(k, Some(s.data[k].value), v)]
  {
    assert Land(s, k).data == s.data;
  }

  /**
   * A bucket is refilled at most once per interval: right after a refill at
   * `now`, a pass at any time less than one interval later does nothing.
   */
  lemma RefillOncePerInterval(s: Shared, ruleId: int, item: LimitItem, now: U64, later: U64)
    requires WellFormed(s)
    requires LastRefilledKey(ruleId, item.key) in s.data
    requires Sub64(now, Stored(s, LastRefilledKey(ruleId, item.key))) >= item.refillIntervalNanosec
    requires Uncontended(s)
    requires Sub64(later, now) < item.refillIntervalNanosec
    ensures var r := RefillItem(s, ruleId, item, now);
      RefillItem(r, ruleId, item, later) == r
  {
    RefillAfterClaim(s, ruleId, item, now);
  }

  /**
   * A refill pass never raises the bucket above `maxTokens` when no competitor
   * does. The next competing write lands on the refill gate, where another
   * worker's claim writes a time, so only the writes after it are bounded.
   */
  lemma RefillItemKeepsBound(s: Shared, ruleId: int, item: LimitItem, now: U64)
    requires WellFormed(s)
    requires TokenBucketKey(ruleId, item.key) in s.data ==> Stored(s, TokenBucketKey(ruleId, item.key)) <= item.maxTokens
    requires forall i :: 1 <= i < |s.pending| ==> s.pending[i].Foreign? ==> Uint64(s.pending[i].value) <= item.maxTokens
    ensures var r := RefillItem(s, ruleId, item, now);
      TokenBucketKey(ruleId, item.key) in r.data ==> Stored(r, TokenBucketKey(ruleId, item.key)) <= item.maxTokens
  {
    var gate := LastRefilledKey(ruleId, item.key);
    var bucket := TokenBucketKey(ruleId, item.key);
    if gate in s.data && Sub64(now, Stored(s, gate)) >= item.refillIntervalNanosec {
      TokenBucketKeyIsNeverLastRefilledKey(ruleId, item.key, ruleId, item.key);
      var claim := Write(s, gate, PutUint64(now), s.data[gate].cas);
      WriteEffect(s, gate, PutUint64(now), s.data[gate].cas);
      assert Bounded(claim.after, bucket, item.maxTokens) by {
        forall i | 0 <= i < |claim.after.pending| && claim.after.pending[i].Foreign?
          ensures Uint64(claim.after.pending[i].value) <= item.maxTokens
        {
          assert claim.after.pending[i] == s.pending[i + 1];
        }
      }
      if claim.ok {
        RefillBucketKeepsBound(claim.after, bucket, item);
      }
    }
  }

  /**
   * The refill gate never goes back when the clock does not: if `now` is no
   * earlier than the time the gate holds, and a competing claim that lands
   * first writes no earlier time either, the pass leaves the gate at a time
   * no earlier than before.
   */
  lemma RefillItemKeepsGateMonotone(s: Shared, ruleId: int, item: LimitItem, now: U64)
    requires WellFormed(s)
    requires LastRefilledKey(ruleId, item.key) in s.data
    requires now >= Stored(s, LastRefilledKey(ruleId, item.key))
    requires s.pending != [] && s.pending[0].Foreign? ==>
      Uint64(s.pending[0].value) >= Stored(s, LastRefilledKey(ruleId, item.key))
    ensures var r := RefillItem(s, ruleId, item, now);
      var gate := LastRefilledKey(ruleId, item.key);
      gate in r.data && Stored(r, gate) >= Stored(s, gate)
  {
    var gate := LastRefilledKey(ruleId, item.key);
    var bucket := TokenBucketKey(ruleId, item.key);
    if Sub64(now, Stored(s, gate)) >= item.refillIntervalNanosec {
      TokenBucketKeyIsNeverLastRefilledKey(ruleId, item.key, ruleId, item.key);
      var claim := Write(s, gate, PutUint64(now), s.data[gate].cas);
      WriteEffect(s, gate, PutUint64(now), s.data[gate].cas);
      if claim.ok {
        assert Land(s, gate).data == s.data;
        Uint64RoundTrip(now);
        RefillBucketAppliesOnce(claim.after, bucket, item);
      }
    }
  }

  /** A refill pass changes no key but the item's refill gate and bucket. */
  lemma RefillItemOnlyTouchesItsKeys(s: Shared, ruleId: int, item: LimitItem, now: U64)
    requires WellFormed(s)
    ensures var r := RefillItem(s, ruleId, item, now);
      forall j :: j in s.data && j != LastRefilledKey(ruleId, item.key) && j != TokenBucketKey(ruleId, item.key)
        ==> r.data[j] == s.data[j]
  {
    var gate := LastRefilledKey(ruleId, item.key);
    var bucket := TokenBucketKey(ruleId, item.key);
    if gate in s.data && Sub64(now, Stored(s, gate)) >= item.refillIntervalNanosec {
      var claim := Write(s, gate, PutUint64(now), s.data[gate].cas);
      WriteEffect(s, gate, PutUint64(now), s.data[gate].cas);
      if claim.ok {
        RefillBucketAppliesOnce(claim.after, bucket, item);
      }
    }
  }

  /**
   * A refill pass for one rate-limit key leaves the refill gate and the
   * bucket of every other (rule id, key) pair as they were.
   */
  lemma RefillItemLeavesOtherItems(s: Shared, ruleId: int, item: LimitItem, now: U64, otherId: int, otherKey: string)
    requires WellFormed(s) && (otherId, otherKey) != (ruleId, item.key)
    ensures var r := RefillItem(s, ruleId, item, now);
      && (TokenBucketKey(otherId, otherKey) in s.data ==> r.data[TokenBucketKey(otherId, otherKey)] == s.data[TokenBucketKey(otherId, otherKey)])
      && (LastRefilledKey(otherId, otherKey) in s.data ==> r.data[LastRefilledKey(otherId, otherKey)] == s.data[LastRefilledKey(otherId, otherKey)])
  {
    RefillItemOnlyTouchesItsKeys(s, ruleId, item, now);
    TokenBucketKeyInjective(otherId, otherKey, ruleId, item.key);
    LastRefilledKeyInjective(otherId, otherKey, ruleId, item.key);
    TokenBucketKeyIsNeverLastRefilledKey(otherId, otherKey, ruleId, item.key);
    TokenBucketKeyIsNeverLastRefilledKey(ruleId, item.key, otherId, otherKey);
  }

  /** The refill gates and buckets of a rule's items. */
  function ItemKeys(ruleId: int, items: seq<LimitItem>): (keys: set<string>)
    ensures forall i :: 0 <= i < |items| ==>
      LastRefilledKey(ruleId, items[i].key) in keys && TokenBucketKey(ruleId, items[i].key) in keys
    decreases |items|
  {
    if items == [] then {}
    else {LastRefilledKey(ruleId, items[0].key), TokenBucketKey(ruleId, items[0].key)} + ItemKeys(ruleId, items[1..])
  }

  /** The passes over one rule's items change no key but those items' gates and buckets. */
  lemma {:induction false} RefillItemsOnlyTouchesItsKeys(s: Shared, ruleId: int, items: seq<LimitItem>, now: U64)
    requires WellFormed(s)
    ensures var r := RefillItems(s, ruleId, items, now);
      forall j :: j in s.data && j !in ItemKeys(ruleId, items) ==> r.data[j] == s.data[j]
    decreases |items|
  {
    if items != [] {
      var t := RefillItem(s, ruleId, items[0], now);
      RefillItemOnlyTouchesItsKeys(s, ruleId, items[0], now);
      RefillItemsOnlyTouchesItsKeys(t, ruleId, items[1..], now);
    }
  }

  /** The refill gates and buckets of every rule visited in `order`. */
  function RuleKeys(rules: map<int, seq<LimitItem>>, order: seq<int>): (keys: set<string>)
    requires forall i :: 0 <= i < |order| ==> order[i] in rules
    ensures forall i :: 0 <= i < |order| ==> ItemKeys(order[i], rules[order[i]]) <= keys
    decreases |order|
  {
    if order == [] then {}
    else ItemKeys(order[0], rules[order[0]]) + RuleKeys(rules, order[1..])
  }

  /** A whole tick changes no key but the gates and buckets of the registered items. */
  lemma {:induction false} RefillRulesOnlyTouchesItemKeys(s: Shared, rules: map<int, seq<LimitItem>>, order: seq<int>, now: U64)
    requires WellFormed(s)
    requires forall i :: 0 <= i < |order| ==> order[i] in rules
    ensures var r := RefillRules(s, rules, order, now);
      forall j :: j in s.data && j !in RuleKeys(rules, order) ==> r.data[j] == s.data[j]
    decreases |order|
  {
    if order != [] {
      var t := RefillItems(s, order[0], rules[order[0]], now);
      RefillItemsOnlyTouchesItsKeys(s, order[0], rules[order[0]], now);
      RefillRulesOnlyTouchesItemKeys(t, rules, order[1..], now);
    }
  }

  /**
   * The refill sum as written wraps around: with 2^63 tokens per refill and a
   * full bucket of 2^63 the bucket is emptied instead of staying full.
   */
  lemma ReplenishAsWrittenEmptiesFullBucket()
    ensures var half: U64 := TWO_64 / 2;
      ReplenishAsWritten(half, half, half) == 0 && Replenish(half, half, half) == half
  {
  }

  /** Where the uint64 sum does not wrap, the written computation and the intended one agree. */
  lemma ReplenishAsWrittenAgreesWithoutOverflow(tokenLeft: U64, tokensPerRefill: U64, maxTokens: U64)
    requires tokenLeft + tokensPerRefill < TWO_64
    ensures ReplenishAsWritten(tokenLeft, tokensPerRefill, maxTokens) == Replenish(tokenLeft, tokensPerRefill, maxTokens)
  {
  }

  // ---------------------------------------------------------------------------
  // initializeTokenBucket

  /**
   * The reset loop succeeds exactly when the key exists; it then writes `v`
   * to it once, and otherwise changes nothing at all.
   */
  lemma {:induction false} ResetKeyOutcome(s: Shared, k: string, v: seq<Byte>)
    requires WellFormed(s) && |v| == 8
    ensures var r := ResetKey(s, k, v);
      && (r.ok <==> k in s.data)
      && (!r.ok ==> r.after == s)
      && (r.ok ==> OneMoreWrite(s, r.after, k) && r.after.data[k].value == v)
      && OnlyTouches(s, r.after, k)
    decreases |s.pending|
  {
    if k in s.data {
      var w := Write(s, k, v, s.data[k].cas);
      WriteEffect(s, k, v, s.data[k].cas);
      if !w.ok {
        ResetKeyOutcome(w.after, k, v);
      }
    }
  }

  /**
   * Initialization fails only when the gate exists but the bucket does not;
   * when it succeeds both keys exist afterwards.
   */
  lemma InitializeOutcome(s: Shared, ruleId: int, item: LimitItem)
    requires WellFormed(s)
    ensures var r := InitializeBucket(s, ruleId, item);
      var gate := LastRefilledKey(ruleId, item.key);
      var bucket := TokenBucketKey(ruleId, item.key);
      && (r.ok <==> gate !in s.data || bucket in s.data)
      && (r.ok ==> gate in r.after.data && bucket in r.after.data)
  {
    var gate := LastRefilledKey(ruleId, item.key);
    var bucket := TokenBucketKey(ruleId, item.key);
    TokenBucketKeyIsNeverLastRefilledKey(ruleId, item.key, ruleId, item.key);
    if gate !in s.data {
      var created := Write(s, gate, PutUint64(0), 0);
      WriteEffect(s, gate, PutUint64(0), 0);
      assert gate in created.after.data;
      var w := Write(created.after, bucket, PutUint64(item.maxTokens), 0);
      WriteEffect(created.after, bucket, PutUint64(item.maxTokens), 0);
      assert bucket in w.after.data;
    } else {
      var g := ResetKey(s, gate, PutUint64(0));
      ResetKeyOutcome(s, gate, PutUint64(0));
      ResetKeyOutcome(g.after, bucket, PutUint64(item.maxTokens));
    }
  }

  /** Initializing a rule whose keys already exist resets the gate to 0 and the bucket to full. */
  lemma InitializeResets(s: Shared, ruleId: int, item: LimitItem)
    requires WellFormed(s)
    requires LastRefilledKey(ruleId, item.key) in s.data && TokenBucketKey(ruleId, item.key) in s.data
    ensures var r := InitializeBucket(s, ruleId, item);
      && r.ok
      && LastRefilledKey(ruleId, item.key) in r.after.data && TokenBucketKey(ruleId, item.key) in r.after.data
      && Stored(r.after, LastRefilledKey(ruleId, item.key)) == 0
      && Stored(r.after, TokenBucketKey(ruleId, item.key)) == item.maxTokens
  {
    var gate := LastRefilledKey(ruleId, item.key);
    var bucket := TokenBucketKey(ruleId, item.key);
    TokenBucketKeyIsNeverLastRefilledKey(ruleId, item.key, ruleId, item.key);
    var g := ResetKey(s, gate, PutUint64(0));
    ResetKeyOutcome(s, gate, PutUint64(0));
    ResetKeyOutcome(g.after, bucket, PutUint64(item.maxTokens));
    Uint64RoundTrip(0);
    Uint64RoundTrip(item.maxTokens);
  }

  /**
   * Initializing a fresh rule with no competing writer creates the gate at 0
   * and the bucket full, with two writes of ours.
   */
  lemma InitializeCreates(s: Shared, ruleId: int, item: LimitItem)
    requires WellFormed(s)
    requires LastRefilledKey(ruleId, item.key) !in s.data && TokenBucketKey(ruleId, item.key) !in s.data
    requires Uncontended(s) && (|s.pending| <= 1 || s.pending[1].Quiet?)
    ensures var r := InitializeBucket(s, ruleId, item);
      && r.ok
      && LastRefilledKey(ruleId, item.key) in r.after.data && TokenBucketKey(ruleId, item.key) in r.after.data
      && Stored(r.after, LastRefilledKey(ruleId, item.key)) == 0
      && Stored(r.after, TokenBucketKey(ruleId, item.key)) == item.maxTokens
      && |r.after.mine| == |s.mine| + 2
  {
    var gate := LastRefilledKey(ruleId, item.key);
    var bucket := TokenBucketKey(ruleId, item.key);
    TokenBucketKeyIsNeverLastRefilledKey(ruleId, item.key, ruleId, item.key);
    var created := Write(s, gate, PutUint64(0), 0);
    WriteEffect(s, gate, PutUint64(0), 0);
    assert created.ok;
    WriteEffect(created.after, bucket, PutUint64(item.maxTokens), 0);
    Uint64RoundTrip(0);
    Uint64RoundTrip(item.maxTokens);
  }

  /**
   * Initialization is idempotent: after one successful initialization,
   * initializing again from any later store (keys are never removed) resets
   * the gate to 0 and the bucket to full, whatever happened in between.
   */
  lemma ReinitializeResets(s: Shared, t: Shared, ruleId: int, item: LimitItem)
    requires WellFormed(s) && WellFormed(t)
    requires InitializeBucket(s, ruleId, item).ok
    requires InitializeBucket(s, ruleId, item).after.data.Keys <= t.data.Keys
    ensures var r := InitializeBucket(t, ruleId, item);
      && r.ok
      && LastRefilledKey(ruleId, item.key) in r.after.data && TokenBucketKey(ruleId, item.key) in r.after.data
      && Stored(r.after, LastRefilledKey(ruleId, item.key)) == 0
      && Stored(r.after, TokenBucketKey(ruleId, item.key)) == item.maxTokens
  {
    InitializeOutcome(s, ruleId, item);
    InitializeResets(t, ruleId, item);
  }

  /** Initialization adds no key but the rule's refill gate and bucket. */
  lemma InitializeAddsOnlyItsKeys(s: Shared, ruleId: int, item: LimitItem)
    requires WellFormed(s)
    ensures InitializeBucket(s, ruleId, item).after.data.Keys
         <= s.data.Keys + {LastRefilledKey(ruleId, item.key), TokenBucketKey(ruleId, item.key)}
  {
  }

  /** Initialization changes no key but the item's refill gate and bucket. */
  lemma InitializeOnlyTouchesItsKeys(s: Shared, ruleId: int, item: LimitItem)
    requires WellFormed(s)
    ensures var r := InitializeBucket(s, ruleId, item);
      forall j :: j in s.data && j != LastRefilledKey(ruleId, item.key) && j != TokenBucketKey(ruleId, item.key)
        ==> r.after.data[j] == s.data[j]
  {
    var gate := LastRefilledKey(ruleId, item.key);
    var bucket := TokenBucketKey(ruleId, item.key);
    if gate !in s.data {
      var created := Write(s, gate, PutUint64(0), 0);
      WriteEffect(s, gate, PutUint64(0), 0);
      WriteEffect(created.after, bucket, PutUint64(item.maxTokens), 0);
    } else {
      var g := ResetKey(s, gate, PutUint64(0));
      ResetKeyOutcome(s, gate, PutUint64(0));
      if g.ok {
        ResetKeyOutcome(g.after, bucket, PutUint64(item.maxTokens));
      }
    }
  }

  /**
   * Initializing one rate-limit key leaves the refill gate and the bucket of
   * every other (rule id, key) pair as they were.
   */
  lemma InitializeLeavesOtherItems(s: Shared, ruleId: int, item: LimitItem, otherId: int, otherKey: string)
    requires WellFormed(s) && (otherId, otherKey) != (ruleId, item.key)
    ensures var r := InitializeBucket(s, ruleId, item);
      && (TokenBucketKey(otherId, otherKey) in s.data ==> r.after.data[TokenBucketKey(otherId, otherKey)] == s.data[TokenBucketKey(otherId, otherKey)])
      && (LastRefilledKey(otherId, otherKey) in s.data ==> r.after.data[LastRefilledKey(otherId, otherKey)] == s.data[LastRefilledKey(otherId, otherKey)])
  {
    InitializeOnlyTouchesItsKeys(s, ruleId, item);
    TokenBucketKeyInjective(otherId, otherKey, ruleId, item.key);
    LastRefilledKeyInjective(otherId, otherKey, ruleId, item.key);
    TokenBucketKeyIsNeverLastRefilledKey(otherId, otherKey, ruleId, item.key);
    TokenBucketKeyIsNeverLastRefilledKey(ruleId, item.key, otherId, otherKey);
  }
}
