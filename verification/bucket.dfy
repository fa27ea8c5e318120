/**
 * The token-bucket engine. Each operation is given twice: as a function of
 * the store's snapshot, which the lemmas of BucketProperties reason about,
 * and as a method on the shared store that follows the engine's own
 * read / transform / compare-and-swap loops and is proved to compute that
 * function.
 */
module Bucket {
  import opened Wrappers
  import opened Codec
  import opened Keys
  import opened SharedData
  import opened Limits

  /** Number of read / write attempts `getToken` makes before giving up. */
  const MaxGetTokenRetry: nat := 20

  /** A store the engine can work on: consistent versions, and every value an encoded uint64. */
  predicate WellFormed(s: Shared) {
    Consistent(s) && Uniform(s, 8)
  }

  /** The number stored under `k`. */
  function Stored(s: Shared, k: string): U64
    requires Uniform(s, 8) && k in s.data
  {
    Uint64(s.data[k].value)
  }

  /** `order` lists every element of `keys` exactly once: one possible iteration order of a Go map. */
  predicate Enumerates<T>(order: seq<T>, keys: set<T>) {
    && (forall i :: 0 <= i < |order| ==> order[i] in keys)
    && (forall x :: x in keys ==> x in order)
    && (forall i, j :: 0 <= i < j < |order| ==> order[i] != order[j])
  }

  // ---------------------------------------------------------------------------
  // getToken

  /** The verdict of `getToken`, how many attempts it used, and the store afterwards. */
  datatype Acquired = Acquired(granted: bool, attempts: nat, after: Shared)

  /** Where one attempt of `getToken` leaves it: due for another attempt, or settled on a verdict. */
  datatype Attempt = Retry(after: Shared) | Settled(granted: bool, after: Shared)

  /**
   * One attempt of `getToken` on bucket key `k`: read the count, refuse on
   * zero, otherwise write it back one lower under the version just read.
   */
  function TryToken(s: Shared, k: string): (r: Attempt)
    requires WellFormed(s)
    ensures WellFormed(r.after)
    // a missing bucket is never created
    ensures r.after.data.Keys == s.data.Keys
    // an attempt gives at most one competing write its chance
    ensures |r.after.pending| >= |s.pending| - 1
  {
    match Read(s, k)
    case None => Retry(s)
    case Some(e) =>
      var tokenLeft := Uint64(e.value);
      if tokenLeft == 0 then Settled(false, s)
      else
        var w := Write(s, k, PutUint64(tokenLeft - 1), e.cas);
        if w.ok then Settled(true, w.after) else Retry(w.after)
  }

  /** `getToken` on bucket key `k`, from attempt number `attempt` on. */
  function Acquire(s: Shared, k: string, attempt: nat): (r: Acquired)
    requires WellFormed(s)
    ensures WellFormed(r.after)
    ensures r.after.data.Keys == s.data.Keys
    decreases MaxGetTokenRetry - attempt
  {
    if attempt >= MaxGetTokenRetry then Acquired(true, attempt, s)
    else match TryToken(s, k)
      case Retry(t) => Acquire(t, k, attempt + 1)
      case Settled(granted, t) => Acquired(granted, attempt + 1, t)
  }

  /** Takes one token from the bucket of `key` in rule `ruleId`; says whether the request may pass. */
  method GetToken(store: SharedStore, ruleId: int, key: string) returns (granted: bool)
    requires store.Valid() && WellFormed(store.State())
    modifies store
    ensures store.Valid() && WellFormed(store.State())
    ensures var r := Acquire(old(store.State()), TokenBucketKey(ruleId, key), 0);
      granted == r.granted && store.State() == r.after
  {
    var tokenBucketKey := TokenBucketKey(ruleId, key);
    ghost var goal := Acquire(store.State(), tokenBucketKey, 0);
    var i := 0;
    while i < MaxGetTokenRetry
      invariant 0 <= i <= MaxGetTokenRetry
      invariant store.Valid() && WellFormed(store.State())
      invariant Acquire(store.State(), tokenBucketKey, i) == goal
    {
      var settled, verdict := TakeToken(store, tokenBucketKey);
      if settled {
        return verdict;
      }
      i := i + 1;
    }
    return true;
  }

  /**
   * The body of `getToken`'s retry loop: `settled` is false where the loop
   * goes round again (no bucket yet, or a lost compare-and-swap), and
   * otherwise `verdict` is the answer it returns.
   */
  method TakeToken(store: SharedStore, tokenBucketKey: string) returns (settled: bool, verdict: bool)
    requires store.Valid() && WellFormed(store.State())
    modifies store
    ensures store.Valid() && WellFormed(store.State())
    ensures var r := TryToken(old(store.State()), tokenBucketKey);
      && settled == r.Settled? && store.State() == r.after
      && (settled ==> verdict == r.granted)
  {
    var tokenBucketData := store.GetSharedData(tokenBucketKey);
    if tokenBucketData.None? {
      return false, false;
    }
    var tokenLeft := Uint64(tokenBucketData.value.value);
    if tokenLeft == 0 {
      return true, false;
    }
    tokenLeft := tokenLeft - 1;
    var ok := store.SetSharedData(tokenBucketKey, PutUint64(tokenLeft), tokenBucketData.value.cas);
    return ok, true;
  }

  // ---------------------------------------------------------------------------
  // refillToken

  /** Go's subtraction on uint64, which wraps around below zero. */
  function Sub64(a: U64, b: U64): (d: U64)
    // adding `b` back, modulo 2^64, gives `a`; without a borrow it is the plain difference
    ensures (d + b) % TWO_64 == a
    ensures b <= a ==> d == a - b
  {
    (a - b) % TWO_64
  }

  /**
   * The count a refill leaves: `tokensPerRefill` more than was left, capped
   * at `maxTokens`, the sum taken without wrap-around.
   */
  function Replenish(tokenLeft: U64, tokensPerRefill: U64, maxTokens: U64): (n: U64)
    ensures n <= maxTokens
    ensures n == maxTokens || n == tokenLeft + tokensPerRefill
    ensures tokenLeft + tokensPerRefill <= maxTokens ==> n == tokenLeft + tokensPerRefill
    ensures tokenLeft <= maxTokens ==> tokenLeft <= n
  {
    if tokenLeft + tokensPerRefill > maxTokens then maxTokens else tokenLeft + tokensPerRefill
  }

  /** The same computation as the engine writes it: a uint64 sum, which wraps, then the cap. */
  function ReplenishAsWritten(tokenLeft: U64, tokensPerRefill: U64, maxTokens: U64): (n: U64)
    ensures n <= maxTokens
  {
    var sum := (tokenLeft + tokensPerRefill) % TWO_64;
    if sum > maxTokens then maxTokens else sum
  }

  /** The unbounded retry that adds a refill to bucket key `k` once the refill is claimed. */
  function RefillBucket(s: Shared, k: string, item: LimitItem): (r: Shared)
    requires WellFormed(s)
    ensures WellFormed(r)
    ensures r.data.Keys == s.data.Keys
    decreases |s.pending|
  {
    match Read(s, k)
    case None => s
    case Some(e) =>
      var tokenLeft := Replenish(Uint64(e.value), item.tokensPerRefill, item.maxTokens);
      var w := Write(s, k, PutUint64(tokenLeft), e.cas);
      if w.ok then w.after else RefillBucket(w.after, k, item)
  }

  /** One refill pass over one rate-limit key of rule `ruleId` at time `now`. */
  function RefillItem(s: Shared, ruleId: int, item: LimitItem, now: U64): (r: Shared)
    requires WellFormed(s)
    ensures WellFormed(r)
    ensures r.data.Keys == s.data.Keys
  {
    var lastRefilledKey := LastRefilledKey(ruleId, item.key);
    match Read(s, lastRefilledKey)
    case None => s
    case Some(e) =>
      if Sub64(now, Uint64(e.value)) < item.refillIntervalNanosec then s
      else
        var claim := Write(s, lastRefilledKey, PutUint64(now), e.cas);
        if !claim.ok then claim.after
        else RefillBucket(claim.after, TokenBucketKey(ruleId, item.key), item)
  }

  /** Refill passes over the rate-limit keys of one rule, in slice order. */
  function RefillItems(s: Shared, ruleId: int, items: seq<LimitItem>, now: U64): (r: Shared)
    requires WellFormed(s)
    ensures WellFormed(r)
    ensures r.data.Keys == s.data.Keys
    decreases |items|
  {
    if items == [] then s else RefillItems(RefillItem(s, ruleId, items[0], now), ruleId, items[1..], now)
  }

  /** Refill passes over the rules listed in `order`. */
  function RefillRules(s: Shared, rules: map<int, seq<LimitItem>>, order: seq<int>, now: U64): (r: Shared)
    requires WellFormed(s)
    requires forall i :: 0 <= i < |order| ==> order[i] in rules
    ensures WellFormed(r)
    // a refill creates no key: a rate-limit key never initialized gets no bucket
    ensures r.data.Keys == s.data.Keys
    decreases |order|
  {
    if order == [] then s
    else RefillRules(RefillItems(s, order[0], rules[order[0]], now), rules, order[1..], now)
  }

  lemma RefillItemsUnfold(s: Shared, ruleId: int, items: seq<LimitItem>, j: nat, now: U64)
    requires WellFormed(s) && j < |items|
    ensures RefillItems(s, ruleId, items[j..], now)
         == RefillItems(RefillItem(s, ruleId, items[j], now), ruleId, items[j + 1..], now)
  {
    assert items[j..][1..] == items[j + 1..];
  }

  lemma RefillRulesUnfold(s: Shared, rules: map<int, seq<LimitItem>>, order: seq<int>, n: nat, now: U64)
    requires WellFormed(s) && n < |order|
    requires forall i :: 0 <= i < |order| ==> order[i] in rules
    ensures RefillRules(s, rules, order[n..], now)
         == RefillRules(RefillItems(s, order[n], rules[order[n]], now), rules, order[n + 1..], now)
  {
    assert order[n..][1..] == order[n + 1..];
  }

  /**
   * The refill pass of one timer tick over every registered rule; `order` is
   * the order in which the rule map happens to be iterated.
   */
  method RefillToken(store: SharedStore, rules: map<int, seq<LimitItem>>, order: seq<int>, now: U64)
    requires store.Valid() && WellFormed(store.State())
    requires Enumerates(order, rules.Keys)
    modifies store
    ensures store.Valid() && WellFormed(store.State())
    ensures store.State() == RefillRules(old(store.State()), rules, order, now)
  {
    var n := 0;
    while n < |order|
      invariant 0 <= n <= |order|
      invariant store.Valid() && WellFormed(store.State())
      invariant RefillRules(store.State(), rules, order[n..], now) == RefillRules(old(store.State()), rules, order, now)
    {
      var id := order[n];
      var limitItems := rules[id];
      ghost var ruleStart := store.State();
      var j := 0;
      while j < |limitItems|
        invariant 0 <= j <= |limitItems|
        invariant store.Valid() && WellFormed(store.State())
        invariant RefillItems(store.State(), id, limitItems[j..], now) == RefillItems(ruleStart, id, limitItems, now)
      {
        var rule := limitItems[j];
        RefillItemsUnfold(store.State(), id, limitItems, j, now);
        RefillKey(store, id, rule, now);
        j := j + 1;
      }
      RefillRulesUnfold(ruleStart, rules, order, n, now);
      n := n + 1;
    }
  }

  /**
   * The body of `refillToken`'s inner loop for one rate-limit key: read the
   * refill gate, skip when the interval has not elapsed, claim the refill
   * with one compare-and-swap, then add the tokens with an unbounded retry.
   */
  method RefillKey(store: SharedStore, id: int, rule: LimitItem, now: U64)
    requires store.Valid() && WellFormed(store.State())
    modifies store
    ensures store.Valid() && WellFormed(store.State())
    ensures store.State() == RefillItem(old(store.State()), id, rule, now)
  {
    var lastRefilledKey := LastRefilledKey(id, rule.key);
    var tokenBucketKey := TokenBucketKey(id, rule.key);
    var lastUpdateData := store.GetSharedData(lastRefilledKey);
    if lastUpdateData.None? {
      return;
    }
    var lastUpdate := Uint64(lastUpdateData.value.value);
    if Sub64(now, lastUpdate) < rule.refillIntervalNanosec {
      return;
    }
    var claimed := store.SetSharedData(lastRefilledKey, PutUint64(now), lastUpdateData.value.cas);
    if !claimed {
      return;
    }
    ghost var afterClaim := store.State();
    while true
      invariant store.Valid() && WellFormed(store.State())
      invariant RefillBucket(store.State(), tokenBucketKey, rule) == RefillBucket(afterClaim, tokenBucketKey, rule)
      decreases |store.pending|
    {
      var tokenBucketData := store.GetSharedData(tokenBucketKey);
      if tokenBucketData.None? {
        break;
      }
      var tokenLeft := Replenish(Uint64(tokenBucketData.value.value), rule.tokensPerRefill, rule.maxTokens);
      var ok := store.SetSharedData(tokenBucketKey, PutUint64(tokenLeft), tokenBucketData.value.cas);
      if !ok {
        continue;
      }
      break;
    }
  }

  // ---------------------------------------------------------------------------
  // initializeTokenBucket

  /** The unbounded retry that overwrites an existing key with `v`; fails only when `k` cannot be read. */
  function ResetKey(s: Shared, k: string, v: seq<Byte>): (r: Written)
    requires WellFormed(s) && |v| == 8
    ensures WellFormed(r.after)
    ensures r.after.data.Keys == s.data.Keys
    decreases |s.pending|
  {
    match Read(s, k)
    case None => Written(false, s)
    case Some(e) =>
      var w := Write(s, k, v, e.cas);
      if w.ok then w else ResetKey(w.after, k, v)
  }

  /**
   * `initializeTokenBucket`: creates the refill gate at 0 and the bucket at
   * `maxTokens` when the gate key was never written, and otherwise resets
   * both through the retry loop.
   */
  function InitializeBucket(s: Shared, ruleId: int, item: LimitItem): (r: Written)
    requires WellFormed(s)
    ensures WellFormed(r.after)
    // no key is removed, and only the rule's gate and bucket can be added
    ensures s.data.Keys <= r.after.data.Keys
  {
    var lastRefilledKey := LastRefilledKey(ruleId, item.key);
    var tokenBucketKey := TokenBucketKey(ruleId, item.key);
    match Read(s, lastRefilledKey)
    case None =>
      var created := Write(s, lastRefilledKey, PutUint64(0), 0).after;
      Written(true, Write(created, tokenBucketKey, PutUint64(item.maxTokens), 0).after)
    case Some(_) =>
      var gate := ResetKey(s, lastRefilledKey, PutUint64(0));
      if !gate.ok then gate else ResetKey(gate.after, tokenBucketKey, PutUint64(item.maxTokens))
  }

  /** Establishes the bucket and refill gate of `rule` under rule id `ruleId`. */
  method InitializeTokenBucket(store: SharedStore, ruleId: int, rule: LimitItem) returns (ok: bool)
    requires store.Valid() && WellFormed(store.State())
    modifies store
    ensures store.Valid() && WellFormed(store.State())
    ensures Written(ok, store.State()) == InitializeBucket(old(store.State()), ruleId, rule)
  {
    var initialValue: U64 := 0;
    var lastRefilledKey := LastRefilledKey(ruleId, rule.key);
    var tokenBucketKey := TokenBucketKey(ruleId, rule.key);
    var initialBuf := PutUint64(initialValue);
    var maxTokenBuf := PutUint64(rule.maxTokens);
    var existing := store.GetSharedData(lastRefilledKey);
    if existing.None? {
      var _ := store.SetSharedData(lastRefilledKey, initialBuf, 0);
      var _ := store.SetSharedData(tokenBucketKey, maxTokenBuf, 0);
    } else {
      ghost var start := store.State();
      while true
        invariant store.Valid() && WellFormed(store.State())
        invariant ResetKey(store.State(), lastRefilledKey, initialBuf) == ResetKey(start, lastRefilledKey, initialBuf)
        decreases |store.pending|
      {
        var lastUpdate := store.GetSharedData(lastRefilledKey);
        if lastUpdate.None? {
          return false;
        }
        var written := store.SetSharedData(lastRefilledKey, initialBuf, lastUpdate.value.cas);
        if !written {
          continue;
        }
        break;
      }
      ghost var gateReset := store.State();
      while true
        invariant store.Valid() && WellFormed(store.State())
        invariant ResetKey(store.State(), tokenBucketKey, maxTokenBuf) == ResetKey(gateReset, tokenBucketKey, maxTokenBuf)
        decreases |store.pending|
      {
        var tokenBucketData := store.GetSharedData(tokenBucketKey);
        if tokenBucketData.None? {
          return false;
        }
        var written := store.SetSharedData(tokenBucketKey, maxTokenBuf, tokenBucketData.value.cas);
        if !written {
          continue;
        }
        break;
      }
    }
    return true;
  }
}
