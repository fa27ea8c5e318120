/**
 * What `parseConfig`, the rule registry and the request decision guarantee,
 * stated about the functions of module Config.
 */
module ConfigProperties {
  import opened Wrappers
  import opened Codec
  import opened Keys
  import opened SharedData
  import opened Limits
  import opened Bucket
  import opened BucketProperties
  import opened Config

  // ---------------------------------------------------------------------------
  // The `limit_keys` map

  /** Element `i` is the first element of `items` that is refused. */
  predicate FirstRefused(items: seq<LimitKeyJson>, i: int) {
    && 0 <= i < |items|
    && ParseItem(items[i]).Failure?
    && forall j :: 0 <= j < i ==> ParseItem(items[j]).Success?
  }

  /** No element after element `i` names the same key. */
  predicate LastOfItsKey(items: seq<LimitKeyJson>, i: int) {
    0 <= i < |items| && forall j :: i < j < |items| ==> items[j].key != items[i].key
  }

  /** The key names the elements of `items` give. */
  function KeyNames(items: seq<LimitKeyJson>): set<string>
    decreases |items|
  {
    if items == [] then {}
    else (if items[0].key.Some? then {items[0].key.value} else {}) + KeyNames(items[1..])
  }

  /**
   * Building the map succeeds exactly when every element is accepted; when
   * one is refused, the error is that of the first refused element.
   */
  lemma {:induction false} CollectFromOutcome(items: seq<LimitKeyJson>, acc: map<string, LimitItem>)
    ensures CollectFrom(items, acc).Success? <==> forall i :: 0 <= i < |items| ==> ParseItem(items[i]).Success?
    ensures forall i :: FirstRefused(items, i) ==> CollectFrom(items, acc) == Failure(ParseItem(items[i]).error)
    decreases |items|
  {
    if items != [] {
      match ParseItem(items[0])
      case Failure(e) =>
        assert FirstRefused(items, 0);
      case Success(li) =>
        var rest := items[1..];
        CollectFromOutcome(rest, acc[li.key := li]);
        assert forall i :: 1 <= i < |items| ==> rest[i - 1] == items[i];
        forall i | FirstRefused(items, i)
          ensures FirstRefused(rest, i - 1)
        {
          assert i != 0;
          forall j | 0 <= j < i - 1
            ensures ParseItem(rest[j]).Success?
          {
            assert rest[j] == items[j + 1];
          }
        }
    }
  }

  /** The map built on top of `acc` holds exactly the keys of `acc` and the elements' key names. */
  lemma {:induction false} CollectFromKeys(items: seq<LimitKeyJson>, acc: map<string, LimitItem>)
    requires CollectFrom(items, acc).Success?
    ensures CollectFrom(items, acc).value.Keys == acc.Keys + KeyNames(items)
    decreases |items|
  {
    if items != [] {
      var li := ParseItem(items[0]).value;
      CollectFromKeys(items[1..], acc[li.key := li]);
    }
  }

  /** An entry no later element names again keeps the value it had. */
  lemma {:induction false} CollectFromKeeps(items: seq<LimitKeyJson>, acc: map<string, LimitItem>, k: string)
    requires k in acc && CollectFrom(items, acc).Success?
    requires forall j :: 0 <= j < |items| ==> items[j].key != Some(k)
    ensures k in CollectFrom(items, acc).value && CollectFrom(items, acc).value[k] == acc[k]
    decreases |items|
  {
    if items != [] {
      var li := ParseItem(items[0]).value;
      assert items[0].key == Some(li.key);
      forall j | 0 <= j < |items| - 1
        ensures items[1..][j].key != Some(k)
      {
        assert items[1..][j] == items[j + 1];
      }
      CollectFromKeeps(items[1..], acc[li.key := li], k);
    }
  }

  /** When several elements name the same key, the last one is the entry the map keeps. */
  lemma {:induction false} CollectFromLastWins(items: seq<LimitKeyJson>, acc: map<string, LimitItem>, i: nat)
    requires CollectFrom(items, acc).Success? && LastOfItsKey(items, i)
    ensures ParseItem(items[i]).Success?
    ensures var li := ParseItem(items[i]).value;
      li.key in CollectFrom(items, acc).value && CollectFrom(items, acc).value[li.key] == li
    decreases |items|
  {
    var li := ParseItem(items[0]).value;
    var rest := items[1..];
    if i == 0 {
      assert items[0].key == Some(li.key);
      forall j | 0 <= j < |rest|
        ensures rest[j].key != Some(li.key)
      {
        assert rest[j] == items[j + 1];
      }
      CollectFromKeeps(rest, acc[li.key := li], li.key);
    } else {
      assert rest[i - 1] == items[i];
      forall j | i - 1 < j < |rest|
        ensures rest[j].key != rest[i - 1].key
      {
        assert rest[j] == items[j + 1];
      }
      CollectFromLastWins(rest, acc[li.key := li], i - 1);
    }
  }

  /**
   * The `limit_keys` map of a configuration: it is built exactly when every
   * element is accepted, then holds exactly the elements' key names, each
   * configured by the last element that names it; otherwise the first
   * refused element's error is reported.
   */
  lemma CollectLimitKeysSpec(items: seq<LimitKeyJson>)
    ensures CollectLimitKeys(items).Success? <==> forall i :: 0 <= i < |items| ==> ParseItem(items[i]).Success?
    ensures forall i :: FirstRefused(items, i) ==> CollectLimitKeys(items) == Failure(ParseItem(items[i]).error)
    ensures CollectLimitKeys(items).Success? ==> CollectLimitKeys(items).value.Keys == KeyNames(items)
    ensures forall i :: CollectLimitKeys(items).Success? && LastOfItsKey(items, i) ==>
      var li := ParseItem(items[i]).value;
      && ParseItem(items[i]).Success?
      && li.key in CollectLimitKeys(items).value && CollectLimitKeys(items).value[li.key] == li
  {
    CollectFromOutcome(items, map[]);
    if CollectLimitKeys(items).Success? {
      CollectFromKeys(items, map[]);
      forall i | LastOfItsKey(items, i)
        ensures ParseItem(items[i]).Success?
        ensures var li := ParseItem(items[i]).value;
          li.key in CollectLimitKeys(items).value && CollectLimitKeys(items).value[li.key] == li
      {
        CollectFromLastWins(items, map[], i);
      }
    }
  }

  /** Any element accepted names a key, so the set of key names is empty only for no elements. */
  lemma {:induction false} KeyNamesEmpty(items: seq<LimitKeyJson>)
    requires forall i :: 0 <= i < |items| ==> ParseItem(items[i]).Success?
    ensures KeyNames(items) == {} <==> items == []
    decreases |items|
  {
    if items != [] {
      assert items[0].key.value in KeyNames(items);
    }
  }

  /** `parseConfig` reports that no limit keys were found exactly when `limit_keys` is empty. */
  lemma NoLimitKeysOnlyWhenEmpty(json: ConfigJson, ruleId: int)
    ensures ValidateConfig(json, ruleId) == Failure(NoLimitKeys) <==> json.limitKeys == []
  {
    var items := json.limitKeys;
    CollectFromOutcome(items, map[]);
    if CollectLimitKeys(items).Success? {
      CollectFromKeys(items, map[]);
      KeyNamesEmpty(items);
    }
  }

  // ---------------------------------------------------------------------------
  // Registering a rule

  /** The items listed under rule `id`. */
  function Listed(limits: map<int, seq<LimitItem>>, id: int): seq<LimitItem> {
    if id in limits then limits[id] else []
  }

  /** `a` and `b` agree on every rule but `ruleId`. */
  predicate SameOtherRules(a: map<int, seq<LimitItem>>, b: map<int, seq<LimitItem>>, ruleId: int) {
    && a.Keys - {ruleId} == b.Keys - {ruleId}
    && forall id :: id in a && id in b && id != ruleId ==> a[id] == b[id]
  }

  /** Registration changes no rule but `ruleId`. */
  lemma {:induction false} RegisterKeepsOtherRules(limits: map<int, seq<LimitItem>>, s: Shared, ruleId: int, items: seq<LimitItem>)
    requires WellFormed(s)
    ensures SameOtherRules(Register(limits, s, ruleId, items).limits, limits, ruleId)
    decreases |items|
  {
    if items != [] {
      var listed := limits[ruleId := if ruleId in limits then limits[ruleId] + [items[0]] else [items[0]]];
      assert SameOtherRules(listed, limits, ruleId);
      var w := InitializeBucket(s, ruleId, items[0]);
      if w.ok {
        var r := Register(listed, w.after, ruleId, items[1..]);
        assert Register(limits, s, ruleId, items) == r;
        RegisterKeepsOtherRules(listed, w.after, ruleId, items[1..]);
      }
    }
  }

  /**
   * `now` is `prior` followed by a prefix of `items`: all of them when
   * `complete`, and otherwise at least one.
   */
  predicate AppendsPrefix(prior: seq<LimitItem>, now: seq<LimitItem>, items: seq<LimitItem>, complete: bool) {
    && |prior| <= |now| <= |prior| + |items|
    && now[..|prior|] == prior
    && now[|prior|..] == items[..|now| - |prior|]
    && (complete ==> |now| == |prior| + |items|)
    && (!complete ==> |now| > |prior|)
  }

  lemma AppendsNothing(prior: seq<LimitItem>)
    ensures AppendsPrefix(prior, prior, [], true)
  {
    assert prior[..|prior|] == prior;
  }

  lemma AppendsFirst(prior: seq<LimitItem>, items: seq<LimitItem>)
    requires items != []
    ensures AppendsPrefix(prior, prior + [items[0]], items, false)
  {
    assert (prior + [items[0]])[..|prior|] == prior;
    assert items[..1] == [items[0]];
  }

  lemma AppendsStep(prior: seq<LimitItem>, now: seq<LimitItem>, items: seq<LimitItem>, complete: bool)
    requires items != [] && AppendsPrefix(prior + [items[0]], now, items[1..], complete)
    ensures AppendsPrefix(prior, now, items, complete)
  {
    var m := |now| - |prior| - 1;
    assert now[..|prior|] == now[..|prior| + 1][..|prior|];
    assert now[|prior|..] == [now[|prior|]] + now[|prior| + 1..];
    assert now[|prior|] == now[..|prior| + 1][|prior|];
    assert items[..m + 1] == [items[0]] + items[1..][..m];
  }

  /**
   * Registration appends to rule `ruleId`'s list a prefix of `items`: all of
   * them when it succeeds, and when it fails at least the item whose bucket
   * could not be initialized, which is the last one appended.
   */
  lemma {:induction false} RegisterAppends(limits: map<int, seq<LimitItem>>, s: Shared, ruleId: int, items: seq<LimitItem>)
    requires WellFormed(s)
    ensures var r := Register(limits, s, ruleId, items);
      AppendsPrefix(Listed(limits, ruleId), Listed(r.limits, ruleId), items, r.ok)
    decreases |items|
  {
    var prior := Listed(limits, ruleId);
    if items == [] {
      AppendsNothing(prior);
    } else {
      var listed := limits[ruleId := if ruleId in limits then limits[ruleId] + [items[0]] else [items[0]]];
      assert Listed(listed, ruleId) == prior + [items[0]];
      var w := InitializeBucket(s, ruleId, items[0]);
      if !w.ok {
        AppendsFirst(prior, items);
      } else {
        RegisterAppends(listed, w.after, ruleId, items[1..]);
        var r := Register(listed, w.after, ruleId, items[1..]);
        AppendsStep(prior, Listed(r.limits, ruleId), items, r.ok);
      }
    }
  }

  /** Registration never removes a key from the store. */
  lemma {:induction false} RegisterKeepsKeys(limits: map<int, seq<LimitItem>>, s: Shared, ruleId: int, items: seq<LimitItem>)
    requires WellFormed(s)
    ensures s.data.Keys <= Register(limits, s, ruleId, items).after.data.Keys
    decreases |items|
  {
    if items != [] {
      var listed := limits[ruleId := if ruleId in limits then limits[ruleId] + [items[0]] else [items[0]]];
      var w := InitializeBucket(s, ruleId, items[0]);
      if w.ok {
        assert Register(limits, s, ruleId, items) == Register(listed, w.after, ruleId, items[1..]);
        RegisterKeepsKeys(listed, w.after, ruleId, items[1..]);
      }
    }
  }

  /** Every item of `items` has its bucket and its refill gate under rule `ruleId` in `s`. */
  predicate HasBuckets(s: Shared, ruleId: int, items: seq<LimitItem>) {
    forall i :: 0 <= i < |items| ==>
      TokenBucketKey(ruleId, items[i].key) in s.data && LastRefilledKey(ruleId, items[i].key) in s.data
  }

  lemma HasBucketsCons(s: Shared, ruleId: int, items: seq<LimitItem>)
    requires items != [] && HasBuckets(s, ruleId, items[1..])
    requires TokenBucketKey(ruleId, items[0].key) in s.data && LastRefilledKey(ruleId, items[0].key) in s.data
    ensures HasBuckets(s, ruleId, items)
  {
    assert forall i :: 1 <= i < |items| ==> items[1..][i - 1] == items[i];
  }

  /** A successful registration leaves every item of the rule with its bucket and its refill gate. */
  lemma {:induction false} RegisterCreatesBuckets(limits: map<int, seq<LimitItem>>, s: Shared, ruleId: int, items: seq<LimitItem>)
    requires WellFormed(s)
    ensures var r := Register(limits, s, ruleId, items);
      r.ok ==> HasBuckets(r.after, ruleId, items)
    decreases |items|
  {
    if items != [] {
      var listed := limits[ruleId := if ruleId in limits then limits[ruleId] + [items[0]] else [items[0]]];
      var w := InitializeBucket(s, ruleId, items[0]);
      if w.ok {
        var r := Register(listed, w.after, ruleId, items[1..]);
        assert Register(limits, s, ruleId, items) == r;
        InitializeOutcome(s, ruleId, items[0]);
        RegisterKeepsKeys(listed, w.after, ruleId, items[1..]);
        RegisterCreatesBuckets(listed, w.after, ruleId, items[1..]);
        if r.ok {
          HasBucketsCons(r.after, ruleId, items);
        }
      }
    }
  }

  // ---------------------------------------------------------------------------
  // The request decision

  /**
   * A request is refused only with 429 and only for a configured key whose
   * bucket was read empty; a refused request writes nothing.
   */
  lemma DecideRefusesOnlyOnEmptyBucket(s: Shared, config: KeyRateLimitConfig, key: Option<string>)
    requires WellFormed(s)
    ensures var r := Decide(s, config, key);
      r.reply.Some? ==>
        && r.reply.value == TooManyRequests
        && key.Some? && key.value in config.limitKeys
        && TokenBucketKey(config.ruleId, key.value) in r.after.data
        && Stored(r.after, TokenBucketKey(config.ruleId, key.value)) == 0
        && r.after.mine == s.mine
  {
    if key.Some? && key.value in config.limitKeys {
      AcquireDeniesOnlyOnZero(s, TokenBucketKey(config.ruleId, key.value), 0);
    }
  }

  /**
   * A request for a key the rule does not configure leaves the store as it
   * was; any other request touches nothing but its own bucket and takes at
   * most one token from it.
   */
  lemma DecideTouchesOnlyItsBucket(s: Shared, config: KeyRateLimitConfig, key: Option<string>)
    requires WellFormed(s)
    ensures var r := Decide(s, config, key);
      && (key.None? || key.value !in config.limitKeys ==> r.after == s)
      && (key.Some? ==>
            var bucket := TokenBucketKey(config.ruleId, key.value);
            && OnlyTouches(s, r.after, bucket)
            && (r.after.mine == s.mine
                || (OneMoreWrite(s, r.after, bucket) && TakesOneToken(r.after.mine[|s.mine|], bucket))))
  {
    if key.Some? && key.value in config.limitKeys {
      var bucket := TokenBucketKey(config.ruleId, key.value);
      AcquireOnlyTouchesBucket(s, bucket, 0);
      AcquireTakesAtMostOneToken(s, bucket, 0);
    }
  }

  /**
   * A request whose limit parameter is missing is looked up under the empty
   * key, which no validated rule configures: it always passes untouched.
   */
  lemma DecideEmptyKeyPasses(s: Shared, json: ConfigJson, ruleId: int)
    requires WellFormed(s) && ValidateConfig(json, ruleId).Success?
    ensures Decide(s, ValidateConfig(json, ruleId).value, Some("")) == Handled(None, s)
  {
    var config := ValidateConfig(json, ruleId).value;
    assert "" !in config.limitKeys;
  }
}
