/**
 * The plugin's configuration and request handling: parsing and validating a
 * rule, registering it (a fresh rule id, its rate-limit keys, their buckets),
 * the timer that refills all registered rules, and the decision taken on
 * each request.
 */
module Config {
  import opened Wrappers
  import opened Codec
  import opened Keys
  import opened SharedData
  import opened Limits
  import opened Bucket

  // ---------------------------------------------------------------------------
  // The JSON configuration as the plugin reads it

  /** A JSON field that exists: its text rendering and its reading as an unsigned integer. */
  datatype JsonValue = JsonValue(text: string, uint: U64)

  /** One element of `limit_keys`; a field that is absent is `None`. */
  datatype LimitKeyJson = LimitKeyJson(
    key: Option<string>,
    queryPerSecond: Option<JsonValue>,
    queryPerMinute: Option<JsonValue>,
    queryPerHour: Option<JsonValue>,
    queryPerDay: Option<JsonValue>)

  /** A rule's configuration: `limit_keys`, `limit_by_header`, `limit_by_param`. */
  datatype ConfigJson = ConfigJson(
    limitKeys: seq<LimitKeyJson>,
    limitByHeader: Option<string>,
    limitByParam: Option<string>)

  /** Why a configuration is refused. */
  datatype ConfigError =
    | KeyRequired        // an element of `limit_keys` has no key name
    | RateRequired       // an element sets none of the four rates
    | NoLimitKeys        // `limit_keys` is empty
    | HeaderXorParam     // not exactly one of `limit_by_header` and `limit_by_param` is set
    | InitializeFailed   // a bucket could not be initialized
    | TickPeriodFailed   // the host refused the timer period

  /** A rate field counts as set when it exists and renders as a non-empty string. */
  predicate IsSet(v: Option<JsonValue>) {
    v.Some? && v.value.text != ""
  }

  /** The four rate fields, in the order they are tried. */
  function Rates(item: LimitKeyJson): seq<Option<JsonValue>> {
    [item.queryPerSecond, item.queryPerMinute, item.queryPerHour, item.queryPerDay]
  }

  /** The refill interval that goes with each rate field. */
  const Intervals: seq<U64> := [SecondNano, MinuteNano, HourNano, DayNano]

  /** Rate field `i` is the first one set. */
  predicate FirstSet(item: LimitKeyJson, i: nat)
    requires i < 4
  {
    IsSet(Rates(item)[i]) && forall j :: 0 <= j < i ==> !IsSet(Rates(item)[j])
  }

  /**
   * One element of `limit_keys`: the key name is required, and the first rate
   * field set (per second, minute, hour, day) gives both the refill amount
   * and the bucket capacity, with that field's interval.
   */
  function ParseItem(item: LimitKeyJson): (r: Result<LimitItem, ConfigError>)
    ensures r == Failure(KeyRequired) <==> item.key.None? || item.key.value == ""
    ensures r.Success? ==> r.value.key == item.key.value && r.value.tokensPerRefill == r.value.maxTokens
  {
    if item.key.None? || item.key.value == "" then Failure(KeyRequired)
    else if IsSet(item.queryPerSecond) then
      Success(LimitItem(item.key.value, item.queryPerSecond.value.uint, SecondNano, item.queryPerSecond.value.uint))
    else if IsSet(item.queryPerMinute) then
      Success(LimitItem(item.key.value, item.queryPerMinute.value.uint, MinuteNano, item.queryPerMinute.value.uint))
    else if IsSet(item.queryPerHour) then
      Success(LimitItem(item.key.value, item.queryPerHour.value.uint, HourNano, item.queryPerHour.value.uint))
    else if IsSet(item.queryPerDay) then
      Success(LimitItem(item.key.value, item.queryPerDay.value.uint, DayNano, item.queryPerDay.value.uint))
    else Failure(RateRequired)
  }

  /**
   * An element with a key name is refused exactly when none of the four rate
   * fields is set, and otherwise configured by the first one that is.
   */
  lemma ParseItemPicksFirstRate(item: LimitKeyJson)
    requires item.key.Some? && item.key.value != ""
    ensures ParseItem(item) == Failure(RateRequired) <==> forall i :: 0 <= i < 4 ==> !IsSet(Rates(item)[i])
    ensures forall i :: 0 <= i < 4 && FirstSet(item, i) ==>
      ParseItem(item) == Success(LimitItem(item.key.value, Rates(item)[i].value.uint, Intervals[i], Rates(item)[i].value.uint))
  {
    var rates := Rates(item);
    assert rates[0] == item.queryPerSecond && rates[1] == item.queryPerMinute;
    assert rates[2] == item.queryPerHour && rates[3] == item.queryPerDay;
  }

  /** Every entry of a limit-key map is filed under its own, non-empty, key name. */
  predicate KeyedByName(m: map<string, LimitItem>) {
    forall k :: k in m ==> k != "" && m[k].key == k
  }

  /** The map built from `items` on top of `acc`, or the first element's error. */
  function CollectFrom(items: seq<LimitKeyJson>, acc: map<string, LimitItem>): (r: Result<map<string, LimitItem>, ConfigError>)
    ensures KeyedByName(acc) && r.Success? ==> KeyedByName(r.value)
    ensures r.Success? ==> acc.Keys <= r.value.Keys
    ensures r.Failure? ==> r.error == KeyRequired || r.error == RateRequired
    decreases |items|
  {
    if items == [] then Success(acc)
    else match ParseItem(items[0])
      case Failure(e) => Failure(e)
      case Success(li) => CollectFrom(items[1..], acc[li.key := li])
  }

  /** The `limit_keys` map of a configuration. */
  function CollectLimitKeys(items: seq<LimitKeyJson>): (r: Result<map<string, LimitItem>, ConfigError>)
    ensures r.Success? ==> KeyedByName(r.value)
    ensures r.Failure? ==> r.error == KeyRequired || r.error == RateRequired
  {
    CollectFrom(items, map[])
  }

  /**
   * A configuration as validated by `parseConfig`: element errors first,
   * then an empty key map, then anything but exactly one of header and
   * parameter; a valid one becomes the rule numbered `ruleId`.
   */
  function ValidateConfig(json: ConfigJson, ruleId: int): (r: Result<KeyRateLimitConfig, ConfigError>)
    ensures r.Success? <==>
      && CollectLimitKeys(json.limitKeys).Success?
      && CollectLimitKeys(json.limitKeys).value != map[]
      && ((json.limitByHeader.GetOr("") == "") != (json.limitByParam.GetOr("") == ""))
    ensures r.Success? ==>
      && r.value.ruleId == ruleId
      && r.value.limitKeys == CollectLimitKeys(json.limitKeys).value
      && KeyedByName(r.value.limitKeys)
      && (r.value.limitByHeader == "") != (r.value.limitByParam == "")
    ensures r.Failure? ==> r.error != InitializeFailed && r.error != TickPeriodFailed
  {
    match CollectLimitKeys(json.limitKeys)
    case Failure(e) => Failure(e)
    case Success(limitKeys) =>
      if |limitKeys| == 0 then Failure(NoLimitKeys)
      else
        var header := json.limitByHeader.GetOr("");
        var param := json.limitByParam.GetOr("");
        if (header == "" && param == "") || (header != "" && param != "") then Failure(HeaderXorParam)
        else Success(KeyRateLimitConfig(ruleId, limitKeys, header, param))
  }

  // ---------------------------------------------------------------------------
  // Registering a rule

  /** The items of `m` in the order `order` lists their keys. */
  function InOrder(m: map<string, LimitItem>, order: seq<string>): (items: seq<LimitItem>)
    requires forall i :: 0 <= i < |order| ==> order[i] in m
    ensures |items| == |order|
    ensures forall i :: 0 <= i < |order| ==> items[i] == m[order[i]]
  {
    if order == [] then [] else [m[order[0]]] + InOrder(m, order[1..])
  }

  /** The key map of `limit_keys`, built element by element as `parseConfig` does. */
  method ParseLimitKeys(items: seq<LimitKeyJson>) returns (r: Result<map<string, LimitItem>, ConfigError>)
    ensures r == CollectLimitKeys(items)
  {
    var limitKeys: map<string, LimitItem> := map[];
    var i := 0;
    while i < |items|
      invariant 0 <= i <= |items|
      invariant CollectFrom(items[i..], limitKeys) == CollectLimitKeys(items)
    {
      assert items[i..][1..] == items[i + 1..];
      var parsed := ParseItem(items[i]);
      if parsed.Failure? {
        return Failure(parsed.error);
      }
      limitKeys := limitKeys[parsed.value.key := parsed.value];
      i := i + 1;
    }
    return Success(limitKeys);
  }

  /** The checks `parseConfig` makes before it registers anything. */
  method Validate(json: ConfigJson, ruleId: int) returns (r: Result<KeyRateLimitConfig, ConfigError>)
    ensures r == ValidateConfig(json, ruleId)
  {
    var parsed := ParseLimitKeys(json.limitKeys);
    if parsed.Failure? {
      return Failure(parsed.error);
    }
    var limitKeys := parsed.value;
    if |limitKeys| == 0 {
      return Failure(NoLimitKeys);
    }
    var limitByHeader := json.limitByHeader.GetOr("");
    var limitByParam := json.limitByParam.GetOr("");
    var emptyHeader := limitByHeader == "";
    var emptyParam := limitByParam == "";
    if (emptyHeader && emptyParam) || (!emptyHeader && !emptyParam) {
      return Failure(HeaderXorParam);
    }
    return Success(KeyRateLimitConfig(ruleId, limitKeys, limitByHeader, limitByParam));
  }

  /** The global rule table, the store afterwards, and whether every bucket was initialized. */
  datatype Registered = Registered(limits: map<int, seq<LimitItem>>, after: Shared, ok: bool)

  /**
   * The registration loop of `parseConfig`: each item is appended to rule
   * `ruleId`'s list and its bucket initialized, stopping at the first
   * initialization that fails.
   */
  function Register(limits: map<int, seq<LimitItem>>, s: Shared, ruleId: int, items: seq<LimitItem>): (r: Registered)
    requires WellFormed(s)
    ensures WellFormed(r.after)
    ensures r.limits.Keys <= limits.Keys + {ruleId}
    decreases |items|
  {
    if items == [] then Registered(limits, s, true)
    else
      var listed := limits[ruleId := if ruleId in limits then limits[ruleId] + [items[0]] else [items[0]]];
      var w := InitializeBucket(s, ruleId, items[0]);
      if !w.ok then Registered(listed, w.after, false)
      else Register(listed, w.after, ruleId, items[1..])
  }

  /** One step of the registration loop, at position `n`. */
  lemma RegisterStep(limits: map<int, seq<LimitItem>>, s: Shared, ruleId: int, items: seq<LimitItem>, n: nat)
    requires WellFormed(s) && n < |items|
    ensures var listed := limits[ruleId := if ruleId in limits then limits[ruleId] + [items[n]] else [items[n]]];
      var w := InitializeBucket(s, ruleId, items[n]);
      Register(limits, s, ruleId, items[n..])
        == if !w.ok then Registered(listed, w.after, false) else Register(listed, w.after, ruleId, items[n + 1..])
  {
    assert items[n..][1..] == items[n + 1..];
  }

  /** Rules listed under ids below `cur`, plus rule `cur`, all have ids below `cur + 1`. */
  lemma IdsStayBelow(before: map<int, seq<LimitItem>>, after: map<int, seq<LimitItem>>, cur: int)
    requires cur >= 0 && (forall id :: id in before ==> 0 <= id < cur)
    requires after.Keys <= before.Keys + {cur}
    ensures forall id :: id in after ==> 0 <= id < cur + 1
  {
  }

  /** The response sent to a request that is refused. */
  datatype Reply = Reply(status: nat, body: string)

  const TooManyRequests: Reply := Reply(429, "Too many requests,rate_limited\n")

  /** The plugin's global state: the next rule id, the timer flag and the rules to refill. */
  class Registry {
    var ruleId: int
    var setTick: bool
    var limits: map<int, seq<LimitItem>>

    /** Every registered rule has an id already handed out. */
    ghost predicate Valid()
      reads this
    {
      && ruleId >= 0
      && (forall id :: id in limits ==> 0 <= id < ruleId)
    }

    constructor ()
      ensures Valid()
      ensures ruleId == 0 && !setTick && limits == map[]
    {
      ruleId, setTick, limits := 0, false, map[];
    }

    /**
     * `parseConfig`. `order` is the order in which the validated key map is
     * iterated; `tickAccepted` is the host's answer to the first request for
     * a timer.
     */
    method ParseConfig(json: ConfigJson, store: SharedStore, order: seq<string>, tickAccepted: bool)
      returns (r: Result<KeyRateLimitConfig, ConfigError>)
      requires Valid() && store.Valid() && WellFormed(store.State())
      requires ValidateConfig(json, ruleId).Success? ==>
        Enumerates(order, ValidateConfig(json, ruleId).value.limitKeys.Keys)
      modifies this, store
      ensures Valid() && store.Valid() && WellFormed(store.State())
      ensures var v := ValidateConfig(json, old(ruleId));
        v.Failure? ==>
          && r == Failure(v.error)
          && ruleId == old(ruleId) && limits == old(limits) && setTick == old(setTick)
          && store.State() == old(store.State())
      ensures var v := ValidateConfig(json, old(ruleId));
        v.Success? ==>
          var g := Register(old(limits), old(store.State()), old(ruleId), InOrder(v.value.limitKeys, order));
          // the rule id handed out has no entry yet, so the rule's list starts empty
          && old(ruleId) !in old(limits)
          && ruleId == old(ruleId) + 1
          && limits == g.limits && store.State() == g.after
          && (!g.ok ==> r == Failure(InitializeFailed) && setTick == old(setTick))
          && (g.ok ==> setTick && r == if !old(setTick) && !tickAccepted then Failure(TickPeriodFailed) else Success(v.value))
    {
      var validated := Validate(json, ruleId);
      if validated.Failure? {
        return Failure(validated.error);
      }
      r := Install(validated.value, store, InOrder(validated.value.limitKeys, order), tickAccepted);
    }

    /**
     * The part of `parseConfig` after validation: hand out the rule id,
     * register the rule's items in the order `items` and set the timer once.
     */
    method Install(config: KeyRateLimitConfig, store: SharedStore, items: seq<LimitItem>, tickAccepted: bool)
      returns (r: Result<KeyRateLimitConfig, ConfigError>)
      requires Valid() && store.Valid() && WellFormed(store.State())
      requires config.ruleId == ruleId
      modifies this, store
      ensures Valid()
      ensures store.Valid()
      ensures WellFormed(store.State())
      ensures var g := Register(old(limits), old(store.State()), old(ruleId), items);
        && old(ruleId) !in old(limits)
        && ruleId == old(ruleId) + 1
        && limits == g.limits && store.State() == g.after
        && (!g.ok ==> r == Failure(InitializeFailed) && setTick == old(setTick))
        && (g.ok ==> setTick && r == if !old(setTick) && !tickAccepted then Failure(TickPeriodFailed) else Success(config))
    {
      var curRuleId := ruleId;
      ruleId := ruleId + 1;
      var registered := RegisterItems(store, curRuleId, items);
      IdsStayBelow(old(limits), limits, curRuleId);
      if !registered {
        return Failure(InitializeFailed);
      }
      var accepted := SetTickOnce(tickAccepted);
      r := if accepted then Success(config) else Failure(TickPeriodFailed);
    }

    /**
     * The end of `parseConfig`: the first rule to be registered asks the host
     * for a timer of period `TickMilliseconds` (500 ms); `tickAccepted` is the
     * host's answer to that request. The flag is set whatever the host
     * answers, and only that first request can be refused.
     */
    method SetTickOnce(tickAccepted: bool) returns (accepted: bool)
      modifies this`setTick
      ensures setTick
      ensures accepted <==> old(setTick) || tickAccepted
    {
      accepted := true;
      if !setTick {
        setTick := true;
        accepted := tickAccepted;
      }
    }

    /**
     * The registration loop of `parseConfig`: appends each item of
     * `limitKeys`, in the order `order`, to rule `curRuleId` and initializes
     * its bucket; fails at the first initialization that fails.
     */
    method RegisterItems(store: SharedStore, curRuleId: int, items: seq<LimitItem>)
      returns (ok: bool)
      requires store.Valid() && WellFormed(store.State())
      modifies this`limits, store
      ensures store.Valid() && WellFormed(store.State())
      ensures Registered(limits, store.State(), ok) == Register(old(limits), old(store.State()), curRuleId, items)
      ensures limits.Keys <= old(limits).Keys + {curRuleId}
    {
      ghost var goal := Register(limits, store.State(), curRuleId, items);
      assert items[0..] == items;
      var n := 0;
      while n < |items|
        invariant 0 <= n <= |items|
        invariant store.Valid() && WellFormed(store.State())
        invariant Register(limits, store.State(), curRuleId, items[n..]) == goal
      {
        var initialized := RegisterItem(store, curRuleId, items, n);
        if !initialized {
          return false;
        }
        n := n + 1;
      }
      assert items[n..] == [];
      return true;
    }

    /**
     * The body of the registration loop for the item at position `n`: list
     * it under rule `curRuleId` and initialize its bucket.
     */
    method RegisterItem(store: SharedStore, curRuleId: int, items: seq<LimitItem>, n: nat) returns (ok: bool)
      requires store.Valid() && WellFormed(store.State()) && n < |items|
      modifies this`limits, store
      ensures store.Valid() && WellFormed(store.State())
      ensures var r := Register(old(limits), old(store.State()), curRuleId, items[n..]);
        if ok then Register(limits, store.State(), curRuleId, items[n + 1..]) == r
        else Registered(limits, store.State(), false) == r
    {
      var keyItem := items[n];
      RegisterStep(limits, store.State(), curRuleId, items, n);
      if curRuleId !in limits {
        limits := limits[curRuleId := [keyItem]];
      } else {
        limits := limits[curRuleId := limits[curRuleId] + [keyItem]];
      }
      ok := InitializeTokenBucket(store, curRuleId, keyItem);
    }

    /** `onTick`: one refill pass over every registered rule, in the map order `order`. */
    method OnTick(store: SharedStore, order: seq<int>, now: U64)
      requires store.Valid() && WellFormed(store.State())
      requires Enumerates(order, limits.Keys)
      modifies store
      ensures store.Valid() && WellFormed(store.State())
      ensures store.State() == RefillRules(old(store.State()), limits, order, now)
    {
      RefillToken(store, limits, order, now);
    }
  }

  // ---------------------------------------------------------------------------
  // Requests

  /** The reply sent, if any, and the store afterwards. */
  datatype Handled = Handled(reply: Option<Reply>, after: Shared)

  /**
   * The decision of `onHttpRequestHeaders` for the limit key taken from the
   * request (`None` when the header or path could not be read): a key the
   * rule does not configure passes untouched, otherwise the request takes a
   * token and is refused with 429 when none is granted.
   */
  function Decide(s: Shared, config: KeyRateLimitConfig, key: Option<string>): (r: Handled)
    requires WellFormed(s)
    ensures WellFormed(r.after)
    // a request without a configured key passes untouched; the only reply is 429
    ensures key.None? || key.value !in config.limitKeys ==> r == Handled(None, s)
    ensures r.reply.Some? ==> r.reply.value == TooManyRequests
    ensures r.after.data.Keys == s.data.Keys
  {
    if key.None? || key.value !in config.limitKeys then Handled(None, s)
    else
      var a := Acquire(s, TokenBucketKey(config.ruleId, key.value), 0);
      Handled(if a.granted then None else Some(TooManyRequests), a.after)
  }

  /** `onHttpRequestHeaders` from the point the limit key has been read. */
  method OnHttpRequestHeaders(store: SharedStore, config: KeyRateLimitConfig, key: Option<string>)
    returns (reply: Option<Reply>)
    requires store.Valid() && WellFormed(store.State())
    modifies store
    ensures store.Valid() && WellFormed(store.State())
    ensures Handled(reply, store.State()) == Decide(old(store.State()), config, key)
  {
    if key.None? {
      return None;
    }
    var configured := key.value in config.limitKeys;
    if !configured {
      return None;
    }
    var granted := GetToken(store, config.ruleId, key.value);
    if !granted {
      return Some(TooManyRequests);
    }
    return None;
  }
}
