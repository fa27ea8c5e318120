# key-rate-limit: a Dafny model of the token-bucket engine and its configuration

The key-rate-limit plugin gives every configured rate-limit key its own token
bucket in the host's shared data. Many worker instances share those buckets
and coordinate only through the store's compare-and-swap ("cas") writes.

- `getToken` takes one token per request. It tries at most 20 times. It refuses the request on an empty bucket, and it lets the request through when every attempt is lost.
- `refillToken` runs on every timer tick. For each rule and key it claims the refill once, through the "last refilled" gate key. It then adds the refill to the bucket, up to the bucket's capacity, retrying until the write lands.
- `initializeTokenBucket` creates both keys, or resets them when they already exist.
- `parseConfig` validates a rule's JSON, hands out a rule id, lists the rule's keys in the global `limits` table, initializes their buckets and starts the timer once.
- `onHttpRequestHeaders` takes a token for a configured key and answers 429 when none is granted.

The model has the same layout:

| file | module | contents |
|---|---|---|
| `wrappers.dfy` | `Wrappers` | `Option`, `Result` |
| `codec.dfy` | `Codec` | the 8-byte little-endian `uint64` codec |
| `keys.dfy` | `Keys` | `strconv.Itoa` and the two shared-data key spellings |
| `shared_data.dfy` | `SharedData` | the versioned store; `SharedStore` is its mutable form |
| `limits.dfy` | `Limits` | the time constants, `LimitItem`, `KeyRateLimitConfig` |
| `bucket.dfy` | `Bucket` | `getToken`, `refillToken`, `initializeTokenBucket` |
| `bucket_properties.dfy` | `BucketProperties` | what the engine guarantees |
| `config.dfy` | `Config` | `parseConfig`, the global registry, `onTick`, the request decision |
| `config_properties.dfy` | `ConfigProperties` | what the configuration and the decision guarantee |

Each operation that changes state is modelled twice:

- a function of an immutable store snapshot (`Shared`), which the lemmas reason about;
- a method on the mutable `SharedStore` (or on the `Registry` of globals) that keeps the source's loops. The method's postcondition says it computes that function.

**The store.**
- A key never written has version 0.
- A write under version `cas` succeeds exactly when `cas` is the key's current version. It then stores the value under a fresh version.
- Other workers are a schedule, `pending`. Before each of our writes, the next scheduled step either lands a competing value on the same key or does nothing.
- Our own successful writes are logged in `mine`, as (key, replaced value, new value), so that "writes nothing" and "takes exactly one token" can be stated.

Because every iteration that goes round again uses up one scheduled step (a write is attempted before every retry), the source's unbounded retry loops (`for {}`) terminate with `decreases |pending|`.

## Model

| member | source | states |
|---|---|---|
| Codec.PutUint64 | key-rate-limit/bucket.go:33-34 | the encoding of a uint64 is exactly 8 bytes |
| Codec.Uint64 | key-rate-limit/bucket.go:28 | the decoder reads the first byte as the least significant one |
| Codec.Uint64IsFromLittleEndian | key-rate-limit/bucket.go:28 | the 8-byte decoder is the little-endian reading of the first eight bytes |
| Codec.LittleEndianRoundTrip | key-rate-limit/bucket.go:33-34 | reading back `n` little-endian bytes of a number below 256^n gives the number |
| Codec.FromLittleEndianRoundTrip | key-rate-limit/bucket.go:28 | re-encoding the number read from some bytes gives those bytes |
| Codec.Uint64RoundTrip | key-rate-limit/bucket.go:28-34 | decoding an encoded uint64 gives it back |
| Codec.PutUint64RoundTrip | key-rate-limit/bucket.go:28-34 | encoding the number held in 8 bytes gives the same bytes |
| Codec.PutUint64Injective | key-rate-limit/bucket.go:33-34 | distinct numbers have distinct encodings |
| Keys.Decimal | key-rate-limit/bucket.go:22 | a numeral is non-empty and made of digits |
| Keys.DecimalRoundTrip | key-rate-limit/bucket.go:22 | parsing the decimal numeral of `n` gives `n` |
| Keys.Itoa | key-rate-limit/bucket.go:22 | `strconv.Itoa` gives digits and a minus sign, the sign first exactly for negative ids |
| Keys.ItoaInjective | key-rate-limit/bucket.go:22 | distinct rule ids have distinct numerals |
| Keys.TokenBucketKey | key-rate-limit/bucket.go:22 | a bucket key starts with the rule id's numeral and ends with the limit key, with the 16-letter bucket prefix between |
| Keys.LastRefilledKey | key-rate-limit/bucket.go:47 | a gate key starts with the rule id's numeral and ends with the limit key, with the 17-letter gate prefix between |
| Keys.NumeralLengthOfPrefix | key-rate-limit/bucket.go:22 | a numeral followed by a non-numeral character can be split off |
| Keys.SplitAfterRuleId | key-rate-limit/bucket.go:22 | numeral + suffix starting with `m` splits in one way only |
| Keys.TokenBucketKeyInjective | key-rate-limit/bucket.go:22 | bucket keys of distinct (rule id, key) pairs differ |
| Keys.LastRefilledKeyInjective | key-rate-limit/bucket.go:47 | gate keys of distinct (rule id, key) pairs differ |
| Keys.TokenBucketKeyIsNeverLastRefilledKey | key-rate-limit/bucket.go:47-48 | no bucket key equals any gate key |
| SharedData.Land | key-rate-limit/bucket.go:35 | a competing write landing keeps versions consistent |
| SharedData.Read | key-rate-limit/bucket.go:24 | the entry read carries the key's current value and version; a key never written reads as missing and has version 0 |
| SharedData.Write | key-rate-limit/bucket.go:35 | a write keeps versions consistent and values 8 bytes long; it uses one step of the schedule; a write under the version just read fails exactly when a competing write landed first; it removes no key and can add only its own |
| SharedData.WriteEffect | key-rate-limit/bucket.go:35 | a successful write stores the value and logs it with the value it replaced; a failed one logs nothing; no key is removed and no other key changes |
| SharedData.OneWinner | key-rate-limit/bucket.go:60-63 | of two writes under the same read version, at most one succeeds |
| SharedData.SharedStore.GetSharedData | key-rate-limit/bucket.go:24 | returns the entry exactly when the key exists |
| SharedData.SharedStore.SetSharedData | key-rate-limit/bucket.go:35 | the store changes exactly as `Write` says and reports its success |
| Limits.NanosecondUnits | key-rate-limit/main.go:15-18 | a second is 10^9 ns; a minute is 60 seconds, an hour 60 minutes, a day 24 hours, so a day is 86 400 × 10^9 ns |
| Bucket.TryToken | key-rate-limit/bucket.go:24-39 | one attempt keeps the store well formed, uses at most one competing write and creates no key |
| Bucket.Acquire | key-rate-limit/bucket.go:21-42 | the retry loop of `getToken` keeps the store well formed and never creates a key, so a missing bucket stays missing |
| Bucket.GetToken | key-rate-limit/bucket.go:21-42 | the verdict and the new store are those of `Acquire` from attempt 0 on the bucket key of (ruleId, key) |
| Bucket.TakeToken | key-rate-limit/bucket.go:24-39 | one loop iteration does what `TryToken` says: retry, or settle with its verdict |
| Bucket.Sub64 | key-rate-limit/bucket.go:55 | Go's uint64 difference: adding the subtrahend back modulo 2^64 gives the minuend, and without a borrow it is the plain difference |
| Bucket.Replenish | key-rate-limit/bucket.go:69-73 | the refilled count is at most `maxTokens`; it is the sum when that fits; it never lowers a count that is within the cap |
| Bucket.ReplenishAsWritten | key-rate-limit/bucket.go:69-73 | the count as the source computes it, with a wrapping uint64 sum, is capped at `maxTokens` |
| Bucket.RefillBucket | key-rate-limit/bucket.go:64-81 | the bucket update loop keeps the store well formed and creates no key |
| Bucket.RefillItem | key-rate-limit/bucket.go:47-81 | one refill pass keeps the store well formed and creates no key |
| Bucket.RefillItems | key-rate-limit/bucket.go:46-82 | the passes over one rule's items keep the store well formed and create no key |
| Bucket.RefillRules | key-rate-limit/bucket.go:45-83 | the passes over every rule keep the store well formed and create no key: a limit key never initialized gets no bucket from a refill |
| Bucket.RefillToken | key-rate-limit/bucket.go:44-84 | the new store is `RefillRules` over the rules, in the map order given |
| Bucket.RefillKey | key-rate-limit/bucket.go:47-81 | one inner-loop pass leaves the store `RefillItem` says |
| Bucket.ResetKey | key-rate-limit/bucket.go:99-120 | the reset loop keeps the store well formed and creates no key |
| Bucket.InitializeBucket | key-rate-limit/bucket.go:86-123 | initialization keeps the store well formed and removes no key |
| Bucket.InitializeTokenBucket | key-rate-limit/bucket.go:86-123 | the result and the new store are those of `InitializeBucket` |
| BucketProperties.WriteKeepsBound | key-rate-limit/bucket.go:35 | a write within a bucket's bound keeps the bound |
| BucketProperties.TryTokenEffect | key-rate-limit/bucket.go:24-39 | one attempt touches only its bucket; a refusal follows a read of 0 and writes nothing; a retry writes nothing |
| BucketProperties.TryTokenTakesOneToken | key-rate-limit/bucket.go:28-39 | a granting attempt wrote once: the read count, which was positive, minus one |
| BucketProperties.AcquireDeniesOnlyOnZero | key-rate-limit/bucket.go:28-31 | `getToken` returns false only after reading 0, and then it has written nothing |
| BucketProperties.AcquireTakesAtMostOneToken | key-rate-limit/bucket.go:29-39 | `getToken` writes at most once: it takes one token from a positive count, and grants |
| BucketProperties.AcquireAttempts | key-rate-limit/bucket.go:12-23 | at most 20 attempts are made |
| BucketProperties.AcquireMeetsFewCompetitors | key-rate-limit/bucket.go:23-38 | each attempt uses at most one competing write |
| BucketProperties.AcquireFailsOpenWhenMissing | key-rate-limit/bucket.go:24-27 | a bucket that does not exist at the first read lets the request through, after all 20 attempts, writing nothing (see Left out) |
| BucketProperties.AcquireFailsOpenUnderContention | key-rate-limit/bucket.go:35-41 | when every remaining attempt loses its write to a competitor, the request passes after 20 attempts with no write of ours |
| BucketProperties.TryTokenLosesRace | key-rate-limit/bucket.go:35-38 | a write that meets a competing write goes round again |
| BucketProperties.ContendedAfterLanding | key-rate-limit/bucket.go:35-38 | after a competitor's positive count lands, the bucket holds a positive count and one fewer contended write is left |
| BucketProperties.AcquireUncontended | key-rate-limit/bucket.go:21-42 | without competition a request is granted exactly when a token is left, takes it in one attempt, and leaves count - 1 (or 0) |
| BucketProperties.TryTokenKeepsBound | key-rate-limit/bucket.go:29-35 | one attempt never raises a bucket above a bound its competitors respect |
| BucketProperties.AcquireKeepsBound | key-rate-limit/bucket.go:21-42 | `getToken` never raises a bucket above such a bound |
| BucketProperties.AcquireOnlyTouchesBucket | key-rate-limit/bucket.go:21-42 | `getToken` touches no key but its bucket |
| BucketProperties.RefillBucketAppliesOnce | key-rate-limit/bucket.go:64-81 | after a claim, the retry loop adds exactly one capped refill to an existing bucket, does nothing to a missing one, and touches nothing else |
| BucketProperties.RefillBucketKeepsBound | key-rate-limit/bucket.go:69-76 | the refill retry loop keeps a bucket within `maxTokens` |
| BucketProperties.RefillSkipsExactlyWhenNotDue | key-rate-limit/bucket.go:49-57 | a pass leaves the store unchanged if and only if the gate is missing or the interval (uint64 difference) has not elapsed |
| BucketProperties.RefillBucketAdvances | key-rate-limit/bucket.go:64-81 | the refill loop never lowers the store's version counter |
| BucketProperties.RefillBucketKeepsLog | key-rate-limit/bucket.go:64-81 | the update loop only appends to our log of writes |
| BucketProperties.RefillLostClaim | key-rate-limit/bucket.go:60-63 | a due refill whose claim loses writes nothing and leaves the bucket as it was; the claim is not retried |
| BucketProperties.RefillAfterClaim | key-rate-limit/bucket.go:58-63 | a won claim sets the gate to `now` and is our first write, replacing the old gate value |
| BucketProperties.RefillAfterClaimFillsBucket | key-rate-limit/bucket.go:64-81 | after a won claim, an existing bucket gets exactly one more write, which adds one capped refill; a missing bucket gets none |
| BucketProperties.RefillItemDue | key-rate-limit/bucket.go:55-64 | unfolding helper used by the refill proofs: a due pass claims the gate and refills the bucket only if the claim succeeds |
| BucketProperties.UncontendedWrite | key-rate-limit/bucket.go:35 | without competition, a write under the version just read succeeds and is logged with the value it replaced |
| BucketProperties.RefillOncePerInterval | key-rate-limit/bucket.go:55-63 | right after a refill at `now`, a pass less than one interval later changes nothing |
| BucketProperties.RefillItemKeepsBound | key-rate-limit/bucket.go:46-81 | a refill pass keeps a bucket within `maxTokens` when every competing write after the gate claim does; the competing write that meets the claim is unconstrained |
| BucketProperties.RefillItemKeepsGateMonotone | key-rate-limit/bucket.go:49-63 | when `now` is no earlier than the gate's time and a competing claim landing first is no earlier either, the pass leaves the gate at a time no earlier than before |
| BucketProperties.ReplenishAsWrittenEmptiesFullBucket | key-rate-limit/bucket.go:70-73 | with 2^63 tokens per refill and a full bucket of 2^63, the source's sum wraps and empties the bucket, whereas the capped sum keeps it full |
| BucketProperties.ReplenishAsWrittenAgreesWithoutOverflow | key-rate-limit/bucket.go:70-73 | when the sum does not wrap, the source's computation and the capped sum agree |
| BucketProperties.ResetKeyOutcome | key-rate-limit/bucket.go:99-109 | the reset loop succeeds exactly when the key exists; it then writes the value once, and otherwise changes nothing |
| BucketProperties.InitializeOutcome | key-rate-limit/bucket.go:86-123 | initialization fails exactly when the gate exists but the bucket does not; on success both keys exist |
| BucketProperties.InitializeResets | key-rate-limit/bucket.go:98-122 | on the reset path the gate ends at 0 and the bucket at `maxTokens` |
| BucketProperties.InitializeCreates | key-rate-limit/bucket.go:94-97 | when both the gate and the bucket are missing and neither of the next two steps is a competing write, the gate ends at 0 and the bucket at `maxTokens`, with two writes |
| BucketProperties.ReinitializeResets | key-rate-limit/bucket.go:86-123 | initializing again after a success resets the gate to 0 and the bucket to full, whatever happened in between |
| BucketProperties.InitializeAddsOnlyItsKeys | key-rate-limit/bucket.go:86-123 | initialization adds no key but the rule's refill gate and bucket |
| BucketProperties.InitializeOnlyTouchesItsKeys | key-rate-limit/bucket.go:86-123 | initialization changes the value of no key but the item's refill gate and bucket |
| BucketProperties.InitializeLeavesOtherItems | key-rate-limit/bucket.go:86-123 | initializing one (rule id, key) pair leaves the gate and bucket of every other pair as they were |
| BucketProperties.RefillItemOnlyTouchesItsKeys | key-rate-limit/bucket.go:47-81 | a refill pass changes the value of no key but the item's refill gate and bucket |
| BucketProperties.RefillItemLeavesOtherItems | key-rate-limit/bucket.go:47-81 | a refill pass for one (rule id, key) pair leaves the gate and bucket of every other pair as they were |
| BucketProperties.ItemKeys | key-rate-limit/bucket.go:45-83 | the set holds the refill gate and the bucket of every item of the rule |
| BucketProperties.RefillItemsOnlyTouchesItsKeys | key-rate-limit/bucket.go:45-83 | the passes over one rule's items change no key outside those items' gates and buckets |
| BucketProperties.RuleKeys | key-rate-limit/bucket.go:44-84 | the set holds the gates and buckets of every item of every rule visited |
| BucketProperties.RefillRulesOnlyTouchesItemKeys | key-rate-limit/bucket.go:44-84 | a whole refill pass (one timer tick, `main.go` 188-190) changes no key outside the registered items' gates and buckets |
| Config.ParseItem | key-rate-limit/main.go:55-100 | an item is refused for a missing key exactly when the key is absent or empty; an accepted item keeps its key name and has refill amount = capacity |
| Config.ParseItemPicksFirstRate | key-rate-limit/main.go:59-100 | with a key, the item is refused exactly when no rate is set; otherwise the first rate set (second, minute, hour, day) gives amount, capacity and interval |
| Config.CollectFrom | key-rate-limit/main.go:54-101 | building the map keeps every earlier key, files entries under their own non-empty names, and reports only item errors |
| Config.CollectLimitKeys | key-rate-limit/main.go:52-101 | the `limit_keys` map files every entry under its own non-empty name; its errors are item errors |
| Config.ValidateConfig | key-rate-limit/main.go:52-117 | a configuration is accepted exactly when all items parse, the map is non-empty and exactly one of header and parameter is non-empty; it then carries the given rule id and that map |
| Config.InOrder | key-rate-limit/main.go:122 | the key map's items in the iteration order given: item `i` is the entry of the `i`-th listed key |
| Config.ParseLimitKeys | key-rate-limit/main.go:52-101 | the loop builds `CollectLimitKeys` |
| Config.Validate | key-rate-limit/main.go:52-117 | the checks compute `ValidateConfig` |
| Config.Register | key-rate-limit/main.go:122-131 | registration adds no rule id to `limits` but the new one, and keeps the store well formed |
| Config.Registry.Valid | key-rate-limit/main.go:36-39 | the invariant of the globals: the next rule id is not negative and every rule in `limits` has an id below it |
| Config.Registry.constructor | key-rate-limit/main.go:36-39 | the globals start with rule id 0, an empty `limits` table and no timer |
| Config.Registry.ParseConfig | key-rate-limit/main.go:50-140 | a refused configuration changes neither the counter, `limits`, the timer nor the store; an accepted one takes a rule id that has no entry in `limits` yet, advances the counter by one, registers its items under the old counter value, reports a failed initialization, and sets the timer once |
| Config.Registry.Install | key-rate-limit/main.go:118-139 | the old counter value has no entry in `limits`; the counter goes up by one and the items are registered under its old value; the timer is set only after every bucket is initialized |
| Config.Registry.SetTickOnce | key-rate-limit/main.go:132-138 | the timer flag ends set; the request is refused only when the flag was not yet set and the host refuses the period |
| Config.Registry.RegisterItems | key-rate-limit/main.go:122-131 | the loop computes `Register` and adds no rule id but the current one |
| Config.Registry.RegisterItem | key-rate-limit/main.go:123-130 | one item is listed, then its bucket initialized, as `Register` unfolds |
| Config.Registry.OnTick | key-rate-limit/main.go:188-190 | a tick refills every registered rule, as `RefillRules` says |
| Config.Decide | key-rate-limit/main.go:170-179 | a request without a configured key passes untouched; the only reply ever sent is the 429; the decision creates no key |
| Config.OnHttpRequestHeaders | key-rate-limit/main.go:170-179 | the reply and the new store are those of `Decide` |
| ConfigProperties.CollectFromOutcome | key-rate-limit/main.go:54-101 | the map is built exactly when every item parses; otherwise the first refused item's error is returned |
| ConfigProperties.CollectFromKeys | key-rate-limit/main.go:61-91 | the map holds exactly the earlier keys and the items' key names |
| ConfigProperties.CollectFromKeeps | key-rate-limit/main.go:61-91 | an entry no later item names keeps its value |
| ConfigProperties.CollectFromLastWins | key-rate-limit/main.go:61-91 | of several items with one key name, the last one is kept |
| ConfigProperties.CollectLimitKeysSpec | key-rate-limit/main.go:52-101 | `limit_keys` is built exactly when all items parse; it holds exactly their key names, each set by the last item naming it; otherwise the first error is returned |
| ConfigProperties.KeyNamesEmpty | key-rate-limit/main.go:102-104 | accepted items always name a key |
| ConfigProperties.NoLimitKeysOnlyWhenEmpty | key-rate-limit/main.go:102-104 | "no limit keys" is reported exactly when `limit_keys` is empty |
| ConfigProperties.RegisterKeepsOtherRules | key-rate-limit/main.go:122-127 | registration changes no rule but the new one |
| ConfigProperties.RegisterAppends | key-rate-limit/main.go:122-130 | registration appends a prefix of the items to the rule's list: all of them on success, and on failure at least the item that failed |
| ConfigProperties.RegisterKeepsKeys | key-rate-limit/main.go:122-131 | registration never removes a key from the store |
| ConfigProperties.RegisterCreatesBuckets | key-rate-limit/main.go:122-131 | after a successful registration every item has its bucket and gate |
| ConfigProperties.DecideRefusesOnlyOnEmptyBucket | key-rate-limit/main.go:170-179 | a 429 is sent only for a configured key whose bucket was read empty, and then nothing was written |
| ConfigProperties.DecideTouchesOnlyItsBucket | key-rate-limit/main.go:170-179 | an unconfigured key leaves the store as it was; a configured one touches only its bucket and takes at most one token |
| ConfigProperties.DecideEmptyKeyPasses | key-rate-limit/main.go:170-173 | a request with an empty key (no parameter found) always passes untouched under a validated rule |

## Left out

- BucketProperties.AcquireFailsOpenWhenMissing: a read that finds no key uses no scheduled step, so the model never creates a key between two reads of one `getToken` call; a bucket missing at the first read stays missing for all 20 attempts, whereas in the program another worker's `initializeTokenBucket` could create it in between and a later attempt would then take a token.
- The host calls behind shared data, the timer, headers and replies are not modelled as I/O: `SetTickPeriodMilliSeconds`, `GetHttpRequestHeader`, `SendHttpResponse` and `DontReadRequestBody`. The timer's answer is the `tickAccepted` parameter. The reply is the `TooManyRequests` value, status 429 with the source's body text.
- Real concurrency is left out. Competing workers are the `pending` schedule of the store, and no threads are modelled.
- A cas of 0 is modelled as "the key must not exist". The host treats it as an unconditional write. This only matters for the create path of `initializeTokenBucket`, where the source ignores the result.
- The host's 32-bit version counter and its wrap-around are not modelled: versions are unbounded naturals.
- `time.Now()` is read once per tick, as the parameter `now`. The source reads the clock once per item.
- Bucket.RefillItem: `now` is a free parameter, so the model admits a time earlier than the one the gate holds. The uint64 difference at bucket.go:55 then wraps, the pass counts as due, and the gate moves back to `now`. The source reads the clock after reading the gate, so this needs a clock that goes backwards. RefillItemKeepsGateMonotone proves that the gate never moves back when `now` is no earlier than the gate.
- gjson parsing and `.Uint()` are not modelled. Each JSON field arrives as an optional `JsonValue`: its text and its reading as a uint64.
- Key extraction from the header, the path and the query string (main.go:143-169) is not modelled. The extracted key is an input. `None` stands for the early returns when the header or path cannot be read, or the URL cannot be parsed. `Some("")` stands for a missing parameter.
- `main()` and the wrapper registration are not modelled.
- Go map iteration order is the parameter `order`. In `parseConfig` it lists the validated key map. In `onTick` it lists the rule ids.
- `Codec.Uint64` requires at least 8 bytes. Go panics on a shorter buffer, and every value the engine stores is 8 bytes long.
- The model keeps the source's loops. Only the body of `getToken`'s retry loop (`TakeToken`), the body of `refillToken`'s inner loop (`RefillKey`) and the steps of `parseConfig` (`Validate`, `Install`, `RegisterItems`, `RegisterItem`) are split into their own methods. The `continue` statements of the loop bodies become the `settled = false` outcome.
- Bucket.RefillBucket: the model's refill uses the corrected, non-wrapping sum `Replenish` instead of the source's wrapping one. See Findings.

## Findings

| source | as written | input that shows it | evidently intended | confidence | as-written member | corrected member |
|---|---|---|---|---|---|---|
| key-rate-limit/bucket.go:70-73 | `tokenLeft += rule.tokensPerRefill` is a uint64 sum that wraps before the cap is applied | a rate of 2^63 per refill (so `maxTokens` = 2^63) and a full bucket of 2^63: the sum wraps to 0 and the refill empties the bucket | `min(tokenLeft + tokensPerRefill, maxTokens)` without wrap-around, so a refill never lowers the count | not executed | BucketProperties.ReplenishAsWrittenEmptiesFullBucket | Bucket.Replenish |
