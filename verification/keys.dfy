/**
 * The key namespace of the bucket engine: every (rule id, rate-limit key) pair
 * owns one shared-data key for its token count and one for the time of its
 * last refill, both spelled `strconv.Itoa(ruleId) + prefix + key`.
 */
module Keys {

  /** Prefix of the key holding a bucket's remaining tokens. */
  const TokenBucketPrefix: string := "mse.token_bucket"

  /** Prefix of the key holding a bucket's last refill time. */
  const LastRefilledPrefix: string := "mse.last_refilled"

  predicate IsDigit(c: char) {
    '0' <= c <= '9'
  }

  function DigitChar(d: nat): (c: char)
    requires d < 10
  {
    (48 + d) as char
  }

  function DigitValue(c: char): (d: nat)
    requires IsDigit(c)
  {
    (c as int) - 48
  }

  /** The decimal numeral of `n`, without leading zeros. */
  function Decimal(n: nat): (s: string)
    ensures |s| >= 1 && forall i :: 0 <= i < |s| ==> IsDigit(s[i])
  {
    if n < 10 then [DigitChar(n)] else Decimal(n / 10) + [DigitChar(n % 10)]
  }

  /** The value of a numeral made of digits only. */
  function ParseDecimal(s: string): (n: nat)
    requires forall i :: 0 <= i < |s| ==> IsDigit(s[i])
  {
    if s == [] then 0 else 10 * ParseDecimal(s[..|s| - 1]) + DigitValue(s[|s| - 1])
  }

  lemma {:induction false} DecimalRoundTrip(n: nat)
    ensures ParseDecimal(Decimal(n)) == n
  {
    if n >= 10 {
      var s := Decimal(n);
      assert s[..|s| - 1] == Decimal(n / 10);
      DecimalRoundTrip(n / 10);
    }
  }

  /** `strconv.Itoa`: an optional minus sign followed by the decimal numeral. */
  function Itoa(i: int): (s: string)
    ensures |s| >= 1
    ensures forall j :: 0 <= j < |s| ==> IsDigit(s[j]) || s[j] == '-'
    ensures s[0] == '-' <==> i < 0
  {
    if i < 0 then "-" + Decimal(-i) else Decimal(i)
  }

  /** Distinct integers have distinct numerals. */
  lemma ItoaInjective(a: int, b: int)
    ensures Itoa(a) == Itoa(b) ==> a == b
  {
    if a < 0 && b < 0 {
      DecimalRoundTrip(-a);
      DecimalRoundTrip(-b);
      assert Decimal(-a) == Itoa(a)[1..] && Decimal(-b) == Itoa(b)[1..];
    } else if a >= 0 && b >= 0 {
      DecimalRoundTrip(a);
      DecimalRoundTrip(b);
    }
  }

  /** Key under which bucket.go keeps the remaining tokens of `key` in rule `ruleId`. */
  function TokenBucketKey(ruleId: int, key: string): (k: string)
    ensures |k| == |Itoa(ruleId)| + |TokenBucketPrefix| + |key|
    ensures k[..|Itoa(ruleId)|] == Itoa(ruleId) && k[|k| - |key|..] == key
  {
    Itoa(ruleId) + TokenBucketPrefix + key
  }

  /** Key under which bucket.go keeps the last refill time of `key` in rule `ruleId`. */
  function LastRefilledKey(ruleId: int, key: string): (k: string)
    ensures |k| == |Itoa(ruleId)| + |LastRefilledPrefix| + |key|
    ensures k[..|Itoa(ruleId)|] == Itoa(ruleId) && k[|k| - |key|..] == key
  {
    Itoa(ruleId) + LastRefilledPrefix + key
  }

  predicate IsNumeralChar(c: char) {
    IsDigit(c) || c == '-'
  }

  /** Length of the longest prefix of `s` made of digits and minus signs. */
  function NumeralLength(s: string): (n: nat)
    ensures n <= |s|
  {
    if s == [] || !IsNumeralChar(s[0]) then 0 else 1 + NumeralLength(s[1..])
  }

  lemma {:induction false} NumeralLengthOfPrefix(u: string, p: string)
    requires forall j :: 0 <= j < |u| ==> IsNumeralChar(u[j])
    requires |p| > 0 && !IsNumeralChar(p[0])
    ensures NumeralLength(u + p) == |u|
  {
    if u != [] {
      assert (u + p)[1..] == u[1..] + p;
      NumeralLengthOfPrefix(u[1..], p);
    } else {
      assert u + p == p;
    }
  }

  /**
   * A numeral followed by a suffix that starts with a letter splits in only
   * one way: the numerals, hence the rule ids, and the suffixes agree.
   */
  lemma SplitAfterRuleId(a: int, p: string, b: int, q: string)
    requires |p| > 0 && |q| > 0 && p[0] == 'm' && q[0] == 'm'
    ensures Itoa(a) + p == Itoa(b) + q ==> a == b && p == q
  {
    NumeralLengthOfPrefix(Itoa(a), p);
    NumeralLengthOfPrefix(Itoa(b), q);
    if Itoa(a) + p == Itoa(b) + q {
      var s, m := Itoa(a) + p, |Itoa(a)|;
      assert Itoa(a) == s[..m] == Itoa(b);
      ItoaInjective(a, b);
      assert p == s[m..] == q;
    }
  }

  /** The two prefixes start alike and part at their fifth character. */
  lemma PrefixLetters()
    ensures |TokenBucketPrefix| == 16 && |LastRefilledPrefix| == 17
    ensures TokenBucketPrefix[0] == 'm' && LastRefilledPrefix[0] == 'm'
    ensures TokenBucketPrefix[4] == 't' && LastRefilledPrefix[4] == 'l'
  {
  }

  /** Two pairs share a token-bucket key only if they are the same pair. */
  lemma TokenBucketKeyInjective(a: int, k: string, b: int, l: string)
    ensures TokenBucketKey(a, k) == TokenBucketKey(b, l) ==> a == b && k == l
  {
    PrefixLetters();
    var p, q := TokenBucketPrefix + k, TokenBucketPrefix + l;
    assert TokenBucketKey(a, k) == Itoa(a) + p && TokenBucketKey(b, l) == Itoa(b) + q;
    SplitAfterRuleId(a, p, b, q);
    assert k == p[16..] && l == q[16..];
  }

  /** Two pairs share a last-refilled key only if they are the same pair. */
  lemma LastRefilledKeyInjective(a: int, k: string, b: int, l: string)
    ensures LastRefilledKey(a, k) == LastRefilledKey(b, l) ==> a == b && k == l
  {
    PrefixLetters();
    var p, q := LastRefilledPrefix + k, LastRefilledPrefix + l;
    assert LastRefilledKey(a, k) == Itoa(a) + p && LastRefilledKey(b, l) == Itoa(b) + q;
    SplitAfterRuleId(a, p, b, q);
    assert k == p[17..] && l == q[17..];
  }

  /** No token-bucket key is ever a last-refilled key, whatever the rule ids and keys. */
  lemma TokenBucketKeyIsNeverLastRefilledKey(a: int, k: string, b: int, l: string)
    ensures TokenBucketKey(a, k) != LastRefilledKey(b, l)
  {
    PrefixLetters();
    var p, q := TokenBucketPrefix + k, LastRefilledPrefix + l;
    assert TokenBucketKey(a, k) == Itoa(a) + p && LastRefilledKey(b, l) == Itoa(b) + q;
    assert p[4] != q[4];
    SplitAfterRuleId(a, p, b, q);
  }
}
