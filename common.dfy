/**
 * Shared vocabulary for the model: optional values, JavaScript objects used
 * as ordered dictionaries, decimal numerals and the few numeric helpers the
 * source takes from `Math` and lodash.
 */
module Common {

  datatype Option<+T> = None | Some(value: T)

  /** JavaScript truthiness of an optional number: `undefined` and `0` are falsy. */
  predicate Truthy(o: Option<real>)
  {
    o.Some? && o.value != 0.0
  }

  /** JavaScript truthiness of an optional string: missing and `""` are falsy. */
  predicate Named(s: Option<string>)
  {
    s.Some? && s.value != ""
  }

  /** The `o || d` idiom on an optional number. */
  function OrElse(o: Option<real>, d: real): (r: real)
    ensures Truthy(o) ==> r == o.value
    ensures !Truthy(o) ==> r == d
  {
    if Truthy(o) then o.value else d
  }

  // ---------------------------------------------------------------------------
  // Ordered dictionaries: a JavaScript object iterated in insertion order.
  // ---------------------------------------------------------------------------

  datatype Entry<V> = Entry(key: string, value: V)

  /** The entries of an object, in the order `for ... in` visits them. */
  type Dict<V> = seq<Entry<V>>

  predicate DistinctKeys<V>(d: Dict<V>)
  {
    forall i, j :: 0 <= i < j < |d| ==> d[i].key != d[j].key
  }

  function KeySet<V>(d: Dict<V>): set<string>
  {
    set i | 0 <= i < |d| :: d[i].key
  }

  /** `o[k]`: the value stored under `k`, or `undefined`. */
  function Lookup<V>(d: Dict<V>, k: string): (r: Option<V>)
    ensures r.None? <==> k !in KeySet(d)
    ensures r.Some? ==> exists i :: 0 <= i < |d| && d[i] == Entry(k, r.value)
  {
    if d == [] then None
    else if d[0].key == k then Some(d[0].value)
    else
      var r := Lookup(d[1..], k);
      assert r.Some? ==> exists i :: 0 <= i < |d| && d[i] == Entry(k, r.value) by {
        if r.Some? {
          var i :| 0 <= i < |d[1..]| && d[1..][i] == Entry(k, r.value);
          assert d[i + 1] == Entry(k, r.value);
        }
      }
      KeySetCons(d);
      r
  }

  /** `o[k] = v`: overwrites an existing key in place, otherwise appends it last. */
  function Put<V>(d: Dict<V>, k: string, v: V): (r: Dict<V>)
    ensures |r| == if k in KeySet(d) then |d| else |d| + 1
  {
    if d == [] then [Entry(k, v)]
    else if d[0].key == k then
      KeySetCons(d);
      [Entry(k, v)] + d[1..]
    else
      KeySetCons(d);
      [d[0]] + Put(d[1..], k, v)
  }

  lemma {:induction false} PutKeys<V>(d: Dict<V>, k: string, v: V)
    ensures KeySet(Put(d, k, v)) == KeySet(d) + {k}
    ensures k !in KeySet(d) ==> Put(d, k, v) == d + [Entry(k, v)]
  {
    if d != [] {
      KeySetCons(d);
      var r := Put(d, k, v);
      KeySetCons(r);
      if d[0].key == k {
        assert r[1..] == d[1..];
      } else {
        PutKeys(d[1..], k, v);
        assert r[1..] == Put(d[1..], k, v);
      }
    } else {
      KeySetCons(Put(d, k, v));
    }
  }

  lemma {:induction false} PutDistinct<V>(d: Dict<V>, k: string, v: V)
    requires DistinctKeys(d)
    ensures DistinctKeys(Put(d, k, v))
  {
    if d != [] {
      var r := Put(d, k, v);
      if d[0].key != k {
        PutDistinct(d[1..], k, v);
        PutKeys(d[1..], k, v);
        assert r[1..] == Put(d[1..], k, v);
        forall j | 1 <= j < |r| ensures r[j].key != r[0].key {
          assert r[j].key in KeySet(r[1..]);
          assert d[0].key !in KeySet(d[1..]);
        }
      }
    }
  }

  /** `delete o[k]`. */
  function Remove<V>(d: Dict<V>, k: string): (r: Dict<V>)
    ensures forall j :: j != k ==> Lookup(r, j) == Lookup(d, j)
    ensures k !in KeySet(r)
    ensures KeySet(r) <= KeySet(d)
  {
    if d == [] then []
    else
      var rest := Remove(d[1..], k);
      KeySetCons(d);
      if d[0].key == k then
        rest
      else
        KeySetCons([d[0]] + rest);
        assert ([d[0]] + rest)[1..] == rest;
        [d[0]] + rest
  }

  lemma KeySetCons<V>(d: Dict<V>)
    requires d != []
    ensures KeySet(d) == {d[0].key} + KeySet(d[1..])
  {
    forall k ensures k in KeySet(d) <==> k in {d[0].key} + KeySet(d[1..]) {
      if k in KeySet(d) && k != d[0].key {
        var i :| 0 <= i < |d| && d[i].key == k;
        assert d[1..][i - 1].key == k;
      }
      if k in KeySet(d[1..]) {
        var i :| 0 <= i < |d[1..]| && d[1..][i].key == k;
        assert d[i + 1].key == k;
      }
    }
  }

  lemma {:induction false} LookupPut<V>(d: Dict<V>, k: string, v: V, j: string)
    ensures Lookup(Put(d, k, v), j) == if j == k then Some(v) else Lookup(d, j)
  {
    if d != [] && d[0].key != k {
      LookupPut(d[1..], k, v, j);
    }
  }

  /** The `o[k] || 0` idiom on a dictionary of amounts. */
  function AmountOf(d: Dict<real>, k: string): real
  {
    match Lookup(d, k)
    case None => 0.0
    case Some(v) => v
  }

  /** `_.sum(o)`: the sum of all stored amounts. */
  function SumValues(d: Dict<real>): real
  {
    if d == [] then 0.0 else d[0].value + SumValues(d[1..])
  }

  lemma {:induction false} SumPut(d: Dict<real>, k: string, v: real)
    ensures SumValues(Put(d, k, v)) == SumValues(d) - AmountOf(d, k) + v
  {
    if d != [] && d[0].key != k {
      SumPut(d[1..], k, v);
    }
  }

  /** `Object.keys(o)`, in iteration order. */
  function KeysOf<V>(d: Dict<V>): (ks: seq<string>)
    ensures |ks| == |d|
    ensures forall i :: 0 <= i < |d| ==> ks[i] == d[i].key
  {
    seq(|d|, i requires 0 <= i < |d| => d[i].key)
  }

  predicate NonNegative(d: Dict<real>)
  {
    forall i :: 0 <= i < |d| ==> d[i].value >= 0.0
  }

  /** With non-negative amounts, one key never holds more than the whole object. */
  lemma {:induction false} AmountAtMostSum(d: Dict<real>, k: string)
    ensures NonNegative(d) ==> 0.0 <= AmountOf(d, k) <= SumValues(d)
  {
    if d != [] && NonNegative(d) {
      assert NonNegative(d[1..]) by {
        forall i | 0 <= i < |d[1..]| ensures d[1..][i].value >= 0.0 {
          assert d[1..][i] == d[i + 1];
        }
      }
      AmountAtMostSum(d[1..], k);
      SumNonNegative(d[1..]);
    }
  }

  lemma {:induction false} SumNonNegative(d: Dict<real>)
    ensures NonNegative(d) ==> SumValues(d) >= 0.0
  {
    if d != [] && NonNegative(d) {
      assert NonNegative(d[1..]) by {
        forall i | 0 <= i < |d[1..]| ensures d[1..][i].value >= 0.0 {
          assert d[1..][i] == d[i + 1];
        }
      }
      SumNonNegative(d[1..]);
    }
  }

  // ---------------------------------------------------------------------------
  // Numbers
  // ---------------------------------------------------------------------------

  function Min(a: real, b: real): real { if a <= b then a else b }

  function Max(a: real, b: real): real { if a >= b then a else b }

  /** `minMax(x, lo, hi)`: `Math.max(Math.min(x, hi), lo)`. */
  function Clamp(x: real, lo: real, hi: real): (r: real)
    ensures r >= lo
    ensures lo <= hi ==> r <= hi
    ensures lo <= x <= hi ==> r == x
  {
    Max(Min(x, hi), lo)
  }

  /** `Math.ceil` on an exact real. */
  function Ceil(x: real): (r: int)
    ensures x <= r as real < x + 1.0
  {
    if x.Floor as real == x then x.Floor else x.Floor + 1
  }

  // ---------------------------------------------------------------------------
  // Decimal numerals: `n.toString()` and `parseInt(s, 10)` on digit strings.
  // ---------------------------------------------------------------------------

  predicate IsDigit(c: char) { '0' <= c <= '9' }

  predicate AllDigits(s: string) { forall i :: 0 <= i < |s| ==> IsDigit(s[i]) }

  function DigitChar(d: nat): (c: char)
    requires d < 10
    ensures IsDigit(c)
  {
    (48 + d) as char
  }

  /** The decimal numeral of `n`, without leading zeros. */
  function NatToString(n: nat): (s: string)
    ensures |s| > 0 && AllDigits(s)
    decreases n
  {
    if n < 10 then [DigitChar(n)] else NatToString(n / 10) + [DigitChar(n % 10)]
  }

  /** `x.toString()` for an integer: a minus sign in front of negative values. */
  function IntToString(x: int): string
  {
    if x < 0 then "-" + NatToString(-x) else NatToString(x)
  }

  /** The value of a string of decimal digits (leading zeros allowed). */
  function DigitsValue(s: string): nat
    requires AllDigits(s)
  {
    if s == [] then 0 else DigitsValue(s[..|s| - 1]) * 10 + (s[|s| - 1] as int - 48)
  }

  lemma {:induction false} DecimalRoundTrip(n: nat)
    ensures DigitsValue(NatToString(n)) == n
    decreases n
  {
    if n >= 10 {
      DecimalRoundTrip(n / 10);
      var s := NatToString(n);
      assert s[..|s| - 1] == NatToString(n / 10);
    }
  }

  lemma NatToStringInjective(a: nat, b: nat)
    ensures NatToString(a) == NatToString(b) ==> a == b
  {
    DecimalRoundTrip(a);
    DecimalRoundTrip(b);
  }

  /** The whole of a sequence, taken as a prefix. */
  lemma PrefixWhole<T>(s: seq<T>)
    ensures s[..|s|] == s
  {
  }

  /** Growing a prefix by one keeps the shorter prefix at its head. */
  lemma PrefixGrow<T>(s: seq<T>, i: nat)
    requires i < |s|
    ensures s[..i + 1][..i] == s[..i]
  {
  }

  /** A non-empty sequence is its front followed by its last element. */
  lemma FrontLast<T>(s: seq<T>)
    requires s != []
    ensures s[..|s| - 1] + [s[|s| - 1]] == s
  {
  }
}
