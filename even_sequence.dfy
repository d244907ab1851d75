/**
 * `generateEvenSequence` (a Van der Corput sequence): a counter of `power`
 * digits in base `base`, lowest digit first, is stepped through its values
 * and each value is read back with its digits in the opposite order. The
 * sequence opens with `base ^ power` and then lists the readings until the
 * counter wraps round to zero, so it holds every number from 1 to
 * `base ^ power` exactly once.
 */
module EvenSequence {

  function Pow(b: int, n: nat): (r: int)
    ensures b >= 1 ==> r >= 1
  {
    if n == 0 then 1 else b * Pow(b, n - 1)
  }

  /** Every digit lies in `0 .. base - 1`. */
  predicate ValidDigits(ds: seq<int>, base: int)
  {
    forall i :: 0 <= i < |ds| ==> 0 <= ds[i] < base
  }

  predicate AllZero(ds: seq<int>)
  {
    forall i :: 0 <= i < |ds| ==> ds[i] == 0
  }

  /** `increase(0)`: bumps the lowest digit and carries into the next ones; a carry out of the last digit is dropped. */
  function Increased(ds: seq<int>, base: int): (r: seq<int>)
    ensures |r| == |ds|
  {
    if ds == [] then []
    else if ds[0] + 1 >= base then [0] + Increased(ds[1..], base)
    else [ds[0] + 1] + ds[1..]
  }

  /** `getNumber`: the digits read with the first one most significant. */
  function Reading(ds: seq<int>, base: int): int
  {
    if ds == [] then 0 else Reading(ds[..|ds| - 1], base) * base + ds[|ds| - 1]
  }

  /** The `n` digits of `c` in base `base`, lowest first: the counter's state at value `c`. */
  function DigitsOf(c: nat, n: nat, base: nat): (ds: seq<int>)
    requires base >= 2
    ensures |ds| == n && ValidDigits(ds, base)
  {
    if n == 0 then [] else [c % base] + DigitsOf(c / base, n - 1, base)
  }

  /** The counter value `c` read back with its digits reversed. */
  function Reversed(c: nat, n: nat, base: nat): int
    requires base >= 2
  {
    Reading(DigitsOf(c, n, base), base)
  }

  /** The first `k` numbers the source pushes: `base ^ power`, then the readings of the counter values `1 .. k - 1`. */
  function EvenPrefix(power: nat, base: nat, k: nat): (r: seq<int>)
    requires base >= 2
    decreases k
  {
    if k <= 1 then [Pow(base, power)] else EvenPrefix(power, base, k - 1) + [Reversed(k - 1, power, base)]
  }

  /**
   * What `generateEvenSequence` returns: the pushes up to the counter's
   * wrap at `base ^ power`. With no digits or a base below 2 the counter
   * wraps at once and the result is `[0]`.
   */
  function EvenSequence(power: nat, base: nat): (r: seq<int>)
  {
    if power >= 1 && base >= 2 then EvenPrefix(power, base, Pow(base, power)) else [0]
  }

  // ---------------------------------------------------------------------------
  // Arithmetic helpers.
  // ---------------------------------------------------------------------------

  lemma DivMod(a: int, b: int, q: int)
    requires 0 <= a < b
    ensures (a + b * q) / b == q && (a + b * q) % b == a
  {
    var x := a + b * q;
    var d, m := x / b, x % b;
    assert x == b * d + m && 0 <= m < b;
    assert b * (d - q) == a - m;
    if d - q >= 1 {
      MulAtLeast(b, d - q);
    } else if d - q <= -1 {
      MulAtLeast(b, q - d);
    }
  }

  lemma MulAtLeast(b: int, k: int)
    requires b >= 0 && k >= 1
    ensures b * k >= b
  {
    assert b * k == b + b * (k - 1);
  }

  lemma MulPred(b: int, x: int)
    ensures b * (x - 1) == b * x - b
  {
  }

  lemma MulMono(b: int, x: int, y: int)
    requires b >= 0 && x <= y
    ensures b * x <= b * y
  {
    assert b * y == b * x + b * (y - x);
  }

  /** The counter's value without its lowest digit fits in one digit fewer. */
  lemma DivBelow(c: nat, n: nat, b: nat)
    requires b >= 2 && n >= 1 && c < Pow(b, n)
    ensures c / b < Pow(b, n - 1)
  {
    if c / b >= Pow(b, n - 1) {
      MulMono(b, Pow(b, n - 1), c / b);
    }
  }

  // ---------------------------------------------------------------------------
  // The counter.
  // ---------------------------------------------------------------------------

  /** Stepping `c` by one: the lowest digit either has room or rolls over to 0 and carries. */
  lemma SuccDivMod(c: nat, b: nat)
    requires b >= 2
    ensures c % b + 1 < b ==> (c + 1) % b == c % b + 1 && (c + 1) / b == c / b
    ensures c % b + 1 >= b ==> (c + 1) % b == 0 && (c + 1) / b == c / b + 1
  {
    DivModSplit(c, b);
    if c % b + 1 < b {
      DivMod(c % b + 1, b, c / b);
    } else {
      assert c + 1 == 0 + b * (c / b + 1);
      DivMod(0, b, c / b + 1);
    }
  }

  /** `increase(0)` adds one to the value the digits hold, dropping the carry out of the last digit. */
  lemma {:induction false} DigitsSucc(c: nat, n: nat, b: nat)
    requires b >= 2
    ensures Increased(DigitsOf(c, n, b), b) == DigitsOf(c + 1, n, b)
    decreases n
  {
    if n >= 1 {
      var lo, hi := c % b, c / b;
      assert DigitsOf(c, n, b) == [lo] + DigitsOf(hi, n - 1, b);
      SuccDivMod(c, b);
      if lo + 1 < b {
        assert DigitsOf(c + 1, n, b) == [lo + 1] + DigitsOf(hi, n - 1, b);
      } else {
        DigitsSucc(hi, n - 1, b);
        assert DigitsOf(c + 1, n, b) == [0] + DigitsOf(hi + 1, n - 1, b);
      }
    }
  }

  /** `base ^ n` has the same `n` lowest digits as 0. */
  lemma {:induction false} DigitsWrap(n: nat, b: nat)
    requires b >= 2
    ensures DigitsOf(Pow(b, n), n, b) == DigitsOf(0, n, b)
    decreases n
  {
    if n >= 1 {
      DivMod(0, b, Pow(b, n - 1));
      DivMod(0, b, 0);
      DigitsWrap(n - 1, b);
    }
  }

  /** One `increase(0)` moves the counter from `c` to `c + 1`, wrapping to 0 at `base ^ n`. */
  lemma IncreasedDigits(c: nat, n: nat, b: nat)
    requires b >= 2 && c < Pow(b, n)
    ensures Increased(DigitsOf(c, n, b), b) == DigitsOf(if c + 1 < Pow(b, n) then c + 1 else 0, n, b)
  {
    DigitsSucc(c, n, b);
    if c + 1 >= Pow(b, n) {
      DigitsWrap(n, b);
    }
  }

  /** The counter's value: its digits read with the first one least significant. */
  function Value(ds: seq<int>, b: int): int
  {
    if ds == [] then 0 else ds[0] + b * Value(ds[1..], b)
  }

  lemma DivModSplit(c: int, b: int)
    requires b >= 1
    ensures c % b + b * (c / b) == c
  {
  }

  /** Below the wrap, the counter's digits hold exactly the value `c`. */
  lemma {:induction false} DigitsValue(c: nat, n: nat, b: nat)
    requires b >= 2 && c < Pow(b, n)
    ensures Value(DigitsOf(c, n, b), b) == c
    decreases n
  {
    if n >= 1 {
      DivBelow(c, n, b);
      DigitsValue(c / b, n - 1, b);
      DivModSplit(c, b);
    }
  }

  /** Below the wrap, different counter values have different digits. */
  lemma DigitsInjective(c: nat, d: nat, n: nat, b: nat)
    requires b >= 2 && c < Pow(b, n) && d < Pow(b, n)
    requires DigitsOf(c, n, b) == DigitsOf(d, n, b)
    ensures c == d
  {
    DigitsValue(c, n, b);
    DigitsValue(d, n, b);
  }

  lemma {:induction false} ZeroDigits(n: nat, b: nat)
    requires b >= 2
    ensures AllZero(DigitsOf(0, n, b))
  {
    if n >= 1 {
      ZeroDigits(n - 1, b);
    }
  }

  /** With a base below 2 every `increase` carries out of every digit. */
  lemma {:induction false} IncreasedBaseOne(ds: seq<int>, b: int)
    requires b <= 1 && AllZero(ds)
    ensures AllZero(Increased(ds, b))
  {
    if ds != [] {
      IncreasedBaseOne(ds[1..], b);
    }
  }

  // ---------------------------------------------------------------------------
  // The reading.
  // ---------------------------------------------------------------------------

  lemma {:induction false} ReadingZero(ds: seq<int>, b: int)
    requires AllZero(ds)
    ensures Reading(ds, b) == 0
  {
    if ds != [] {
      ReadingZero(ds[..|ds| - 1], b);
    }
  }

  /** A reading of `n` valid digits stays below `base ^ n`. */
  lemma {:induction false} ReadingBound(ds: seq<int>, b: int)
    requires b >= 2 && ValidDigits(ds, b)
    ensures 0 <= Reading(ds, b) < Pow(b, |ds|)
  {
    if ds != [] {
      var front := ds[..|ds| - 1];
      ReadingBound(front, b);
      BoundStep(Reading(front, b), Pow(b, |front|), ds[|ds| - 1], b);
    }
  }

  /** One more digit below `b` after a reading below `p` stays below `b * p`. */
  lemma BoundStep(r: int, p: int, d: int, b: int)
    requires 0 <= r < p && 0 <= d < b
    ensures 0 <= r * b + d < b * p
  {
    MulMono(b, r, p - 1);
    MulMono(b, 0, r);
    MulPred(b, p);
  }

  /** Valid digit strings of one length with the same reading are the same. */
  lemma {:induction false} ReadingInjective(ds: seq<int>, es: seq<int>, b: int)
    requires b >= 2 && |ds| == |es| && ValidDigits(ds, b) && ValidDigits(es, b)
    requires Reading(ds, b) == Reading(es, b)
    ensures ds == es
  {
    if ds != [] {
      var n := |ds| - 1;
      var r, s := Reading(ds[..n], b), Reading(es[..n], b);
      DivMod(ds[n], b, r);
      DivMod(es[n], b, s);
      assert ds[n] + b * r == r * b + ds[n];
      assert es[n] + b * s == s * b + es[n];
      ReadingInjective(ds[..n], es[..n], b);
      assert ds == ds[..n] + [ds[n]];
      assert es == es[..n] + [es[n]];
    }
  }

  /** Reading a leading digit: it stands for `d * base ^ |rest|`. */
  lemma {:induction false} ReadingCons(d: int, rest: seq<int>, b: int)
    ensures Reading([d] + rest, b) == d * Pow(b, |rest|) + Reading(rest, b)
    decreases |rest|
  {
    if rest != [] {
      var m := |rest| - 1;
      assert ([d] + rest)[..|rest|] == [d] + rest[..m];
      ReadingCons(d, rest[..m], b);
      Distribute(d, Pow(b, m), Reading(rest[..m], b), b, rest[m]);
    }
  }

  lemma Distribute(d: int, p: int, q: int, b: int, e: int)
    ensures (d * p + q) * b + e == d * (b * p) + (q * b + e)
  {
    assert (d * p) * b == d * (b * p);
  }

  /** Non-zero counter values below the wrap read as numbers in `1 .. base ^ n - 1`, all different. */
  lemma ReversedRange(c: nat, n: nat, b: nat)
    requires b >= 2 && 1 <= c < Pow(b, n)
    ensures 1 <= Reversed(c, n, b) < Pow(b, n)
  {
    ReadingBound(DigitsOf(c, n, b), b);
    if Reversed(c, n, b) == 0 {
      ZeroDigits(n, b);
      ReadingZero(DigitsOf(0, n, b), b);
      ReadingInjective(DigitsOf(c, n, b), DigitsOf(0, n, b), b);
      DigitsInjective(c, 0, n, b);
    }
  }

  lemma ReversedInjective(c: nat, d: nat, n: nat, b: nat)
    requires b >= 2 && c < Pow(b, n) && d < Pow(b, n) && c != d
    ensures Reversed(c, n, b) != Reversed(d, n, b)
  {
    if Reversed(c, n, b) == Reversed(d, n, b) {
      ReadingInjective(DigitsOf(c, n, b), DigitsOf(d, n, b), b);
      DigitsInjective(c, d, n, b);
    }
  }

  /** The first reading after one `increase` is `base ^ (n - 1)`, so `max` is `base ^ n`. */
  lemma ReversedOne(n: nat, b: nat)
    requires b >= 2 && n >= 1
    ensures Reversed(1, n, b) == Pow(b, n - 1)
    ensures Reversed(1, n, b) * b == Pow(b, n)
  {
    DivMod(1, b, 0);
    assert DigitsOf(1, n, b) == [1] + DigitsOf(0, n - 1, b);
    ZeroDigits(n - 1, b);
    ReadingZero(DigitsOf(0, n - 1, b), b);
    ReadingCons(1, DigitsOf(0, n - 1, b), b);
    assert Pow(b, n - 1) * b == Pow(b, n);
  }

  lemma {:induction false} EvenPrefixAt(power: nat, base: nat, k: nat, i: nat)
    requires base >= 2 && 1 <= k && i < k
    ensures |EvenPrefix(power, base, k)| == k
    ensures EvenPrefix(power, base, k)[i] == if i == 0 then Pow(base, power) else Reversed(i, power, base)
    decreases k
  {
    if k > 1 {
      EvenPrefixAt(power, base, k - 1, if i < k - 1 then i else 0);
    }
  }

  /** Entry `i` of the sequence: `base ^ power` first, then the reversed counter values. */
  lemma EvenSequenceEntry(power: nat, base: nat, i: nat)
    requires power >= 1 && base >= 2 && i < Pow(base, power)
    ensures |EvenSequence(power, base)| == Pow(base, power)
    ensures EvenSequence(power, base)[i] == if i == 0 then Pow(base, power) else Reversed(i, power, base)
    ensures 1 <= EvenSequence(power, base)[i] <= Pow(base, power)
  {
    EvenPrefixAt(power, base, Pow(base, power), i);
    if i >= 1 {
      ReversedRange(i, power, base);
    }
  }

  /**
   * The sequence has `base ^ power` entries, opens with `base ^ power`, and
   * its entries are different numbers in `1 .. base ^ power`: a permutation
   * of that range.
   */
  lemma EvenSequencePermutation(power: nat, base: nat)
    requires power >= 1 && base >= 2
    ensures var r := EvenSequence(power, base);
            |r| == Pow(base, power) && r[0] == Pow(base, power)
            && (forall i :: 0 <= i < |r| ==> 1 <= r[i] <= Pow(base, power))
            && (forall i, j :: 0 <= i < j < |r| ==> r[i] != r[j])
  {
    var r := EvenSequence(power, base);
    EvenSequenceEntry(power, base, 0);
    forall i | 0 <= i < |r| ensures 1 <= r[i] <= Pow(base, power) {
      EvenSequenceEntry(power, base, i);
    }
    forall i, j | 0 <= i < j < |r| ensures r[i] != r[j] {
      EvenSequenceEntry(power, base, i);
      EvenSequenceEntry(power, base, j);
      ReversedRange(j, power, base);
      if i >= 1 {
        ReversedInjective(i, j, power, base);
      }
    }
  }

  /** The state of the source's loop after `k` pushes. */
  ghost predicate Counting(ds: seq<int>, number: int, numbers: seq<int>, k: nat, power: nat, base: nat)
    requires base >= 2
  {
    var top := Pow(base, power);
    1 <= k <= top && ds == DigitsOf(if k < top then k else 0, power, base) && number == Reading(ds, base)
    && (number != 0 <==> k < top) && numbers == EvenPrefix(power, base, k)
  }

  /**
   * The state before the loop: one `increase` from all zeros, and `max`
   * pushed. With no digits or a base below 2 the counter is back at zero
   * at once.
   */
  lemma CountingStart(zeros: seq<int>, power: nat, base: nat)
    requires |zeros| == power && AllZero(zeros)
    ensures var ds := Increased(zeros, base);
            if power >= 1 && base >= 2 then Counting(ds, Reading(ds, base), [Reading(ds, base) * base], 1, power, base)
            else Reading(ds, base) == 0
  {
    if power >= 1 && base >= 2 {
      ZeroDigits(power, base);
      assert zeros == DigitsOf(0, power, base);
      IncreasedDigits(0, power, base);
      ReversedOne(power, base);
      MulAtLeast(base, Pow(base, power - 1));
    } else {
      if power >= 1 {
        IncreasedBaseOne(zeros, base);
      }
      ReadingZero(Increased(zeros, base), base);
    }
  }

  /** One round of the source's loop: push the reading, step the counter, read it again. */
  lemma CountingStep(ds: seq<int>, number: int, numbers: seq<int>, k: nat, power: nat, base: nat,
                     next: seq<int>, nextNumber: int, nextNumbers: seq<int>, nextK: nat)
    requires base >= 2 && Counting(ds, number, numbers, k, power, base) && number != 0
    requires next == Increased(ds, base) && nextNumber == Reading(next, base)
    requires nextNumbers == numbers + [number] && nextK == k + 1
    ensures Counting(next, nextNumber, nextNumbers, nextK, power, base)
  {
    var top := Pow(base, power);
    IncreasedDigits(k, power, base);
    if k + 1 < top {
      ReversedRange(k + 1, power, base);
    } else {
      ZeroDigits(power, base);
      ReadingZero(DigitsOf(0, power, base), base);
    }
  }

  // ---------------------------------------------------------------------------
  // The source's procedure.
  // ---------------------------------------------------------------------------

  /** `increase(digit)`: the digits from `digit` on are stepped, the ones before it left alone. */
  method Increase(digits: array<int>, digit: nat, base: nat)
    requires digit <= digits.Length
    modifies digits
    ensures digits[..] == old(digits[..digit]) + Increased(old(digits[digit..]), base)
    decreases digits.Length - digit
  {
    if digit >= digits.Length {
      return;
    }
    ghost var before := digits[..];
    digits[digit] := digits[digit] + 1;
    if digits[digit] >= base {
      digits[digit] := 0;
      ghost var mid := digits[..];
      assert mid[..digit + 1] == before[..digit] + [0];
      assert mid[digit + 1..] == before[digit + 1..] == before[digit..][1..];
      Increase(digits, digit + 1, base);
    } else {
      assert digits[..] == before[..digit] + ([before[digit] + 1] + before[digit..][1..]);
    }
  }

  /** `getNumber`: the digits read with the first one most significant. */
  method GetNumber(digits: array<int>, base: nat) returns (sum: int)
    ensures sum == Reading(digits[..], base)
  {
    sum := 0;
    var i := 0;
    while i < digits.Length
      invariant 0 <= i <= digits.Length
      invariant sum == Reading(digits[..i], base)
    {
      sum := sum * base;
      sum := sum + digits[i];
      assert digits[..i + 1][..i] == digits[..i];
      i := i + 1;
    }
    assert digits[..] == digits[..digits.Length];
  }

  /** `increase(0)` followed by `getNumber()`: the counter steps once and is read again. */
  method Advance(digits: array<int>, base: nat) returns (number: int)
    modifies digits
    ensures digits[..] == Increased(old(digits[..]), base)
    ensures number == Reading(digits[..], base)
  {
    assert digits[0..] == digits[..] && digits[..0] == [];
    Increase(digits, 0, base);
    number := GetNumber(digits, base);
  }

  /** `generateEvenSequence(power, base)`. */
  method GenerateEvenSequence(power: nat, base: nat) returns (numbers: seq<int>)
    ensures numbers == EvenSequence(power, base)
  {
    var digits := new int[power](_ => 0);
    ghost var valid := power >= 1 && base >= 2;
    ghost var zeros := digits[..];
    assert AllZero(zeros);
    CountingStart(zeros, power, base);
    var number := Advance(digits, base);
    var max := number * base;
    numbers := [max];
    ghost var k := 1;
    while number != 0
      invariant !valid ==> number == 0 && numbers == [0]
      invariant valid ==> digits.Length == power && Counting(digits[..], number, numbers, k, power, base)
      decreases if valid then Pow(base, power) - k else 0
    {
      ghost var (before, pushed, was, count) := (digits[..], numbers, number, k);
      numbers := numbers + [number];
      number := Advance(digits, base);
      k := k + 1;
      CountingStep(before, was, pushed, count, power, base, digits[..], number, numbers, k);
    }
  }
}
