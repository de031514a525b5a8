/** Positional numerals: the numbers digit strings stand for, and how they compare. */
module Numerals {
  function Pow(base: nat, n: nat): (p: nat)
    ensures base >= 1 ==> p >= 1
  {
    if n == 0 then 1 else
      var p := Pow(base, n - 1);
      AtLeastOnceIfAny(base, p);
      base * p
  }

  predicate Below(digits: seq<nat>, base: nat) {
    forall i :: 0 <= i < |digits| ==> digits[i] < base
  }

  /** The number a digit string spells, most significant digit first. */
  function Value(base: nat, digits: seq<nat>): nat {
    if digits == [] then 0 else digits[0] * Pow(base, |digits| - 1) + Value(base, digits[1..])
  }

  // Arithmetic the proofs need

  lemma AtLeastOnceIfAny(k: nat, d: nat)
    ensures k >= 1 && d >= 1 ==> k * d >= 1
  {
  }

  lemma AtLeastOnce(k: int, d: nat)
    requires k >= 1
    ensures k * d >= d
  {
    assert (k - 1) * d >= 0;
  }

  lemma Distributes(a: int, b: int, d: nat)
    ensures (a - b) * d == a * d - b * d
  {
  }

  lemma Remainder(n: int, d: nat, q: int, r: int)
    requires d >= 1 && n == q * d + r && 0 <= r < d
    ensures n % d == r && n / d == q
  {
    var q', r' := n / d, n % d;
    assert q * d - q' * d == r' - r;
    if q > q' {
      AtLeastOnce(q - q', d);
      Distributes(q, q', d);
    } else if q < q' {
      AtLeastOnce(q' - q, d);
      Distributes(q', q, d);
    }
  }

  /** One digit of a division: its quotient by `w` gives the next digit. */
  lemma SplitDigit(now: int, base: nat, w: nat)
    requires w >= 1 && base >= 1
    ensures base * w >= 1 && now % (base * w) == now / w % base * w + now % w
  {
    var q, r := now / w, now % w;
    var a, b := q / base, q % base;
    assert now == q * w + r;
    assert q * w == a * (base * w) + b * w by {
      assert q == a * base + b;
      assert (a * base) * w == a * (base * w);
    }
    Distributes(base, b, w);
    AtLeastOnce(base - b, w);
    Remainder(now, base * w, a, b * w + r);
  }

  /** Two numbers in digits of weight `w` compare by their leading digits first. */
  lemma LeadingDigits(a: nat, b: nat, x: nat, y: nat, w: nat)
    requires x < w && y < w && a * w + x < b * w + y
    ensures a < b || (a == b && x < y)
  {
    if a > b {
      AtLeastOnce(a - b, w);
      Distributes(a, b, w);
      assert false;
    }
  }

  // Digit strings

  lemma {:induction false} ValueBound(base: nat, digits: seq<nat>)
    requires Below(digits, base)
    ensures Value(base, digits) < Pow(base, |digits|)
  {
    if digits != [] {
      ValueBound(base, digits[1..]);
      var w := Pow(base, |digits| - 1);
      Distributes(base, digits[0], w);
      AtLeastOnce(base - digits[0], w);
    }
  }

  /** Of two digit strings of one length, the smaller number has the smaller first
      differing digit. */
  lemma ValueOrder(base: nat, a: seq<nat>, b: seq<nat>)
    requires |a| == |b| && Below(a, base) && Below(b, base)
    requires Value(base, a) < Value(base, b)
    ensures a != [] && (a[0] < b[0] || (a[0] == b[0] && Value(base, a[1..]) < Value(base, b[1..])))
  {
    hide Pow;
    ValueBound(base, a[1..]);
    ValueBound(base, b[1..]);
    LeadingDigits(a[0], b[0], Value(base, a[1..]), Value(base, b[1..]), Pow(base, |a| - 1));
  }

  /** Digit strings of one length that spell one number are the same string. */
  lemma {:induction false} ValueInjective(base: nat, a: seq<nat>, b: seq<nat>)
    requires |a| == |b| && Below(a, base) && Below(b, base)
    requires Value(base, a) == Value(base, b)
    ensures a == b
  {
    hide Pow;
    if a != [] {
      ValueBound(base, a[1..]);
      ValueBound(base, b[1..]);
      var w := Pow(base, |a| - 1);
      Remainder(Value(base, a), w, a[0], Value(base, a[1..]));
      Remainder(Value(base, b), w, b[0], Value(base, b[1..]));
      ValueInjective(base, a[1..], b[1..]);
    }
  }

  lemma {:induction false} PowAdd(base: nat, m: nat, n: nat)
    ensures Pow(base, m + n) == Pow(base, m) * Pow(base, n)
  {
    if m != 0 {
      PowAdd(base, m - 1, n);
      assert base * (Pow(base, m - 1) * Pow(base, n)) == (base * Pow(base, m - 1)) * Pow(base, n);
    }
  }

  lemma Regroup(x: nat, w: nat, y: nat, v: nat)
    ensures (x * w + y) * v == x * (w * v) + y * v
  {
    assert (x * w) * v == x * (w * v);
  }

  lemma {:induction false} ValueConcat(base: nat, a: seq<nat>, b: seq<nat>)
    ensures Value(base, a + b) == Value(base, a) * Pow(base, |b|) + Value(base, b)
  {
    if a == [] {
      assert a + b == b;
    } else {
      hide Pow;
      assert (a + b)[1..] == a[1..] + b;
      ValueConcat(base, a[1..], b);
      PowAdd(base, |a| - 1, |b|);
      var w, v := Pow(base, |a| - 1), Pow(base, |b|);
      Regroup(a[0], w, Value(base, a[1..]), v);
    }
  }

  /** Dividing by the weight of the last digits leaves the leading ones. */
  lemma LeadingValue(base: nat, digits: seq<nat>, k: nat)
    requires Below(digits, base) && base >= 1 && k <= |digits|
    ensures Value(base, digits) / Pow(base, |digits| - k) == Value(base, digits[..k])
    ensures Value(base, digits) % Pow(base, |digits| - k) == Value(base, digits[k..])
  {
    hide Pow, Value;
    assert digits == digits[..k] + digits[k..];
    ValueConcat(base, digits[..k], digits[k..]);
    ValueBound(base, digits[k..]);
    Remainder(Value(base, digits), Pow(base, |digits| - k), Value(base, digits[..k]), Value(base, digits[k..]));
  }

  /** Digit strings agree on their bits above the last `free` exactly when they agree on the
      whole digits there and on the leading bits of the next one. */
  lemma LeadingBits(bits: nat, a: seq<nat>, b: seq<nat>, k: nat, m: nat, free: nat)
    requires |a| == |b| && Below(a, Pow(2, bits)) && Below(b, Pow(2, bits))
    requires k < |a| && 0 < m <= bits && free == bits - m + bits * (|a| - k - 1)
    ensures Value(Pow(2, bits), a) / Pow(2, free) == Value(Pow(2, bits), b) / Pow(2, free) <==>
            a[..k] == b[..k] && a[k] / Pow(2, bits - m) == b[k] / Pow(2, bits - m)
  {
    hide Pow, Value;
    LeadingDigitBits(bits, a, k, m, free);
    LeadingDigitBits(bits, b, k, m, free);
    SplitPow(bits, m);
    var s, w := Pow(2, bits - m), Pow(2, m);
    DividedBelow(a[k], s, w);
    DividedBelow(b[k], s, w);
    var x, y := Value(Pow(2, bits), a[..k]), Value(Pow(2, bits), b[..k]);
    SameSplit(x, y, w, a[k] / s, b[k] / s);
    if x == y {
      ValueInjective(Pow(2, bits), a[..k], b[..k]);
    }
  }

  lemma SameSplit(x: nat, y: nat, w: nat, c: nat, d: nat)
    requires w >= 1 && c < w && d < w
    ensures x * w + c == y * w + d <==> x == y && c == d
  {
    if x * w + c == y * w + d {
      Remainder(x * w + c, w, x, c);
      Remainder(x * w + c, w, y, d);
    }
  }

  lemma SplitPow(bits: nat, m: nat)
    requires m <= bits
    ensures Pow(2, bits) == Pow(2, m) * Pow(2, bits - m)
  {
    PowAdd(2, m, bits - m);
  }

  lemma DividedBelow(n: nat, s: nat, w: nat)
    requires s >= 1 && n < w * s
    ensures 0 <= n / s < w
  {
    var q, r := n / s, n % s;
    assert n == q * s + r;
    if q >= w {
      Grows(w, q, s);
      assert false;
    }
  }

  lemma Grows(a: int, b: int, d: nat)
    requires a <= b
    ensures a * d <= b * d
  {
    Distributes(b, a, d);
    assert (b - a) * d >= 0;
  }

  lemma {:induction false} PowPow(bits: nat, n: nat)
    ensures Pow(Pow(2, bits), n) == Pow(2, bits * n)
  {
    if n != 0 {
      PowPow(bits, n - 1);
      PowAdd(2, bits, bits * (n - 1));
      assert bits * n == bits + bits * (n - 1);
    }
  }

  lemma DivideTwice(v: nat, x: nat, y: nat)
    requires x >= 1 && y >= 1
    ensures x * y >= 1 && v / (x * y) == v / y / x
  {
    var q, r := v / y, v % y;
    AtLeastOnceIfAny(x, y);
    NestedParts(q / x, q % x, r, x, y);
    Quotient(q, x);
    Quotient(v, y);
    var p, t := x * y, q % x * y + r;
    assert v == q / x * p + t;
    Remainder(v, p, q / x, t);
  }

  lemma Quotient(n: nat, d: nat)
    requires d >= 1
    ensures n == n / d * d + n % d && n / d >= 0 && 0 <= n % d < d
  {
  }

  lemma NestedParts(s: nat, t: nat, r: nat, x: nat, y: nat)
    requires t < x && r < y
    ensures (s * x + t) * y + r == s * (x * y) + (t * y + r)
    ensures 0 <= t * y + r < x * y
  {
    Regroup(s, x, t, y);
    Grows(t + 1, x, y);
    Distributes(t, -1, y);
  }

  lemma LeadingDigitBits(bits: nat, a: seq<nat>, k: nat, m: nat, free: nat)
    requires Below(a, Pow(2, bits)) && k < |a| && 0 < m <= bits
    requires free == bits - m + bits * (|a| - k - 1)
    ensures Value(Pow(2, bits), a) / Pow(2, free) ==
            Value(Pow(2, bits), a[..k]) * Pow(2, m) + a[k] / Pow(2, bits - m)
  {
    hide Pow, Value;
    var base, s, w, rest := Pow(2, bits), Pow(2, bits - m), Pow(2, m), |a| - (k + 1);
    SplitPow(bits, m);
    PowPow(bits, rest);
    var tail: nat := bits * rest;
    PowAdd(2, bits - m, tail);
    DivideTwice(Value(base, a), s, Pow(2, tail));
    LeadingValue(base, a, k + 1);
    assert a[..k + 1] == a[..k] + [a[k]];
    ValueConcat(base, a[..k], [a[k]]);
    OneDigit(base, a[k]);
    Triple(Value(base, a[..k]), w, s);
    DivideSum(Value(base, a[..k]) * w, a[k], s);
  }

  lemma Triple(x: nat, w: nat, s: nat)
    ensures x * (w * s) == (x * w) * s
  {
  }

  lemma OneDigit(base: nat, d: nat)
    ensures Value(base, [d]) == d && Pow(base, 1) == base
  {
    assert Value(base, [d][1..]) == 0;
    assert Pow(base, 0) == 1;
    assert Value(base, [d]) == d * 1 + 0;
  }

  lemma DivideSum(q: nat, n: nat, s: nat)
    requires s >= 1
    ensures (q * s + n) / s == q + n / s
  {
    assert q * s + n == (q + n / s) * s + n % s by {
      assert (q + n / s) * s == q * s + n / s * s;
    }
    Remainder(q * s + n, s, q + n / s, n % s);
  }

  // Bit masks

  /** `a & b` */
  function BitAnd(a: nat, b: nat): nat {
    if a == 0 || b == 0 then 0 else 2 * BitAnd(a / 2, b / 2) + a % 2 * (b % 2)
  }

  lemma {:induction false} LowMask(w: nat, k: nat)
    ensures BitAnd(w, Pow(2, k) - 1) == w % Pow(2, k)
  {
    if k != 0 {
      var p := Pow(2, k - 1);
      assert (2 * p - 1) / 2 == p - 1 && (2 * p - 1) % 2 == 1;
      LowMask(w / 2, k - 1);
      HalfRemainder(w, p);
    }
  }

  lemma HalfRemainder(w: nat, p: nat)
    requires p >= 1
    ensures w % (2 * p) == 2 * (w / 2 % p) + w % 2
  {
    var q, r := w / 2 / p, w / 2 % p;
    assert w / 2 == q * p + r;
    assert w == q * (2 * p) + (2 * r + w % 2);
    Remainder(w, 2 * p, q, 2 * r + w % 2);
  }

  /** `x` doubled, and `w` halved, `k` times. */
  function Doubled(x: nat, k: nat): nat {
    if k == 0 then x else 2 * Doubled(x, k - 1)
  }

  function Halved(w: nat, k: nat): nat {
    if k == 0 then w else Halved(w / 2, k - 1)
  }

  lemma {:induction false} DoubledIs(x: nat, k: nat)
    ensures Doubled(x, k) == x * Pow(2, k)
  {
    if k != 0 {
      DoubledIs(x, k - 1);
      Reorder(x, Pow(2, k - 1));
    }
  }

  lemma {:induction false} HalvedIs(w: nat, k: nat)
    ensures Halved(w, k) == w / Pow(2, k)
  {
    if k != 0 {
      HalvedIs(w / 2, k - 1);
      DivideTwice(w, Pow(2, k - 1), 2);
      Reorder(1, Pow(2, k - 1));
    }
  }

  lemma {:induction false} MaskDoubled(w: nat, mask: nat, k: nat)
    ensures BitAnd(w, Doubled(mask, k)) == Doubled(BitAnd(Halved(w, k), mask), k)
  {
    hide BitAnd;
    if k != 0 {
      MaskDoubled(w / 2, mask, k - 1);
      ShiftOnce(w, Doubled(mask, k - 1));
    }
  }

  lemma ShiftedMask(w: nat, mask: nat, k: nat)
    ensures BitAnd(w, mask * Pow(2, k)) == BitAnd(w / Pow(2, k), mask) * Pow(2, k)
  {
    hide BitAnd, Doubled, Halved, Pow;
    DoubledIs(mask, k);
    HalvedIs(w, k);
    MaskDoubled(w, mask, k);
    DoubledIs(BitAnd(Halved(w, k), mask), k);
  }

  lemma Reorder(a: int, b: int)
    ensures a * (2 * b) == 2 * (a * b) && b * 2 == 2 * b
  {
  }

  lemma ShiftOnce(w: nat, b: nat)
    ensures BitAnd(w, 2 * b) == 2 * BitAnd(w / 2, b)
  {
    assert 2 * b / 2 == b && 2 * b % 2 == 0;
    if w == 0 || b == 0 {
    } else {
      assert w % 2 * 0 == 0;
    }
  }

  /** Comparing the bits under a mask of the leading bits of a word compares prefixes. */
  lemma HighMask(w: nat, bits: nat, k: nat, c: nat)
    requires w < Pow(2, bits) && k <= bits
    ensures var p := Pow(2, k);
            Pow(2, bits) >= p && (BitAnd(w, Pow(2, bits) - p) == c * p <==> w / p == c)
  {
    hide Pow, BitAnd;
    var p, m := Pow(2, k), Pow(2, bits - k);
    SplitPow(bits, bits - k);
    Distributes(m, 1, p);
    assert (m - 1) * p == Pow(2, bits) - p;
    ShiftedMask(w, m - 1, k);
    LowMask(w / p, bits - k);
    DividedBelow(w, p, m);
    Remainder(w / p, m, 0, w / p);
    if w / p * p == c * p {
      Remainder(c * p, p, c, 0);
      Remainder(c * p, p, w / p, 0);
    }
  }

  // Printed numerals

  function Digit(n: nat): char
    requires n < 16
  {
    "0123456789abcdef"[n]
  }

  lemma DigitsAscend(m: nat, n: nat)
    requires m < 16 && n < 16
    ensures m < n <==> Digit(m) < Digit(n)
    ensures m == n <==> Digit(m) == Digit(n)
  {
    DigitCode(m);
    DigitCode(n);
  }

  lemma DigitCode(m: nat)
    requires m < 16
    ensures Digit(m) as int == if m < 10 then m + 48 else m + 87
  {
  }

  predicate IsHexDigit(c: char) {
    '0' <= c <= '9' || 'a' <= c <= 'f'
  }

  function DigitValue(c: char): (n: nat)
    requires IsHexDigit(c)
    ensures n < 16 && Digit(n) == c
  {
    var n := if c <= '9' then c as int - 48 else c as int - 87;
    DigitCode(n);
    n
  }

  lemma Shrinks(n: nat, base: nat)
    requires base >= 2
    ensures 0 <= n / base && (n > 0 ==> n / base < n)
  {
    var q := n / base;
    if q > 0 {
      assert n >= q * base;
      assert q * base >= q * 2;
    }
  }

  /** `n.toString(base)` */
  function Print(base: nat, n: nat): (s: string)
    requires 2 <= base <= 16
    ensures s != [] && forall i :: 0 <= i < |s| ==> IsHexDigit(s[i])
    decreases n
  {
    DigitCode(n % base);
    Shrinks(n, base);
    if n < base then [Digit(n)] else Print(base, n / base) + [Digit(n % base)]
  }

  /** Numbers printed alike are equal. */
  lemma {:induction false} PrintInjective(base: nat, m: nat, n: nat)
    requires 2 <= base <= 16 && Print(base, m) == Print(base, n)
    ensures m == n
    decreases m
  {
    hide Print;
    PrintEnds(base, m);
    PrintEnds(base, n);
    DigitsAscend(m % base, n % base);
    if m >= base && n >= base {
      PrintInjective(base, m / base, n / base);
      Rebuild(m, n, base);
    } else {
      Small(m, base);
      Small(n, base);
    }
  }

  lemma Rebuild(m: nat, n: nat, base: nat)
    requires base >= 1 && m / base == n / base && m % base == n % base
    ensures m == n
  {
    assert m == m / base * base + m % base;
    assert n == n / base * base + n % base;
  }

  lemma Small(n: nat, base: nat)
    requires base >= 2
    ensures n < base ==> n % base == n
  {
  }

  /** A printed number ends in its last digit, after what its quotient prints as. */
  lemma PrintEnds(base: nat, n: nat)
    requires 2 <= base <= 16
    ensures var s := Print(base, n);
            && 0 <= n % base < 16 && 0 <= n / base && (n > 0 ==> n / base < n)
            && s[|s| - 1] == Digit(n % base)
            && (n < base ==> |s| == 1)
            && (n >= base ==> |s| > 1 && s[..|s| - 1] == Print(base, n / base))
  {
    Shrinks(n, base);
    Small(n, base);
    if n >= base {
      var s := Print(base, n);
      assert s == Print(base, n / base) + [Digit(n % base)];
    }
  }

  /** `Number.parseInt(s, 16)` of a string of hexadecimal digits. */
  function ReadHex(s: string): (n: nat)
    requires forall i :: 0 <= i < |s| ==> IsHexDigit(s[i])
  {
    if s == [] then 0 else 16 * ReadHex(s[..|s| - 1]) + DigitValue(s[|s| - 1])
  }

  lemma {:induction false} ReadPrinted(n: nat)
    ensures ReadHex(Print(16, n)) == n
  {
    var s := Print(16, n);
    DigitsAscend(DigitValue(s[|s| - 1]), n % 16);
    if n < 16 {
      assert s[..0] == [];
    } else {
      assert s[..|s| - 1] == Print(16, n / 16);
      ReadPrinted(n / 16);
    }
  }

  lemma {:induction false} PrintedLength(n: nat, k: nat)
    requires n < Pow(16, k) && k >= 1
    ensures |Print(16, n)| <= k
  {
    if n >= 16 {
      assert k >= 2 by {
        assert Pow(16, 1) == 16 * Pow(16, 0);
      }
      PrintedLength(n / 16, k - 1);
    }
  }

  lemma {:induction false} ReadBound(s: string)
    requires forall i :: 0 <= i < |s| ==> IsHexDigit(s[i])
    ensures ReadHex(s) < Pow(16, |s|)
  {
    if s != [] {
      ReadBound(s[..|s| - 1]);
    }
  }
}
