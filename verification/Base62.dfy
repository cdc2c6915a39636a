/** The code alphabet and the codec of Shortener/pkg/base62.

    Go strings are modelled byte by byte: one `char` stands for one byte.  The package
    variable that MustInit sets once is the parameter `alphabet`. */
module Base62 {
  const TWO_TO_64: nat := 0x1_0000_0000_0000_0000
  const TWO_TO_53: nat := 0x20_0000_0000_0000

  type Uint64 = n: int | 0 <= n < TWO_TO_64

  /** The configured base string: 62 distinct ASCII bytes. */
  ghost predicate ValidAlphabet(alphabet: string) {
    && |alphabet| == 62
    && (forall c | c in alphabet :: c < 128 as char)
    && (forall i, j | 0 <= i < j < |alphabet| :: alphabet[i] != alphabet[j])
  }

  /** strings.Index for a single byte: its first position, or -1. */
  function IndexOf(alphabet: string, c: char): (i: int)
    ensures -1 <= i < |alphabet|
    ensures i == -1 <==> c !in alphabet
    ensures i >= 0 ==> alphabet[i] == c && forall j | 0 <= j < i :: alphabet[j] != c
  {
    if alphabet == [] then -1
    else if alphabet[0] == c then 0
    else
      var rest := IndexOf(alphabet[1..], c);
      assert alphabet == [alphabet[0]] + alphabet[1..];
      if rest == -1 then -1 else rest + 1
  }

  /** The conversion uint64(x) of a signed index: two's complement wrap-around. */
  function ToUint64(x: int): Uint64 {
    x % TWO_TO_64
  }

  function Pow(b: nat, k: nat): nat {
    if k == 0 then 1 else b * Pow(b, k - 1)
  }

  // ---------------------------------------------------------------- what codes mean

  /** The digits of n, most significant first; nothing at all for zero. */
  function Positional(alphabet: string, n: nat): string
    requires |alphabet| == 62
  {
    if n == 0 then "" else Positional(alphabet, n / 62) + [alphabet[n % 62]]
  }

  /** The short code of n. */
  function Encode(alphabet: string, n: nat): string
    requires |alphabet| == 62
  {
    if n == 0 then [alphabet[0]] else Positional(alphabet, n)
  }

  /** Horner's value of a string; a byte outside the alphabet weighs -1, as strings.Index says. */
  function Value(alphabet: string, s: string): int {
    if s == "" then 0
    else 62 * Value(alphabet, s[..|s| - 1]) + IndexOf(alphabet, s[|s| - 1])
  }

  /** A string over the alphabet without a leading zero digit, or the zero digit alone. */
  ghost predicate Canonical(alphabet: string, s: string)
    requires |alphabet| == 62
  {
    && s != ""
    && Over(alphabet, s)
    && (|s| > 1 ==> s[0] != alphabet[0])
  }

  ghost predicate Over(alphabet: string, s: string) {
    forall i | 0 <= i < |s| :: s[i] in alphabet
  }

  lemma DigitIndex(alphabet: string, d: nat)
    requires ValidAlphabet(alphabet) && d < 62
    ensures IndexOf(alphabet, alphabet[d]) == d
  {
  }

  lemma {:induction false} PositionalValue(alphabet: string, n: nat)
    requires ValidAlphabet(alphabet)
    ensures Value(alphabet, Positional(alphabet, n)) == n
  {
    if n == 0 {
    } else {
      PositionalValue(alphabet, n / 62);
      DigitIndex(alphabet, n % 62);
      var s := Positional(alphabet, n);
      assert s[..|s| - 1] == Positional(alphabet, n / 62);
    }
  }

  /** Decoding the code of n gives n back, for every natural number. */
  lemma ValueOfEncode(alphabet: string, n: nat)
    requires ValidAlphabet(alphabet)
    ensures Value(alphabet, Encode(alphabet, n)) == n
  {
    PositionalValue(alphabet, n);
    if n == 0 {
      DigitIndex(alphabet, 0);
      var s := [alphabet[0]];
      assert s[..|s| - 1] == "";
    }
  }

  lemma EncodeInjective(alphabet: string, m: nat, n: nat)
    requires ValidAlphabet(alphabet)
    requires Encode(alphabet, m) == Encode(alphabet, n)
    ensures m == n
  {
    ValueOfEncode(alphabet, m);
    ValueOfEncode(alphabet, n);
  }

  lemma PositionalStep(alphabet: string, n: nat, v: nat, d: nat)
    requires |alphabet| == 62 && d < 62 && n == 62 * v + d > 0
    ensures Positional(alphabet, n) == Positional(alphabet, v) + [alphabet[d]]
  {
    assert n / 62 == v && n % 62 == d;
  }

  /** Positional is onto the strings without a leading zero digit. */
  lemma {:induction false} PositionalOfValue(alphabet: string, s: string)
    requires ValidAlphabet(alphabet) && Over(alphabet, s)
    requires s != "" ==> s[0] != alphabet[0]
    ensures Value(alphabet, s) >= 0
    ensures s != "" ==> Value(alphabet, s) > 0
    ensures Positional(alphabet, Value(alphabet, s)) == s
  {
    if s == "" {
    } else {
      var front, last := s[..|s| - 1], s[|s| - 1];
      PositionalOfValue(alphabet, front);
      var v, d := Value(alphabet, front), IndexOf(alphabet, last);
      assert front == "" ==> d != 0;
      PositionalStep(alphabet, Value(alphabet, s), v, d);
      assert s == front + [last];
    }
  }

  /** Encoding the value of a canonical string gives the string back. */
  lemma EncodeOfValue(alphabet: string, s: string)
    requires ValidAlphabet(alphabet) && Canonical(alphabet, s)
    ensures Value(alphabet, s) >= 0
    ensures Encode(alphabet, Value(alphabet, s)) == s
  {
    if s[0] == alphabet[0] {
      assert s == [alphabet[0]];
      assert s[..|s| - 1] == "";
      DigitIndex(alphabet, 0);
    } else {
      PositionalOfValue(alphabet, s);
    }
  }

  /** Every code is canonical, so the codec is a bijection between numbers and canonical strings. */
  lemma EncodeCanonical(alphabet: string, n: nat)
    requires ValidAlphabet(alphabet)
    ensures Canonical(alphabet, Encode(alphabet, n))
  {
    if n > 0 {
      PositionalCanonical(alphabet, n);
    }
  }

  lemma {:induction false} PositionalCanonical(alphabet: string, n: nat)
    requires ValidAlphabet(alphabet) && n > 0
    ensures Positional(alphabet, n) != "" && Positional(alphabet, n)[0] != alphabet[0]
    ensures Over(alphabet, Positional(alphabet, n))
  {
    if n < 62 {
      PositionalStep(alphabet, n, 0, n);
    } else {
      PositionalCanonical(alphabet, n / 62);
    }
  }

  /** A code fits in k places exactly when its number is below 62^k. */
  lemma {:induction false} EncodeLength(alphabet: string, n: nat, k: nat)
    requires |alphabet| == 62 && k >= 1
    ensures |Encode(alphabet, n)| <= k <==> n < Pow(62, k)
  {
    if k == 1 {
      assert Pow(62, 1) == 62;
      if n >= 62 {
        assert Positional(alphabet, n / 62) != "";
      } else if n > 0 {
        assert Positional(alphabet, n / 62) == "";
      }
    } else if n < 62 {
      assert n > 0 ==> Positional(alphabet, n / 62) == "";
      PowPositive(62, k - 1);
    } else {
      EncodeLength(alphabet, n / 62, k - 1);
      assert Pow(62, k) == 62 * Pow(62, k - 1);
    }
  }

  lemma {:induction false} PowPositive(b: nat, k: nat)
    requires b >= 1
    ensures Pow(b, k) >= 1
  {
    if k > 0 {
      PowPositive(b, k - 1);
    }
  }

  /** Every 64-bit number has a code of at most eleven bytes, the width of the surl column. */
  lemma CodeFitsColumn(alphabet: string, n: Uint64)
    requires |alphabet| == 62
    ensures 1 <= |Encode(alphabet, n)| <= 11
  {
    assert Pow(62, 11) > TWO_TO_64;
    EncodeLength(alphabet, n, 11);
  }

  // ---------------------------------------------------------------- order

  /** Shorter first; among equal lengths, by digit value at the first difference. */
  ghost predicate ShortlexLess(alphabet: string, s: string, t: string) {
    || |s| < |t|
    || (|s| == |t| && exists i :: 0 <= i < |s| && s[..i] == t[..i] && IndexOf(alphabet, s[i]) < IndexOf(alphabet, t[i]))
  }

  lemma ShortlexExtend(alphabet: string, s: string, t: string, c: char, d: char)
    requires ShortlexLess(alphabet, s, t)
    ensures ShortlexLess(alphabet, s + [c], t + [d])
  {
    if |s| == |t| {
      var i :| 0 <= i < |s| && s[..i] == t[..i] && IndexOf(alphabet, s[i]) < IndexOf(alphabet, t[i]);
      assert (s + [c])[..i] == s[..i] && (t + [d])[..i] == t[..i];
    }
  }

  lemma ShortlexLast(alphabet: string, s: string, c: char, d: char)
    requires IndexOf(alphabet, c) < IndexOf(alphabet, d)
    ensures ShortlexLess(alphabet, s + [c], s + [d])
  {
    var i := |s|;
    assert (s + [c])[..i] == s == (s + [d])[..i];
  }

  lemma {:induction false} PositionalMonotone(alphabet: string, m: nat, n: nat)
    requires ValidAlphabet(alphabet) && m < n
    ensures ShortlexLess(alphabet, Positional(alphabet, m), Positional(alphabet, n))
  {
    if m == 0 {
      assert |Positional(alphabet, n)| > 0;
    } else if m / 62 == n / 62 {
      DigitIndex(alphabet, m % 62);
      DigitIndex(alphabet, n % 62);
      ShortlexLast(alphabet, Positional(alphabet, m / 62), alphabet[m % 62], alphabet[n % 62]);
    } else {
      PositionalMonotone(alphabet, m / 62, n / 62);
      ShortlexExtend(alphabet, Positional(alphabet, m / 62), Positional(alphabet, n / 62), alphabet[m % 62], alphabet[n % 62]);
    }
  }

  /** Codes are issued in strictly increasing shortlex order. */
  lemma EncodeMonotone(alphabet: string, m: nat, n: nat)
    requires ValidAlphabet(alphabet)
    ensures m < n ==> ShortlexLess(alphabet, Encode(alphabet, m), Encode(alphabet, n))
  {
    if m < n {
      PositionalMonotone(alphabet, m, n);
      if m == 0 {
        EncodeLength(alphabet, n, 1);
        assert Pow(62, 1) == 62;
        if n < 62 {
          DigitIndex(alphabet, 0);
          DigitIndex(alphabet, n);
          PositionalStep(alphabet, n, 0, n);
          ShortlexLast(alphabet, "", alphabet[0], alphabet[n]);
          assert "" + [alphabet[0]] == [alphabet[0]] && "" + [alphabet[n]] == [alphabet[n]];
        }
      }
    }
  }

  // ---------------------------------------------------------------- the floating-point power

  /** v is exactly representable with the 53-bit significand of a float64. */
  ghost predicate Binary64(v: nat) {
    exists m: nat, e: nat :: Significand(v, m, e)
  }

  ghost predicate Significand(v: nat, m: nat, e: nat) {
    m < TWO_TO_53 && v == m * Pow(2, e)
  }

  lemma Interchange(a: nat, b: nat, x: nat, y: nat)
    ensures (a * b) * (x * y) == (a * x) * (b * y)
  {
    assert (a * b) * (x * y) == a * (b * (x * y));
    assert b * (x * y) == x * (b * y);
    assert a * (x * (b * y)) == (a * x) * (b * y);
  }

  lemma {:induction false} PowSplit(k: nat)
    ensures Pow(62, k) == Pow(31, k) * Pow(2, k)
  {
    if k > 0 {
      PowSplit(k - 1);
      Interchange(31, 2, Pow(31, k - 1), Pow(2, k - 1));
    }
  }

  lemma {:induction false} PowAdd(b: nat, j: nat, k: nat)
    ensures Pow(b, j + k) == Pow(b, j) * Pow(b, k)
  {
    if j > 0 {
      PowAdd(b, j - 1, k);
      Interchange(b, 1, Pow(b, j - 1), Pow(b, k));
    }
  }

  lemma {:induction false} PowOdd(k: nat)
    ensures Pow(31, k) % 2 == 1
  {
    if k > 0 {
      PowOdd(k - 1);
    }
  }

  /** 62^k is exact in a float64 precisely up to k == 10. */
  lemma PowerExactIffAtMostTen(k: nat)
    ensures Binary64(Pow(62, k)) <==> k <= 10
  {
    PowSplit(k);
    if k <= 10 {
      assert Pow(31, 10) < TWO_TO_53;
      PowMonotone(31, k, 10);
      assert Significand(Pow(62, k), Pow(31, k), k);
    } else {
      forall m: nat, e: nat
        ensures !Significand(Pow(62, k), m, e)
      {
        if Significand(Pow(62, k), m, e) {
          PowerInexact(k, m, e);
          assert false;
        }
      }
    }
  }

  lemma {:induction false} PowMonotone(b: nat, j: nat, k: nat)
    requires b >= 1 && j <= k
    ensures Pow(b, j) <= Pow(b, k)
  {
    if j < k {
      PowMonotone(b, j, k - 1);
      PowPositive(b, k - 1);
      assert b * Pow(b, k - 1) >= Pow(b, k - 1);
    }
  }

  /** 31^k is odd and already needs more than 53 bits, so no shorter significand exists. */
  lemma PowerInexact(k: nat, m: nat, e: nat)
    requires k >= 11
    requires Pow(62, k) == m * Pow(2, e)
    ensures m >= TWO_TO_53
  {
    PowSplit(k);
    PowOdd(k);
    PowPositive(2, k);
    PowPositive(2, e);
    if e <= k {
      assert Pow(31, 11) >= TWO_TO_53;
      PowMonotone(31, 11, k);
      PowAdd(2, k - e, e);
      PowPositive(2, k - e);
      ScaledEqual(m, Pow(31, k), Pow(2, k - e), Pow(2, e));
    } else {
      PowAdd(2, e - k, k);
      ScaledEqual(Pow(31, k), m, Pow(2, e - k), Pow(2, k));
      EvenProduct(m, Pow(2, e - k - 1));
    }
  }

  lemma ScaledEqual(a: nat, b: nat, c: nat, z: nat)
    requires z >= 1 && (a * z == b * (c * z) || a * z == (b * c) * z)
    ensures a == b * c
    ensures c >= 1 ==> a >= b
  {
    assert b * (c * z) == (b * c) * z;
    CancelFactor(a, b * c, z);
  }

  lemma EvenProduct(a: nat, b: nat)
    ensures (a * (2 * b)) % 2 == 0
  {
    assert a * (2 * b) == 2 * (a * b);
  }

  lemma CancelFactor(a: int, b: int, z: nat)
    requires z >= 1 && a * z == b * z
    ensures a == b
  {
    assert (a - b) * z == a * z - b * z;
  }

  /** What is assumed of uint64(math.Pow(62, float64(k))): exact whenever the power is a float64
      and fits the integer type.  Nothing is assumed of it elsewhere. */
  ghost predicate FloatPower(power: nat -> Uint64) {
    forall k: nat :: Binary64(Pow(62, k)) && Pow(62, k) < TWO_TO_64 ==> power(k) == Pow(62, k)
  }

  lemma PowerUpToTen(power: nat -> Uint64, k: nat)
    requires FloatPower(power) && k <= 10
    ensures power(k) == Pow(62, k)
  {
    PowerExactIffAtMostTen(k);
    assert Pow(62, 10) < TWO_TO_64;
    PowMonotone(62, k, 10);
  }

  // ---------------------------------------------------------------- the loops of the package

  function Reversed<T>(s: seq<T>): (r: seq<T>)
    ensures |r| == |s|
    ensures forall i | 0 <= i < |s| :: r[i] == s[|s| - 1 - i]
  {
    seq(|s|, i requires 0 <= i < |s| => s[|s| - 1 - i])
  }

  /** reverse: swaps the bytes of a slice in place. */
  method Reverse(s: array<char>)
    modifies s
    ensures s[..] == Reversed(old(s[..]))
  {
    var i, j := 0, s.Length - 1;
    while i < s.Length / 2
      invariant 0 <= i <= s.Length / 2 && j == s.Length - 1 - i
      invariant forall k | 0 <= k < i :: s[k] == old(s[..])[s.Length - 1 - k]
      invariant forall k | i <= k <= j :: s[k] == old(s[..])[k]
      invariant forall k | j < k < s.Length :: s[k] == old(s[..])[s.Length - 1 - k]
    {
      s[i], s[j] := s[j], s[i];
      i, j := i + 1, j - 1;
    }
  }

  method ToBytes(s: string) returns (bytes: array<char>)
    ensures fresh(bytes) && bytes[..] == s
  {
    bytes := new char[|s|](i requires 0 <= i < |s| => s[i]);
  }

  /** One more digit moves from the number to the reversed digits. */
  lemma PeelDigit(alphabet: string, v: nat, mod: nat, div: nat, bl: string)
    requires |alphabet| == 62 && v > 0 && mod == v % 62 && div == v / 62
    ensures Positional(alphabet, v) + Reversed(bl) == Positional(alphabet, div) + Reversed(bl + [alphabet[mod]])
  {
    assert Reversed(bl + [alphabet[mod]]) == [alphabet[mod]] + Reversed(bl);
  }

  /** Int2String: collects the digits least significant first, then reverses them. */
  method Int2String(alphabet: string, n: Uint64) returns (code: string)
    requires ValidAlphabet(alphabet)
    ensures code == Encode(alphabet, n)
    ensures 1 <= |code| <= 11
  {
    CodeFitsColumn(alphabet, n);
    if n == 0 {
      return [alphabet[0]];
    }
    var seq0: Uint64 := n;
    var bl: string := [];
    while seq0 > 0
      invariant Positional(alphabet, n) == Positional(alphabet, seq0) + Reversed(bl)
    {
      var mod := seq0 % 62;
      var div := seq0 / 62;
      PeelDigit(alphabet, seq0, mod, div, bl);
      bl := bl + [alphabet[mod]];
      seq0 := div;
    }
    var bytes := ToBytes(bl);
    Reverse(bytes);
    return bytes[..];
  }

  lemma {:induction false} ValueCons(alphabet: string, c: char, s: string)
    ensures Value(alphabet, [c] + s) == IndexOf(alphabet, c) * Pow(62, |s|) + Value(alphabet, s)
  {
    var t := [c] + s;
    if s == "" {
      assert t[..|t| - 1] == "";
    } else {
      var front := s[..|s| - 1];
      ValueCons(alphabet, c, front);
      assert t[..|t| - 1] == [c] + front;
      var d, p := IndexOf(alphabet, c), Pow(62, |front|);
      assert 62 * (d * p) == d * (62 * p);
    }
  }

  /** seq += uint64(i) * base, with uint64 operands throughout. */
  function MulAdd(acc: Uint64, i: int, base: Uint64): Uint64 {
    ToUint64(acc + ToUint64(ToUint64(i) * base))
  }

  /** Wrapping every factor and every partial sum to 64 bits leaves the sum right modulo 2^64. */
  lemma WrappedStep(total: int, acc: int, d: int, p: Uint64)
    requires total == acc + d * p
    ensures MulAdd(ToUint64(acc), d, p) == ToUint64(total)
  {
    var q, r := d / TWO_TO_64, ToUint64(d);
    assert d == q * TWO_TO_64 + r;
    assert d * p == (q * p) * TWO_TO_64 + r * p;
    var u := (r * p) / TWO_TO_64;
    assert r * p == u * TWO_TO_64 + (r * p) % TWO_TO_64;
    var v := acc / TWO_TO_64;
    assert acc == v * TWO_TO_64 + ToUint64(acc);
    WrapMultiple(ToUint64(acc) + (r * p) % TWO_TO_64, q * p + u + v);
  }

  lemma WrapMultiple(x: int, k: int)
    ensures (x + k * TWO_TO_64) % TWO_TO_64 == x % TWO_TO_64
  {
  }

  /** One turn of the summing loop, on byte number index counted from the right. */
  lemma SumStep(alphabet: string, power: nat -> Uint64, c: char, done: string)
    requires FloatPower(power) && |done| <= 10
    ensures MulAdd(ToUint64(Value(alphabet, done)), IndexOf(alphabet, c), power(|done|)) == ToUint64(Value(alphabet, [c] + done))
  {
    var i, p := IndexOf(alphabet, c), power(|done|);
    var total := Value(alphabet, [c] + done);
    assert total == Value(alphabet, done) + i * p by {
      ValueCons(alphabet, c, done);
      PowerUpToTen(power, |done|);
    }
    WrappedStep(total, Value(alphabet, done), i, p);
  }

  /** String2Int: reverses the bytes and adds up digit times power, all in 64-bit arithmetic.
      For every byte string of at most eleven bytes the result is Horner's value modulo 2^64;
      in particular every code decodes to its own number. */
  method String2Int(alphabet: string, power: nat -> Uint64, s: string) returns (n: Uint64)
    requires ValidAlphabet(alphabet) && FloatPower(power)
    ensures |s| <= 11 ==> n == ToUint64(Value(alphabet, s))
  {
    var bytes := ToBytes(s);
    Reverse(bytes);
    var bl := bytes[..];
    n := 0;
    assert Reversed(bl[..0]) == "";
    for index := 0 to |bl|
      invariant |s| <= 11 ==> n == ToUint64(Value(alphabet, Reversed(bl[..index])))
    {
      var b := bl[index];
      ghost var done := Reversed(bl[..index]);
      assert Reversed(bl[..index + 1]) == [b] + done;
      if |s| <= 11 {
        SumStep(alphabet, power, b, done);
      }
      n := MulAdd(n, IndexOf(alphabet, b), power(index));
    }
    assert Reversed(bl[..|bl|]) == s;
  }

  /** String2Int undoes Int2String on every 64-bit number. */
  method EncodeThenDecode(alphabet: string, power: nat -> Uint64, n: Uint64) returns (m: Uint64)
    requires ValidAlphabet(alphabet) && FloatPower(power)
    ensures m == n
  {
    var code := Int2String(alphabet, n);
    ValueOfEncode(alphabet, n);
    m := String2Int(alphabet, power, code);
  }

  /** Int2String undoes String2Int on every canonical string whose value fits 64 bits. */
  method DecodeThenEncode(alphabet: string, power: nat -> Uint64, s: string) returns (t: string)
    requires ValidAlphabet(alphabet) && FloatPower(power)
    requires Canonical(alphabet, s) && Value(alphabet, s) < TWO_TO_64
    ensures t == s
  {
    EncodeOfValue(alphabet, s);
    CodeFitsColumn(alphabet, Value(alphabet, s));
    var n := String2Int(alphabet, power, s);
    t := Int2String(alphabet, n);
  }
}
