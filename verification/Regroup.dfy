/**
 Regrouping five-bit symbols into bytes without padding, as the credential
 decoder does it with a 12-bit accumulator, against the positional value of the
 two strings.
 */
module Regroup {
  import opened Machine
  import opened Products

  type five = x: int | 0 <= x < 32

  function Pow2(n: nat): nat {
    if n == 0 then 1 else 2 * Pow2(n - 1)
  }

  /** The number a digit string stands for in base 2^bits. */
  function Val(base: nat, digits: seq<int>): int {
    if digits == [] then 0
    else Val(base, digits[..|digits| - 1]) * base + digits[|digits| - 1]
  }

  predicate InBase(base: nat, digits: seq<int>) {
    forall i :: 0 <= i < |digits| ==> 0 <= digits[i] < base
  }

  function Digits(base: nat, value: nat, n: nat): (ds: seq<int>)
    requires base > 0
    ensures |ds| == n && InBase(base, ds)
    decreases n
  {
    if n == 0 then [] else Digits(base, value / base, n - 1) + [value % base]
  }

  lemma {:induction false} ValNonneg(base: nat, digits: seq<int>)
    requires InBase(base, digits)
    ensures Val(base, digits) >= 0
  {
    if digits != [] {
      ValNonneg(base, digits[..|digits| - 1]);
    }
  }

  lemma QuotientUnique(a: int, b: int, r: int, s: int, base: nat)
    requires 0 <= r < base && 0 <= s < base && a * base + r == b * base + s
    ensures a == b && r == s
  {
    assert (a * base + r) / base == a && (b * base + s) / base == b by {
      DivIs(a, r, base);
      DivIs(b, s, base);
    }
  }

  lemma DivIs(a: int, r: int, base: nat)
    requires 0 <= r < base
    ensures (a * base + r) / base == a
  {
    assert a * base <= a * base + r < (a + 1) * base;
    var q := (a * base + r) / base;
    assert q * base <= a * base + r < (q + 1) * base;
    if q < a {
      MulOrder(q + 1, a, base);
    } else if q > a {
      MulOrder(a + 1, q, base);
    }
  }

  /** Equal-length digit strings with one value are one string. */
  lemma {:induction false} ValInjective(base: nat, a: seq<int>, b: seq<int>)
    requires InBase(base, a) && InBase(base, b) && |a| == |b| && Val(base, a) == Val(base, b)
    ensures a == b
  {
    if a != [] {
      var x, y := a[..|a| - 1], b[..|b| - 1];
      QuotientUnique(Val(base, x), Val(base, y), a[|a| - 1], b[|b| - 1], base);
      ValInjective(base, x, y);
      assert a == x + [a[|a| - 1]] && b == y + [b[|b| - 1]];
    }
  }

  // ---------- the accumulator ----------

  lemma RemainderIs(x: int, q: int, r: int, m: nat)
    requires 0 <= r < m && x == q * m + r
    ensures x % m == r && x / m == q
  {
    DivIs(q, r, m);
  }

  lemma ModMod(x: int, m: nat, k: nat)
    requires m > 0 && k > 0 && m * k > 0
    ensures (x % (m * k)) % m == x % m
  {
    var h, a := x / (m * k), x % (m * k);
    var t, r := a / m, a % m;
    assert x == (k * h + t) * m + r by {
      calc {
        x;
        (m * k) * h + a;
        (m * k) * h + (m * t + r);
        (k * h + t) * m + r;
      }
    }
    RemainderIs(x, k * h + t, r, m);
  }

  lemma TwoParts(u: int, w: int, r: int, s: nat)
    requires 0 <= w < 256 && 0 <= r < s
    ensures (256 * u + w) * s + r == u * (256 * s) + (w * s + r)
    ensures 0 <= w * s + r < 256 * s
  {
    Spread(256 * u, w, s);
    Regroup3(256, u, s);
    MulStrict(w, 256, s);
  }

  lemma Regroup3(k: int, u: int, s: int)
    ensures (k * u) * s == u * (k * s)
  {
  }

  /** The eight bits above place s. */
  lemma EightBits(a: int, s: nat)
    requires s > 0
    ensures a % (256 * s) == ((a / s) % 256) * s + a % s
  {
    var t := a / s;
    TwoParts(t / 256, t % 256, a % s, s);
    RemainderIs(a, t / 256, (t % 256) * s + a % s, 256 * s);
  }

  /** 2^n for the shift counts the loop uses. */
  function Place(n: nat): (p: nat)
    requires n <= 12
    ensures p > 0
  {
    match n
    case 0 => 1
    case 1 => 2
    case 2 => 4
    case 3 => 8
    case 4 => 16
    case 5 => 32
    case 6 => 64
    case 7 => 128
    case 8 => 256
    case 9 => 512
    case 10 => 1024
    case 11 => 2048
    case _ => 4096
  }

  function Up(x: int, n: nat): int {
    if n == 0 then x else 2 * Up(x, n - 1)
  }

  lemma UpIs(x: int, n: nat)
    requires n < 8
    ensures Up(x, n) == x * Place(n)
    ensures Up(x + 1, n) == x * Place(n) + Place(n)
  {
    UpTimes(x, n);
    UpTimes(x + 1, n);
  }

  lemma {:induction false} UpTimes(x: int, n: nat)
    requires n < 8
    ensures Up(x, n) == x * Place(n)
  {
    if n > 0 {
      UpTimes(x, n - 1);
      assert Place(n) == 2 * Place(n - 1);
    }
  }

  /**
   `whole` is the symbols' value so far: the bytes already out are its top part,
   `bits` bits are pending below them, and `acc` holds its low twelve bits.
   */
  predicate Holds(whole: int, out: int, acc: int, bits: nat)
  {
    && bits < 8
    && whole % 4096 == acc
    && Up(out, bits) <= whole < Up(out + 1, bits)
  }

  lemma Scaled(out: int, p: nat, r: int, v: five)
    requires 0 <= r < p
    ensures (out * p + r) * 32 + v == out * (32 * p) + (r * 32 + v)
    ensures 0 <= r * 32 + v < 32 * p
  {
  }

  lemma MaskedShift(whole: int, acc: int, v: five)
    requires whole % 4096 == acc
    ensures (whole * 32 + v) % 4096 == (acc * 32 + v) % 4096
  {
    var h := whole / 4096;
    assert whole * 32 + v == 4096 * (32 * h) + (acc * 32 + v);
  }

  /** A symbol enters below the pending bits. */
  lemma Enters(whole: int, out: int, r: int, p: nat, k: nat, v: five)
    requires 0 <= r < p && (32 * p) * k == 4096 && k > 0
    requires whole == out * p + r
    ensures whole * 32 + v == out * (32 * p) + ((whole * 32 + v) % 4096) % (32 * p)
  {
    var w := whole * 32 + v;
    Scaled(out, p, r, v);
    RemainderIs(w, out, r * 32 + v, 32 * p);
    ModMod(w, 32 * p, k);
  }

  lemma Places(bits: nat)
    requires bits < 8
    ensures (32 * Place(bits)) * Place(7 - bits) == 4096
    ensures 32 * Place(bits) == Place(bits + 5)
    ensures bits >= 3 ==> 32 * Place(bits) == 256 * Place(bits - 3)
  {
  }

  /** One symbol, and the byte it completes if it completes one. */
  lemma Turn(whole: int, out: int, acc: int, bits: nat, v: five)
    requires Holds(whole, out, acc, bits)
    ensures
      var acc' := (acc * 32 + v) % 4096;
      if bits + 5 < 8 then Holds(whole * 32 + v, out, acc', bits + 5)
      else Holds(whole * 32 + v, out * 256 + (acc' / Place(bits - 3)) % 256, acc', bits - 3)
  {
    var w, acc', p := whole * 32 + v, (acc * 32 + v) % 4096, Place(bits);
    Places(bits);
    UpIs(out, bits);
    MaskedShift(whole, acc, v);
    Enters(whole, out, whole - out * p, p, Place(7 - bits), v);
    if bits < 3 {
      UpIs(out, bits + 5);
      InRange(acc', 32 * p);
    } else {
      var s := Place(bits - 3);
      var b := (acc' / s) % 256;
      EightBits(acc', s);
      Recombine(out, b, s, acc' % s);
      UpIs(out * 256 + b, bits - 3);
      InRange(acc', s);
    }
  }

  lemma InRange(a: int, m: nat)
    requires m > 0
    ensures 0 <= a % m < m
  {
  }

  lemma Recombine(out: int, b: int, s: nat, r: int)
    ensures out * (256 * s) + (b * s + r) == (out * 256 + b) * s + r
  {
  }

  lemma ZeroProduct(r: int, k: int)
    requires r >= 0 && k > 0
    ensures r * k == 0 <==> r == 0
  {
  }

  lemma BelowProduct(r: int, p: int, k: int)
    requires 0 <= r < p && k > 0
    ensures 0 <= r * k < p * k
  {
  }

  /** The source's shifted test looks at exactly the pending bits. */
  lemma ShiftedTest(acc: int, p: nat, k: nat)
    requires p > 0 && k > 0 && p * k == 256
    ensures (acc * k) % 256 == 0 <==> acc % p == 0
  {
    var t, r := acc / p, acc % p;
    assert acc * k == t * 256 + r * k by {
      calc {
        acc * k;
        (t * p + r) * k;
        t * (p * k) + r * k;
      }
    }
    BelowProduct(r, p, k);
    RemainderIs(acc * k, t, r * k, 256);
    ZeroProduct(r, k);
  }

  lemma SpareBits(whole: int, out: int, acc: int, bits: nat)
    requires Holds(whole, out, acc, bits)
    ensures (acc * Place(8 - bits)) % 256 == 0 <==> whole % Place(bits) == 0
    ensures whole % Place(bits) == 0 ==> whole == out * Place(bits)
  {
    var p := Place(bits);
    ShiftedTest(acc, p, Place(8 - bits));
    assert p * Place(12 - bits) == 4096;
    ModMod(whole, p, Place(12 - bits));
    UpIs(out, bits);
    RemainderIs(whole, out, whole - out * p, p);
  }

  // ---------- the loop ----------

  /** Symbols that regroup without leftover: fewer than five spare bits, all zero. */
  predicate Regular(symbols: seq<five>) {
    var spare := (5 * |symbols|) % 8;
    spare < 5 && Val(32, symbols) % Place(spare) == 0
  }

  /** `bytes` are the leading whole bytes of `symbols`, the spare bits being zero. */
  predicate Regroups(symbols: seq<five>, bytes: seq<byte>) {
    && (5 * |symbols|) % 8 < 5
    && |bytes| == 5 * |symbols| / 8
    && Val(32, symbols) == Val(256, bytes) * Place((5 * |symbols|) % 8)
  }

  lemma ValSnoc(base: nat, digits: seq<int>, d: int)
    ensures Val(base, digits + [d]) == Val(base, digits) * base + d
  {
    assert (digits + [d])[..|digits|] == digits;
  }

  /** One trip round the loop: the new accumulator, bit count and the byte out, if any; no room ends it. */
  method AddSymbol(symbols: seq<five>, i: nat, acc: int, bits: nat, out: seq<byte>, cap: nat)
    returns (ok: bool, acc': int, bits': nat, out': seq<byte>)
    requires i < |symbols| && |out| <= cap
    requires bits == 5 * i - 8 * |out|
    requires Holds(Val(32, symbols[..i]), Val(256, out), acc, bits)
    ensures !ok ==> cap < 5 * |symbols| / 8
    ensures ok ==> bits' == 5 * (i + 1) - 8 * |out'| && |out'| <= cap
    ensures ok ==> Holds(Val(32, symbols[..i + 1]), Val(256, out'), acc', bits')
  {
    var v := symbols[i];
    Turn(Val(32, symbols[..i]), Val(256, out), acc, bits, v);
    ValSnoc(32, symbols[..i], v);
    assert symbols[..i + 1] == symbols[..i] + [v];
    ok, acc', bits', out' := true, (acc * 32 + v) % 4096, bits + 5, out;
    if bits' >= 8 {
      bits' := bits' - 8;
      if |out'| >= cap {
        NoRoom(i, |symbols|, |out|, cap);
        return false, acc', bits', out';
      }
      var b := (acc' / Place(bits')) % 256;
      ValSnoc(256, out, b);
      out' := out' + [b];
    }
  }

  lemma NoRoom(i: nat, n: nat, out: nat, cap: nat)
    requires i < n && 5 * (i + 1) - 8 * out >= 8 && out >= cap
    ensures cap < 5 * n / 8
  {
  }

  /** At the end the pending bits are the spare ones, and the two final tests decide regularity. */
  lemma AtEnd(symbols: seq<five>, out: seq<byte>, acc: int, bits: nat)
    requires bits == 5 * |symbols| - 8 * |out|
    requires Holds(Val(32, symbols), Val(256, out), acc, bits)
    ensures Regular(symbols) <==> bits < 5 && (acc * Place(8 - bits)) % 256 == 0
    ensures Regular(symbols) ==> Regroups(symbols, out)
  {
    assert bits == (5 * |symbols|) % 8 && |out| == 5 * |symbols| / 8;
    SpareBits(Val(32, symbols), Val(256, out), acc, bits);
  }

  lemma Empty()
    ensures Holds(Val(32, []), Val(256, []), 0, 0)
  {
  }

  method Accumulate(symbols: seq<five>, cap: nat) returns (ok: bool, acc: int, bits: nat, out: seq<byte>)
    ensures !ok ==> cap < 5 * |symbols| / 8
    ensures ok ==> bits == 5 * |symbols| - 8 * |out| && |out| <= cap
    ensures ok ==> Holds(Val(32, symbols), Val(256, out), acc, bits)
  {
    ok, acc, bits, out := true, 0, 0, [];
    Empty();
    for i := 0 to |symbols|
      invariant ok && bits == 5 * i - 8 * |out| && |out| <= cap
      invariant Holds(Val(32, symbols[..i]), Val(256, out), acc, bits)
    {
      ok, acc, bits, out := AddSymbol(symbols, i, acc, bits, out, cap);
      if !ok {
        return;
      }
    }
    assert symbols[..|symbols|] == symbols;
  }

  /** Accepts exactly the regular symbol strings whose bytes fit, and yields those bytes. */
  method RegroupBytes(symbols: seq<five>, cap: nat) returns (r: Option<seq<byte>>)
    ensures r.Some? <==> Regular(symbols) && 5 * |symbols| / 8 <= cap
    ensures r.Some? ==> Regroups(symbols, r.value)
  {
    var ok, acc, bits, out := Accumulate(symbols, cap);
    if !ok {
      return None;
    }
    AtEnd(symbols, out, acc, bits);
    var spill := if bits < 5 then acc * Place(8 - bits) else 0;
    r := if bits >= 5 || spill % 256 != 0 then None else Some(out);
  }

  // ---------- a bijection ----------

  /** A byte string comes from one symbol string only. */
  lemma SymbolsUnique(a: seq<five>, b: seq<five>, bytes: seq<byte>)
    requires Regroups(a, bytes) && Regroups(b, bytes)
    ensures a == b
  {
    assert |a| == |b|;
    ValInjective(32, a, b);
  }

  /** A symbol string regroups to one byte string only. */
  lemma BytesUnique(symbols: seq<five>, x: seq<byte>, y: seq<byte>)
    requires Regroups(symbols, x) && Regroups(symbols, y)
    ensures x == y
  {
    var p := Place((5 * |symbols|) % 8);
    RemainderIs(Val(256, x) * p, Val(256, x), 0, p);
    RemainderIs(Val(256, y) * p, Val(256, y), 0, p);
    ValInjective(256, x, y);
  }

  lemma {:induction false} Pow2Adds(m: nat, n: nat)
    ensures Pow2(m + n) == Pow2(m) * Pow2(n)
  {
    if m > 0 {
      Pow2Adds(m - 1, n);
      assert Pow2(m + n) == 2 * Pow2(m - 1 + n);
    }
  }

  lemma PlaceIsPow2(n: nat)
    requires n < 8
    ensures Place(n) == Pow2(n)
  {
    PlaceSteps(n);
  }

  lemma {:induction false} PlaceSteps(n: nat)
    requires n <= 8
    ensures Place(n) == Pow2(n)
  {
    if n > 0 {
      PlaceSteps(n - 1);
    }
  }

  lemma BelowScaled(a: int, b: int, base: int, d: int)
    requires 0 <= a < b && 0 <= d < base
    ensures 0 <= a * base + d < b * base
  {
    assert (a + 1) * base <= b * base;
  }

  lemma {:induction false} ByteValBound(bytes: seq<byte>)
    ensures 0 <= Val(256, bytes) < Pow2(8 * |bytes|)
  {
    if bytes != [] {
      var front := bytes[..|bytes| - 1];
      ByteValBound(front);
      PlaceSteps(8);
      Pow2Adds(8 * |front|, 8);
      BelowScaled(Val(256, front), Pow2(8 * |front|), 256, bytes[|bytes| - 1]);
    }
  }

  lemma {:induction false} DigitsVal(value: nat, n: nat)
    requires value < Pow2(5 * n)
    ensures Val(32, Digits(32, value, n)) == value
    decreases n
  {
    if n > 0 {
      assert value / 32 < Pow2(5 * (n - 1)) by {
        PlaceIsPow2(5);
        Pow2Adds(5 * (n - 1), 5);
      }
      DigitsVal(value / 32, n - 1);
      ValSnoc(32, Digits(32, value / 32, n - 1), value % 32);
    }
  }

  /** The symbols of a byte string: zero bits fill the last one. */
  function Symbols(bytes: seq<byte>): seq<five> {
    var n := (8 * |bytes| + 4) / 5;
    ByteValBound(bytes);
    Digits(32, Val(256, bytes) * Place(5 * n - 8 * |bytes|), n)
  }

  lemma SymbolCount(m: nat)
    ensures var n := (8 * m + 4) / 5; var spare := 5 * n - 8 * m;
      0 <= spare < 5 && (5 * n) % 8 == spare && 5 * n / 8 == m
  {
  }

  /** Every byte string has symbols that regroup to it. */
  lemma SymbolsRegroup(bytes: seq<byte>)
    ensures Regroups(Symbols(bytes), bytes)
  {
    var n := (8 * |bytes| + 4) / 5;
    var spare := 5 * n - 8 * |bytes|;
    SymbolCount(|bytes|);
    ByteValBound(bytes);
    PlaceIsPow2(spare);
    Pow2Adds(8 * |bytes|, spare);
    BelowScaled(Val(256, bytes), Pow2(8 * |bytes|), Place(spare), 0);
    DigitsVal(Val(256, bytes) * Place(spare), n);
  }
}
