/**
 What the checksum register holds: the remainder of the symbols, read as a polynomial over the field
 of 32 elements, by the generator polynomial of BIP-173 (section "Checksum").
 */
module Bech32Field {
  import opened Bech32

  // ---------- the field ----------

  /** Multiplication by x modulo x^5 + x^3 + 1. */
  function Twice(a: bv5): bv5 { if a & 16 != 0 then (a << 1) ^ 9 else a << 1 }

  function Pick(b: bv5, bit: bv5, a: bv5): bv5 { if b & bit != 0 then a else 0 }

  /** The product in GF(32). */
  function Times(a: bv5, b: bv5): bv5 {
    var a2 := Twice(a);
    var a4 := Twice(a2);
    var a8 := Twice(a4);
    Pick(b, 1, a) ^ Pick(b, 2, a2) ^ Pick(b, 4, a4) ^ Pick(b, 8, a8) ^ Pick(b, 16, Twice(a8))
  }

  lemma TimesCommutes(a: bv5, b: bv5)
    ensures Times(a, b) == Times(b, a)
  {
  }

  lemma TimesOne(a: bv5)
    ensures Times(a, 1) == a
  {
  }

  /** x^5 + x^3 + 1 is irreducible: products of non-zero elements are not zero. */
  lemma NoZeroDivisors(a: bv5, b: bv5)
    requires Times(a, b) == 0
    ensures a == 0 || b == 0
  {
  }

  // ---------- the generator ----------

  /** x^6 + 29 x^5 + 22 x^4 + 20 x^3 + 21 x^2 + 29 x + 18, leading coefficient first. */
  const GENERATOR: seq<bv5> := [1, 29, 22, 20, 21, 29, 18]

  /** What is fed back is the digit shifted out, times the generator. */
  lemma FeedbackIsMultiple(b: bv5)
    ensures forall i :: 0 <= i < 6 ==> Feedback(b, 5)[i] == Times(b, GENERATOR[i + 1])
  {
    forall i | 0 <= i < 6 ensures Feedback(b, 5)[i] == Times(b, GENERATOR[i + 1]) {
      FeedbackAt(b, i);
      GeneratorAt(b, i);
    }
  }

  /** One digit of the sum of the selected generators. */
  lemma FeedbackAt(b: bv5, i: nat)
    requires i < 6
    ensures Feedback(b, 5)[i]
         == Pick(b, 1, Generator(0)[i]) ^ Pick(b, 2, Generator(1)[i]) ^ Pick(b, 4, Generator(2)[i])
            ^ Pick(b, 8, Generator(3)[i]) ^ Pick(b, 16, Generator(4)[i])
  {
    var f1, f2, f3, f4 := Feedback(b, 1), Feedback(b, 2), Feedback(b, 3), Feedback(b, 4);
    assert Feedback(b, 0) == ZERO;
    XorZeroBoth(Generator(0)[i]);
    assert f1[i] == Pick(b, 1, Generator(0)[i]);
    FeedbackNext(b, 1, i, 2);
    FeedbackNext(b, 2, i, 4);
    FeedbackNext(b, 3, i, 8);
    FeedbackNext(b, 4, i, 16);
  }

  lemma XorZeroBoth(a: bv5)
    ensures 0 ^ a == a && a ^ 0 == a
  {
  }

  lemma FeedbackNext(b: bv5, n: nat, i: nat, bit: bv5)
    requires 1 <= n < 5 && i < 6
    requires bit == if n == 1 then 2 else if n == 2 then 4 else if n == 3 then 8 else 16
    ensures Feedback(b, n + 1)[i] == Feedback(b, n)[i] ^ Pick(b, bit, Generator(n)[i])
  {
    XorZeroBoth(Feedback(b, n)[i]);
  }

  /** The generators' digits are the multiples of the first one's by powers of x. */
  lemma GeneratorAt(b: bv5, i: nat)
    requires i < 6
    ensures Times(b, GENERATOR[i + 1])
         == Pick(b, 1, Generator(0)[i]) ^ Pick(b, 2, Generator(1)[i]) ^ Pick(b, 4, Generator(2)[i])
            ^ Pick(b, 8, Generator(3)[i]) ^ Pick(b, 16, Generator(4)[i])
  {
    TimesCommutes(b, GENERATOR[i + 1]);
  }

  // ---------- polynomials ----------

  /** Polynomials are their coefficients, the leading one first. */
  function Sum(p: seq<bv5>, q: seq<bv5>): (r: seq<bv5>)
    requires |p| == |q|
    ensures |r| == |p|
  {
    seq(|p|, i requires 0 <= i < |p| => p[i] ^ q[i])
  }

  function Zeros(n: nat): (r: seq<bv5>)
    ensures |r| == n
  {
    seq(n, _ => 0)
  }

  function Scaled(c: bv5): (r: seq<bv5>)
    ensures |r| == 7
  {
    seq(7, i requires 0 <= i < 7 => Times(c, GENERATOR[i]))
  }

  /** `q` times the generator: the product so far times x, plus the last coefficient's share. */
  function Multiple(q: seq<bv5>): (r: seq<bv5>)
    ensures |r| == |q| + 6
  {
    if q == [] then Zeros(6)
    else
      var n := |q| - 1;
      Sum(Multiple(q[..n]) + [0], Zeros(n) + Scaled(q[n]))
  }

  lemma DigitBefore(m: bv5)
    ensures (m ^ 0) ^ 0 == m ^ 0
  {
  }

  lemma DigitTop(m: bv5, r: bv5)
    ensures (m ^ r) ^ 0 == m ^ r
  {
  }

  lemma DigitInside(m: bv5, w: bv5, r: bv5)
    ensures (m ^ w) ^ (r ^ w) == m ^ r
    ensures (0 ^ w) ^ (r ^ w) == r
  {
  }

  /** Where the summands of coefficient `k` come from. */
  lemma Columns(m: seq<bv5>, w: seq<bv5>, r: seq<bv5>, r': seq<bv5>, n: nat, k: nat)
    requires |m| == n + 6 && |w| == 7 && |r| == 6 && |r'| == 6 && k < n + 7
    ensures (m + [0])[k] == if k < n + 6 then m[k] else 0
    ensures (Zeros(n) + w)[k] == if k < n then 0 else w[k - n]
    ensures (Zeros(n + 1) + r')[k] == if k <= n then 0 else r'[k - n - 1]
    ensures k < n + 6 ==> (Zeros(n) + r)[k] == if k < n then 0 else r[k - n]
  {
  }

  lemma SumAt(p: seq<bv5>, q: seq<bv5>, k: nat)
    requires |p| == |q| && k < |p|
    ensures Sum(p, q)[k] == p[k] ^ q[k]
  {
  }

  /** A coefficient of the dividend after one step of the long division. */
  lemma DivisionDigit(m: seq<bv5>, r: Register, r': Register, w: seq<bv5>, v: Symbol, n: nat, head: seq<bv5>, k: nat)
    requires |m| == n + 6 && |w| == 7 && k < n + 7 && Sum(m, Zeros(n) + r) == head && Reduced(r, v, r', w)
    ensures Sum(Sum(m + [0], Zeros(n) + w), Zeros(n + 1) + r')[k] == (head + [v])[k]
  {
    var a, b, c := m + [0], Zeros(n) + w, Zeros(n + 1) + r';
    Columns(m, w, r, r', n, k);
    SumAt(a, b, k);
    SumAt(Sum(a, b), c, k);
    if k < n + 6 {
      SumAt(m, Zeros(n) + r, k);
      assert (head + [v])[k] == head[k];
    }
    if k < n {
      DigitBefore(m[k]);
    } else if k == n {
      DigitTop(m[k], r[0]);
    } else if k < n + 6 {
      var i := k - n - 1;
      assert r'[i] == r[i + 1] ^ w[i + 1];
      DigitInside(m[k], w[k - n], r[k - n]);
    } else {
      assert (head + [v])[k] == v;
      DigitInside(0, w[6], v);
    }
  }

  /** What one symbol does to the register, by the multiple of the generator that is fed back. */
  ghost predicate Reduced(r: Register, v: Symbol, r': Register, w: seq<bv5>) {
    && |w| == 7 && w[0] == r[0] && r'[5] == v ^ w[6]
    && forall i :: 0 <= i < 5 ==> r'[i] == r[i + 1] ^ w[i + 1]
  }

  lemma AbsorbReduces(r: Register, v: Symbol)
    ensures Reduced(r, v, Absorb(r, v), Scaled(r[0]))
  {
    ScaledTop(r[0]);
    ScaledAt(r[0]);
    AbsorbBy(r, v, Feedback(r[0], 5), Scaled(r[0]));
  }

  lemma ScaledTop(b: bv5)
    ensures Scaled(b)[0] == b
  {
    TimesOne(b);
  }

  lemma ScaledAt(b: bv5)
    ensures forall i :: 0 <= i < 6 ==> Feedback(b, 5)[i] == Scaled(b)[i + 1]
  {
    FeedbackIsMultiple(b);
    forall i | 0 <= i < 6 ensures Feedback(b, 5)[i] == Scaled(b)[i + 1] {
      assert Scaled(b)[i + 1] == Times(b, GENERATOR[i + 1]);
    }
  }

  lemma AbsorbBy(r: Register, v: Symbol, f: Register, w: seq<bv5>)
    requires |w| == 7 && w[0] == r[0] && forall i :: 0 <= i < 6 ==> f[i] == w[i + 1]
    ensures Reduced(r, v, Plus(Shift(r, v), f), w)
  {
  }

  /** One step of the long division. */
  lemma DivisionStep(m: seq<bv5>, r: Register, v: Symbol, n: nat, head: seq<bv5>)
    requires |m| == n + 6 && Sum(m, Zeros(n) + r) == head
    ensures Sum(Sum(m + [0], Zeros(n) + Scaled(r[0])), Zeros(n + 1) + Absorb(r, v)) == head + [v]
  {
    AbsorbReduces(r, v);
    DivisionStepBy(m, r, Absorb(r, v), Scaled(r[0]), v, n, head);
  }

  lemma DivisionStepBy(m: seq<bv5>, r: Register, r': Register, w: seq<bv5>, v: Symbol, n: nat, head: seq<bv5>)
    requires |m| == n + 6 && |w| == 7 && Sum(m, Zeros(n) + r) == head && Reduced(r, v, r', w)
    ensures Sum(Sum(m + [0], Zeros(n) + w), Zeros(n + 1) + r') == head + [v]
  {
    var left := Sum(Sum(m + [0], Zeros(n) + w), Zeros(n + 1) + r');
    assert |left| == |head + [v]|;
    forall k | 0 <= k < n + 7 ensures left[k] == (head + [v])[k] {
      DivisionDigit(m, r, r', w, v, n, head, k);
    }
  }

  /**
   The checksum register is the remainder of the symbols, behind a leading one, by the generator:
   some multiple of the generator plus the register is that polynomial, and the register has only six
   coefficients.
   */
  lemma {:induction false} PolymodIsRemainder(values: seq<Symbol>) returns (q: seq<bv5>)
    ensures |q| == |values|
    ensures Sum(Multiple(q), Zeros(|q|) + Polymod(values)) == ONE + values
  {
    if values == [] {
      q := [];
      assert Sum(Zeros(6), [] + ONE) == ONE + [] by {
        forall i | 0 <= i < 6 ensures Sum(Zeros(6), [] + ONE)[i] == ONE[i] {
          XorZeroBoth(ONE[i]);
        }
      }
    } else {
      var n := |values| - 1;
      var front, v := values[..n], values[n];
      var p := PolymodIsRemainder(front);
      var r := Polymod(front);
      q := p + [r[0]];
      assert q[..n] == p && values == front + [v];
      PolymodSnoc(ONE, front, v);
      DivisionStep(Multiple(p), r, v, n, ONE + front);
      assert ONE + front + [v] == ONE + values;
    }
  }
}
