/**
 The Bech32 checksum (BIP-173, section "Checksum") as the credential decoder
 computes it: a 30-bit shift register over five-bit symbols, with no length
 limit. `ComputePolymod` is the source's loop over a 32-bit word; the algebra is
 done on the same word read as six base-32 digits.
 */
module Bech32 {

  type Symbol = bv5

  /** Six base-32 digits, most significant first. */
  type Register = r: seq<bv5> | |r| == 6 witness [0, 0, 0, 0, 0, 0]

  const ZERO: Register := [0, 0, 0, 0, 0, 0]
  const ONE: Register := [0, 0, 0, 0, 0, 1]

  function Plus(r: Register, s: Register): Register {
    seq(6, i requires 0 <= i < 6 => r[i] ^ s[i])
  }

  /** Generator j, as digits. */
  function Generator(j: nat): Register
    requires j < 5
  {
    match j
    case 0 => [29, 22, 20, 21, 29, 18]
    case 1 => [19, 5, 1, 3, 19, 13]
    case 2 => [15, 10, 2, 6, 15, 26]
    case 3 => [30, 20, 4, 12, 30, 29]
    case _ => [21, 1, 8, 24, 21, 19]
  }

  predicate Selects(b: bv5, j: nat)
    requires j < 5
  {
    match j
    case 0 => b & 1 != 0
    case 1 => b & 2 != 0
    case 2 => b & 4 != 0
    case 3 => b & 8 != 0
    case _ => b & 16 != 0
  }

  /** Sum of the selected ones among the first n generators. */
  function Feedback(b: bv5, n: nat): Register
    requires n <= 5
  {
    if n == 0 then ZERO
    else if Selects(b, n - 1) then Plus(Feedback(b, n - 1), Generator(n - 1))
    else Feedback(b, n - 1)
  }

  function Shift(r: Register, v: Symbol): Register {
    r[1..] + [v]
  }

  /** One symbol enters the register. */
  function Absorb(r: Register, v: Symbol): Register {
    Plus(Shift(r, v), Feedback(r[0], 5))
  }

  function PolymodFrom(r: Register, values: seq<Symbol>): Register
    decreases |values|
  {
    if values == [] then r else PolymodFrom(Absorb(r, values[0]), values[1..])
  }

  function Polymod(values: seq<Symbol>): Register {
    PolymodFrom(ONE, values)
  }

  // ---------- the word-level loop ----------

  function Pack(a: bv5, b: bv5, c: bv5, d: bv5, e: bv5, f: bv5): bv32 {
    ((a as bv32) << 25) | ((b as bv32) << 20) | ((c as bv32) << 15)
    | ((d as bv32) << 10) | ((e as bv32) << 5) | (f as bv32)
  }

  /** The machine word a register stands for. */
  function Word(r: Register): bv32 {
    Pack(r[0], r[1], r[2], r[3], r[4], r[5])
  }

  lemma PackXor(a: bv5, b: bv5, c: bv5, d: bv5, e: bv5, f: bv5, a': bv5, b': bv5, c': bv5, d': bv5, e': bv5, f': bv5)
    ensures Pack(a ^ a', b ^ b', c ^ c', d ^ d', e ^ e', f ^ f')
      == Pack(a, b, c, d, e, f) ^ Pack(a', b', c', d', e', f')
  {
  }

  lemma WordPlus(r: Register, s: Register)
    ensures Word(Plus(r, s)) == Word(r) ^ Word(s)
  {
    PackXor(r[0], r[1], r[2], r[3], r[4], r[5], s[0], s[1], s[2], s[3], s[4], s[5]);
  }

  lemma PackTop(a: bv5, b: bv5, c: bv5, d: bv5, e: bv5, f: bv5)
    ensures Pack(a, b, c, d, e, f) >> 25 == a as bv32
  {
  }

  lemma PackDrop(a: bv5, b: bv5, c: bv5, d: bv5, e: bv5, f: bv5)
    ensures (Pack(a, b, c, d, e, f) & 0x1FFFFFF) << 5 == Pack(b, c, d, e, f, 0)
  {
  }

  lemma PackEnter(b: bv5, c: bv5, d: bv5, e: bv5, f: bv5, v: bv5)
    ensures Pack(b, c, d, e, f, 0) ^ (v as bv32) == Pack(b, c, d, e, f, v)
  {
  }

  /** The shift of the word is the shift of the digits. */
  lemma WordShift(r: Register, v: Symbol)
    ensures ((Word(r) & 0x1FFFFFF) << 5) ^ (v as bv32) == Word(Shift(r, v))
    ensures Word(r) >> 25 == r[0] as bv32
  {
    PackTop(r[0], r[1], r[2], r[3], r[4], r[5]);
    PackDrop(r[0], r[1], r[2], r[3], r[4], r[5]);
    PackEnter(r[1], r[2], r[3], r[4], r[5], v);
  }

  /** Bit j of the word shifted out. */
  predicate MaskBit(b: bv32, j: nat)
    requires j < 5
  {
    match j
    case 0 => b & 1 != 0
    case 1 => b & 2 != 0
    case 2 => b & 4 != 0
    case 3 => b & 8 != 0
    case _ => b & 16 != 0
  }

  lemma MaskIsSelects(b: bv5, j: nat)
    requires j < 5
    ensures MaskBit(b as bv32, j) == Selects(b, j)
  {
  }

  function GeneratorWord(j: nat): bv32
    requires j < 5
  {
    match j
    case 0 => 0x3B6A57B2
    case 1 => 0x26508E6D
    case 2 => 0x1EA119FA
    case 3 => 0x3D4233DD
    case _ => 0x2A1462B3
  }

  lemma GeneratorWordIs(j: nat)
    requires j < 5
    ensures Word(Generator(j)) == GeneratorWord(j)
  {
  }

  lemma XorAssociates(a: bv5, b: bv5, c: bv5)
    ensures (a ^ b) ^ c == a ^ (b ^ c)
  {
  }

  lemma PlusAssociates(r: Register, s: Register, t: Register)
    ensures Plus(Plus(r, s), t) == Plus(r, Plus(s, t))
  {
    forall i | 0 <= i < 6 ensures Plus(Plus(r, s), t)[i] == Plus(r, Plus(s, t))[i] {
      XorAssociates(r[i], s[i], t[i]);
    }
  }

  lemma XorZero(a: bv5)
    ensures a ^ 0 == a
  {
  }

  lemma PlusZero(r: Register)
    ensures Plus(r, ZERO) == r
  {
    forall i | 0 <= i < 6 ensures Plus(r, ZERO)[i] == r[i] {
      XorZero(r[i]);
    }
  }

  lemma AddWord(x: Register, f: Register, g: Register, chk: bv32, w: bv32)
    requires chk == Word(Plus(x, f)) && w == Word(g)
    ensures chk ^ w == Word(Plus(x, Plus(f, g)))
  {
    PlusAssociates(x, f, g);
    WordPlus(Plus(x, f), g);
  }

  /** One turn of the inner loop. */
  lemma FeedTurn(start: Register, b: bv5, j: nat, chk: bv32)
    requires j < 5 && chk == Word(Plus(start, Feedback(b, j)))
    ensures (if MaskBit(b as bv32, j) then chk ^ GeneratorWord(j) else chk) == Word(Plus(start, Feedback(b, j + 1)))
  {
    MaskIsSelects(b, j);
    GeneratorWordIs(j);
    if Selects(b, j) {
      AddWord(start, Feedback(b, j), Generator(j), chk, GeneratorWord(j));
    }
  }

  method FeedWord(chk0: bv32, b: bv32, ghost start: Register, ghost top: bv5) returns (chk: bv32)
    requires chk0 == Word(start) && b == top as bv32
    ensures chk == Word(Plus(start, Feedback(top, 5)))
  {
    chk := chk0;
    PlusZero(start);
    for j := 0 to 5
      invariant chk == Word(Plus(start, Feedback(top, j)))
    {
      FeedTurn(start, top, j, chk);
      if MaskBit(b, j) {
        chk := chk ^ GeneratorWord(j);
      }
    }
  }

  lemma {:induction false} PolymodSnoc(r: Register, values: seq<Symbol>, v: Symbol)
    ensures PolymodFrom(r, values + [v]) == Absorb(PolymodFrom(r, values), v)
    decreases |values|
  {
    if values == [] {
      assert [v][1..] == [];
    } else {
      PolymodSnoc(Absorb(r, values[0]), values[1..], v);
      assert (values + [v])[1..] == values[1..] + [v];
    }
  }

  method ComputePolymod(values: seq<Symbol>) returns (chk: bv32)
    ensures chk == Word(Polymod(values))
  {
    chk := 1;
    ghost var r := ONE;
    for i := 0 to |values|
      invariant r == Polymod(values[..i]) && chk == Word(r)
    {
      var v := values[i];
      WordShift(r, v);
      chk := FeedWord(((chk & 0x1FFFFFF) << 5) ^ (v as bv32), chk >> 25, Shift(r, v), r[0]);
      r := Absorb(r, v);
      PolymodSnoc(ONE, values[..i], v);
      assert values[..i + 1] == values[..i] + [v];
    }
    assert values[..|values|] == values;
  }

  // ---------- one step is injective ----------

  function Tail(b: bv5): bv5 {
    (if b & 1 != 0 then 18 else 0) ^ (if b & 2 != 0 then 13 else 0) ^ (if b & 4 != 0 then 26 else 0)
    ^ (if b & 8 != 0 then 29 else 0) ^ (if b & 16 != 0 then 19 else 0)
  }

  /** Inverse of `Tail`: the low digits of the generators are linearly independent. */
  function Untail(x: bv5): bv5 {
    (if x & 1 != 0 then 17 else 0) ^ (if x & 2 != 0 then 11 else 0) ^ (if x & 4 != 0 then 22 else 0)
    ^ (if x & 8 != 0 then 5 else 0) ^ (if x & 16 != 0 then 10 else 0)
  }

  lemma FeedbackTail(b: bv5)
    ensures Feedback(b, 5)[5] == Tail(b)
  {
    var f1, f2, f3, f4 := Feedback(b, 1), Feedback(b, 2), Feedback(b, 3), Feedback(b, 4);
    assert Feedback(b, 0) == ZERO;
    assert f1[5] == if b & 1 != 0 then 18 else 0;
    assert f2[5] == f1[5] ^ if b & 2 != 0 then 13 else 0;
    assert f3[5] == f2[5] ^ if b & 4 != 0 then 26 else 0;
    assert f4[5] == f3[5] ^ if b & 8 != 0 then 29 else 0;
  }

  lemma TailInverts(b: bv5)
    ensures Untail(Tail(b)) == b
  {
  }

  lemma XorCancels(a: bv5, b: bv5, c: bv5)
    requires a ^ c == b ^ c
    ensures a == b
  {
  }

  lemma XorCancelsLeft(a: bv5, b: bv5, c: bv5)
    requires c ^ a == c ^ b
    ensures a == b
  {
  }

  /** The low digit alone gives back the symbol that was shifted out. */
  lemma SameTop(r: Register, s: Register, v: Symbol)
    requires Absorb(r, v)[5] == Absorb(s, v)[5]
    ensures r[0] == s[0]
  {
    FeedbackTail(r[0]);
    FeedbackTail(s[0]);
    XorCancelsLeft(Tail(r[0]), Tail(s[0]), v);
    TailInverts(r[0]);
    TailInverts(s[0]);
  }

  lemma PlusCancels(x: Register, y: Register, f: Register)
    requires Plus(x, f) == Plus(y, f)
    ensures x == y
  {
    forall i | 0 <= i < 6 ensures x[i] == y[i] {
      assert Plus(x, f)[i] == Plus(y, f)[i];
      XorCancels(x[i], y[i], f[i]);
    }
  }

  lemma AbsorbInjective(r: Register, s: Register, v: Symbol)
    requires Absorb(r, v) == Absorb(s, v)
    ensures r == s
  {
    SameTop(r, s, v);
    PlusCancels(Shift(r, v), Shift(s, v), Feedback(r[0], 5));
    forall i | 0 <= i < 6 ensures r[i] == s[i] {
      assert i > 0 ==> Shift(r, v)[i - 1] == r[i] && Shift(s, v)[i - 1] == s[i];
    }
  }

  lemma {:induction false} PolymodInjective(r: Register, s: Register, values: seq<Symbol>)
    requires PolymodFrom(r, values) == PolymodFrom(s, values)
    ensures r == s
    decreases |values|
  {
    if values != [] {
      PolymodInjective(Absorb(r, values[0]), Absorb(s, values[0]), values[1..]);
      AbsorbInjective(r, s, values[0]);
    }
  }

  // ---------- a window of six symbols ----------

  /** The two symbol strings' difference, as it sits in the register. */
  function Difference(xs: seq<Symbol>, ys: seq<Symbol>): Register
    requires |xs| == |ys| <= 6
  {
    seq(6, i requires 0 <= i < 6 =>
      if i < 6 - |xs| then 0 else xs[i - 6 + |xs|] ^ ys[i - 6 + |xs|])
  }

  lemma XorThrough(v: bv5, w: bv5, f: bv5)
    ensures w ^ f == (v ^ f) ^ (v ^ w)
  {
  }

  lemma XorSwap(a: bv5, b: bv5, c: bv5)
    ensures (a ^ b) ^ c == (a ^ c) ^ b
  {
  }

  /** A difference that has not reached the top digit moves up without feedback. */
  lemma DifferenceMoves(c: Register, d: Register, v: Symbol, w: Symbol)
    requires d[0] == 0
    ensures Absorb(Plus(c, d), w) == Plus(Absorb(c, v), Shift(d, v ^ w))
  {
    XorZero(c[0]);
    assert Plus(c, d)[0] == c[0];
    MovesPast(c, d, v, w, Feedback(c[0], 5));
  }

  lemma MovesPast(c: Register, d: Register, v: Symbol, w: Symbol, f: Register)
    ensures Plus(Shift(Plus(c, d), w), f) == Plus(Plus(Shift(c, v), f), Shift(d, v ^ w))
  {
    var left, right := Plus(Shift(Plus(c, d), w), f), Plus(Plus(Shift(c, v), f), Shift(d, v ^ w));
    forall i | 0 <= i < 6 ensures left[i] == right[i] {
      if i < 5 {
        XorSwap(c[i + 1], d[i + 1], f[i]);
      } else {
        XorThrough(v, w, f[5]);
      }
    }
  }

  lemma {:induction false} WindowDifference(c: Register, xs: seq<Symbol>, ys: seq<Symbol>)
    requires |xs| == |ys| <= 6
    ensures PolymodFrom(c, ys) == Plus(PolymodFrom(c, xs), Difference(xs, ys))
    decreases |xs|
  {
    if xs == [] {
      PlusZero(c);
      assert Difference(xs, ys) == ZERO;
    } else {
      var x, y := xs[..|xs| - 1], ys[..|ys| - 1];
      var v, w := xs[|xs| - 1], ys[|ys| - 1];
      WindowDifference(c, x, y);
      PolymodSnoc(c, x, v);
      PolymodSnoc(c, y, w);
      assert xs == x + [v] && ys == y + [w];
      DifferenceMoves(PolymodFrom(c, x), Difference(x, y), v, w);
      DifferenceSnoc(x, y, v, w);
    }
  }

  lemma DifferenceAt(a: seq<Symbol>, b: seq<Symbol>, i: nat)
    requires |a| == |b| <= 6 && i < 6
    ensures Difference(a, b)[i] == if i < 6 - |a| then 0 else a[i - 6 + |a|] ^ b[i - 6 + |a|]
  {
  }

  lemma DifferenceShifts(x: seq<Symbol>, y: seq<Symbol>, v: Symbol, w: Symbol, i: nat)
    requires |x| == |y| < 6 && i < 6
    ensures Difference(x + [v], y + [w])[i] == if i < 5 then Difference(x, y)[i + 1] else v ^ w
  {
    var a, b := x + [v], y + [w];
    DifferenceAt(a, b, i);
    if i < 5 {
      DifferenceAt(x, y, i + 1);
      var k := i - 6 + |a|;
      if 0 <= k {
        assert a[k] == x[k] && b[k] == y[k];
      }
    } else {
      assert a[|x|] == v && b[|x|] == w;
    }
  }

  lemma DifferenceSnoc(x: seq<Symbol>, y: seq<Symbol>, v: Symbol, w: Symbol)
    requires |x| == |y| < 6
    ensures Difference(x + [v], y + [w]) == Shift(Difference(x, y), v ^ w)
    ensures Difference(x, y)[0] == 0
  {
    DifferenceAt(x, y, 0);
    ShiftIs(Difference(x, y), v ^ w);
    forall i | 0 <= i < 6 ensures Difference(x + [v], y + [w])[i] == Shift(Difference(x, y), v ^ w)[i] {
      DifferenceShifts(x, y, v, w, i);
    }
  }

  lemma ShiftIs(d: Register, v: Symbol)
    ensures forall i :: 0 <= i < 6 ==> Shift(d, v)[i] == if i < 5 then d[i + 1] else v
  {
  }

  lemma XorIsZero(v: bv5, w: bv5)
    ensures v ^ w == 0 <==> v == w
  {
  }

  /** Strings that lead one register to one register are equal. */
  lemma WindowDetected(c: Register, xs: seq<Symbol>, ys: seq<Symbol>)
    requires |xs| == |ys| <= 6 && PolymodFrom(c, xs) == PolymodFrom(c, ys)
    ensures xs == ys
  {
    var p, d := PolymodFrom(c, xs), Difference(xs, ys);
    WindowDifference(c, xs, ys);
    forall i | 0 <= i < |xs| ensures xs[i] == ys[i] {
      var k := i + 6 - |xs|;
      assert d[k] == xs[i] ^ ys[i];
      assert p[k] ^ d[k] == p[k] by {
        assert Plus(p, d)[k] == p[k];
      }
      XorZero(p[k]);
      XorCancelsLeft(d[k], 0, p[k]);
      XorIsZero(xs[i], ys[i]);
    }
  }

  lemma {:induction false} PolymodAppend(r: Register, xs: seq<Symbol>, ys: seq<Symbol>)
    ensures PolymodFrom(r, xs + ys) == PolymodFrom(PolymodFrom(r, xs), ys)
    decreases |xs|
  {
    if xs == [] {
      assert xs + ys == ys;
    } else {
      PolymodAppend(Absorb(r, xs[0]), xs[1..], ys);
      assert (xs + ys)[1..] == xs[1..] + ys;
    }
  }

  /**
   Two strings of any length that agree outside six consecutive symbols and have
   the same checksum residue are the same string.
   */
  lemma BurstDetected(before: seq<Symbol>, xs: seq<Symbol>, ys: seq<Symbol>, after: seq<Symbol>)
    requires |xs| == |ys| <= 6
    requires Polymod(before + xs + after) == Polymod(before + ys + after)
    ensures xs == ys
  {
    var c := Polymod(before);
    PolymodAppend(ONE, before + xs, after);
    PolymodAppend(ONE, before + ys, after);
    PolymodAppend(ONE, before, xs);
    PolymodAppend(ONE, before, ys);
    PolymodInjective(PolymodFrom(c, xs), PolymodFrom(c, ys), after);
    WindowDetected(c, xs, ys);
  }

  // ---------- exactly one checksum ----------

  /** The six symbols that complete `values`. */
  function Checksum(values: seq<Symbol>): Register {
    Plus(Polymod(values + ZERO), ONE)
  }

  lemma XorSelf(p: bv5, o: bv5)
    ensures p ^ (0 ^ (p ^ o)) == o
  {
  }

  lemma ChecksumPasses(values: seq<Symbol>)
    ensures Polymod(values + Checksum(values)) == ONE
  {
    var p, good := Polymod(values + ZERO), Checksum(values);
    PolymodAppend(ONE, values, ZERO);
    PolymodAppend(ONE, values, good);
    WindowDifference(Polymod(values), ZERO, good);
    var d := Difference(ZERO, good);
    forall i | 0 <= i < 6 ensures Plus(p, d)[i] == ONE[i] {
      assert d[i] == 0 ^ (p[i] ^ ONE[i]);
      XorSelf(p[i], ONE[i]);
    }
  }

  /** Every string has one six-symbol completion that passes, and no other. */
  lemma ChecksumExact(values: seq<Symbol>, tail: seq<Symbol>)
    requires |tail| == 6
    ensures Polymod(values + tail) == ONE <==> tail == Checksum(values)
  {
    ChecksumPasses(values);
    if Polymod(values + tail) == ONE {
      var good := Checksum(values);
      assert values + tail == values + tail + [] && values + good == values + good + [];
      BurstDetected(values, tail, good, []);
    }
  }
}
