/** Server ids read from SRV target names such as `s-1234.example`. */
module ServerName {
  import opened Machine

  const WORDS: nat := U64_MAX + 1

  /** The first label of a name. */
  function Label(target: string): string {
    if target == [] || target[0] == '.' then [] else [target[0]] + Label(target[1..])
  }

  predicate IsDigit(c: char) { '0' <= c <= '9' }

  function DigitOf(c: char): nat
    requires IsDigit(c)
  {
    c as int - '0' as int
  }

  predicate AllDigits(s: string) { forall i :: 0 <= i < |s| ==> IsDigit(s[i]) }

  function Decimal(s: string): nat
    requires AllDigits(s)
  {
    if s == [] then 0 else 10 * Decimal(s[..|s| - 1]) + DigitOf(s[|s| - 1])
  }

  predicate NamesServer(name: string) {
    |name| >= 3 && name[..2] == "s-" && AllDigits(name[2..])
  }

  lemma {:induction false} LabelStops(target: string, n: nat)
    requires n <= |target| && forall i :: 0 <= i < n ==> target[i] != '.'
    requires n < |target| ==> target[n] == '.'
    ensures Label(target) == target[..n]
  {
    if n > 0 {
      LabelStops(target[1..], n - 1);
      assert target[..n] == [target[0]] + target[1..][..n - 1];
    }
  }

  method FirstDot(target: string) returns (n: nat)
    ensures n <= |target| && Label(target) == target[..n]
  {
    n := 0;
    while n < |target| && target[n] != '.'
      invariant n <= |target| && forall i :: 0 <= i < n ==> target[i] != '.'
    {
      n := n + 1;
    }
    LabelStops(target, n);
  }

  lemma WrapStep(v: nat, d: nat)
    ensures Add64(Mul64(v % WORDS, 10), d) == (10 * v + d) % WORDS
  {
    var q, r := v / WORDS, v % WORDS;
    assert 10 * v + d == (10 * q) * WORDS + (10 * r + d);
    ModShift(10 * q, 10 * r + d);
    ModAdd(10 * r, d);
  }

  lemma ModShift(q: nat, x: nat)
    ensures (q * WORDS + x) % WORDS == x % WORDS
  {
  }

  lemma ModAdd(x: nat, d: nat)
    ensures (x % WORDS + d) % WORDS == (x + d) % WORDS
  {
    var q := x / WORDS;
    assert x + d == q * WORDS + (x % WORDS + d);
    ModShift(q, x % WORDS + d);
  }

  /** The digits accumulated in 64 bits, which wrap. */
  function Accumulated(s: string): nat
    requires AllDigits(s)
  {
    if s == [] then 0 else Add64(Mul64(Accumulated(s[..|s| - 1]), 10), DigitOf(s[|s| - 1]))
  }

  lemma {:induction false} AccumulatedIs(s: string)
    requires AllDigits(s)
    ensures Accumulated(s) == Decimal(s) % WORDS
  {
    if s != [] {
      AccumulatedIs(s[..|s| - 1]);
      WrapStep(Decimal(s[..|s| - 1]), DigitOf(s[|s| - 1]));
    }
  }

  /** The number written in a server's target name, and the id the client reads from it. */
  function Number(target: string): nat
    requires NamesServer(Label(target))
  {
    Decimal(Label(target)[2..])
  }

  function IdOf(target: string): nat
    requires NamesServer(Label(target))
  {
    Accumulated(Label(target)[2..])
  }

  /** Reads the id of exactly the targets whose first label is `s-` and digits. */
  method Parse(target: string) returns (r: Option<nat>)
    ensures r.Some? <==> NamesServer(Label(target))
    ensures r.Some? ==> r.value == IdOf(target) == Number(target) % WORDS
  {
    var len := FirstDot(target);
    var name := target[..len];
    if len < 3 || name[0] != 's' || name[1] != '-' {
      return None;
    }
    assert name[..2] == "s-";
    var digits := name[2..];
    var value := 0;
    for i := 2 to len
      invariant forall j :: 0 <= j < i - 2 ==> IsDigit(digits[j])
      invariant value == Accumulated(digits[..i - 2])
    {
      var c := target[i];
      assert c == digits[i - 2];
      if !IsDigit(c) {
        return None;
      }
      assert digits[..i - 1][..i - 2] == digits[..i - 2];
      value := Add64(Mul64(value, 10), DigitOf(c));
    }
    assert digits[..len - 2] == digits;
    AccumulatedIs(digits);
    r := Some(value);
  }

  // ---------- when the id is the number ----------

  /** For every accepted target the id is the number in the name iff that number fits in 64 bits. */
  lemma IdIsNumber(target: string)
    requires NamesServer(Label(target))
    ensures IdOf(target) == Number(target) <==> Number(target) <= U64_MAX
  {
    AccumulatedIs(Label(target)[2..]);
  }

  /** Two accepted targets share an id iff their numbers are equal modulo 2^64. */
  lemma SharedIds(a: string, b: string)
    requires NamesServer(Label(a)) && NamesServer(Label(b))
    ensures IdOf(a) == IdOf(b) <==> Number(a) % WORDS == Number(b) % WORDS
  {
    AccumulatedIs(Label(a)[2..]);
    AccumulatedIs(Label(b)[2..]);
  }

  function DecimalDigits(v: nat): (s: string)
    ensures |s| >= 1 && AllDigits(s)
  {
    var c := ('0' as int + v % 10) as char;
    if v < 10 then [c] else DecimalDigits(v / 10) + [c]
  }

  lemma {:induction false} DecimalOfDigits(v: nat)
    ensures Decimal(DecimalDigits(v)) == v
  {
    var s := DecimalDigits(v);
    if v >= 10 {
      DecimalOfDigits(v / 10);
      assert s[..|s| - 1] == DecimalDigits(v / 10);
    } else {
      assert s[..0] == [];
    }
  }

  /** What follows the first label of a name. */
  predicate Suffix(s: string) { s != [] ==> s[0] == '.' }

  function Target(digits: string, suffix: string): string { "s-" + digits + suffix }

  lemma TargetIs(digits: string, suffix: string)
    requires AllDigits(digits) && digits != [] && Suffix(suffix)
    ensures Label(Target(digits, suffix)) == "s-" + digits
    ensures NamesServer(Label(Target(digits, suffix))) && Number(Target(digits, suffix)) == Decimal(digits)
  {
    var name, s := "s-" + digits, Target(digits, suffix);
    assert name[2..] == digits && name[..2] == "s-";
    assert forall i :: 2 <= i < |name| ==> name[i] == digits[i - 2];
    assert forall i :: 0 <= i < |name| ==> s[i] == name[i];
    LabelStops(s, |name|);
    assert s[..|name|] == name;
  }

  /** Under any domain every id has a second name, 2^64 higher, that the parser accepts. */
  lemma WideNamesCollide(v: nat, suffix: string)
    requires Suffix(suffix)
    ensures var a, b := Target(DecimalDigits(v), suffix), Target(DecimalDigits(v + WORDS), suffix);
      && NamesServer(Label(a)) && NamesServer(Label(b))
      && Number(a) == v && Number(b) == v + WORDS && IdOf(a) == IdOf(b)
  {
    var a, b := Target(DecimalDigits(v), suffix), Target(DecimalDigits(v + WORDS), suffix);
    TargetIs(DecimalDigits(v), suffix);
    TargetIs(DecimalDigits(v + WORDS), suffix);
    DecimalOfDigits(v);
    DecimalOfDigits(v + WORDS);
    ModShift(1, v);
    SharedIds(a, b);
  }

  lemma {:induction false} LeadingZero(digits: string)
    requires AllDigits(digits)
    ensures AllDigits("0" + digits) && Decimal("0" + digits) == Decimal(digits)
  {
    var s := "0" + digits;
    if digits == [] {
      assert s[..0] == [];
    } else {
      var n := |digits| - 1;
      LeadingZero(digits[..n]);
      assert s[..|s| - 1] == "0" + digits[..n];
    }
  }

  /** A leading zero makes another name with the same id, however small the number. */
  lemma LeadingZeroShares(digits: string, suffix: string)
    requires AllDigits(digits) && digits != [] && Suffix(suffix)
    ensures AllDigits("0" + digits)
    ensures var a, b := Target(digits, suffix), Target("0" + digits, suffix);
      a != b && NamesServer(Label(a)) && NamesServer(Label(b)) && IdOf(a) == IdOf(b)
  {
    LeadingZero(digits);
    TargetIs(digits, suffix);
    TargetIs("0" + digits, suffix);
    SharedIds(Target(digits, suffix), Target("0" + digits, suffix));
    assert |Target(digits, suffix)| + 1 == |Target("0" + digits, suffix)|;
  }
}
