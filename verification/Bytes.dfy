/** Little-endian byte strings. */
module Bytes {
  import opened Machine

  function LeValue(b: seq<byte>): nat {
    if b == [] then 0 else b[0] + 256 * LeValue(b[1..])
  }

  function LeBytes(v: nat, n: nat): (b: seq<byte>)
    ensures |b| == n
    decreases n
  {
    if n == 0 then [] else [v % 256] + LeBytes(v / 256, n - 1)
  }

  function Span(n: nat): nat {
    if n == 0 then 1 else 256 * Span(n - 1)
  }

  lemma {:induction false} ReadWritten(v: nat, n: nat)
    requires v < Span(n)
    ensures LeValue(LeBytes(v, n)) == v
    decreases n
  {
    if n > 0 {
      ReadWritten(v / 256, n - 1);
      assert LeBytes(v, n)[1..] == LeBytes(v / 256, n - 1);
    }
  }

  lemma {:induction false} WriteRead(b: seq<byte>)
    ensures LeValue(b) < Span(|b|)
    ensures LeBytes(LeValue(b), |b|) == b
  {
    if b != [] {
      WriteRead(b[1..]);
    }
  }

  lemma Spans()
    ensures Span(2) == U16_MAX + 1 && Span(4) == U32_MAX + 1 && Span(8) == U64_MAX + 1
  {
    assert Span(1) == 256 && Span(3) == 256 * Span(2);
    assert Span(5) == 256 * Span(4) && Span(6) == 256 * Span(5) && Span(7) == 256 * Span(6);
  }
}
