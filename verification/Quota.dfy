/** The packed quota word of a credential. */
module Quota {
  import opened Machine
  import opened Regroup
  import opened Schedule

  datatype Quotas = Quotas(
    rateBuckets: nat,
    latencyServices: nat,
    metricsLabels: nat,
    latencyBuffer: nat,
    dedupTtlMs: nat,
    rateWindowMs: nat)

  datatype Fields = Fields(rate: nat, latency: nat, labels: nat, buffer: nat, dedup: nat, window: nat)

  /** The word's bit fields: 5, 5, 5, 4, 8 and 5 bits from the bottom. */
  function Split(word: nat): Fields {
    Fields(word % 32, word / 32 % 32, word / 1024 % 32, word / 32768 % 16, word / 524288 % 256, word / 134217728 % 32)
  }

  function WindowMs(exponent: nat): nat {
    if exponent == 31 then U32_MAX else Pow2(exponent)
  }

  function DecodeQuota(word: nat): Option<Quotas> {
    var f := Split(word);
    if f.rate > 24 || f.latency > 24 || f.dedup < 1 || f.dedup > 200 then None
    else Some(Quotas(Pow2(f.rate), Pow2(f.latency), Pow2(f.labels), Pow2(f.buffer), f.dedup * 10, WindowMs(f.window)))
  }

  lemma {:induction false} Pow2Grows(a: nat, b: nat)
    requires a < b
    ensures Pow2(a) < Pow2(b)
    decreases b
  {
    if a + 1 < b {
      Pow2Grows(a, b - 1);
    }
    Pow2Positive(b - 1);
  }

  lemma {:induction false} Pow2Positive(n: nat)
    ensures Pow2(n) >= 1
  {
    if n > 0 {
      Pow2Positive(n - 1);
    }
  }

  lemma Pow2Injective(a: nat, b: nat)
    requires Pow2(a) == Pow2(b)
    ensures a == b
  {
    if a < b {
      Pow2Grows(a, b);
    } else if b < a {
      Pow2Grows(b, a);
    }
  }

  lemma Pow2At30()
    ensures Pow2(30) == 0x4000_0000
  {
    PlaceSteps(8);
    Pow2Adds(8, 7);
    Pow2Adds(15, 15);
    PlaceSteps(7);
  }

  lemma WindowInjective(a: nat, b: nat)
    requires a < 32 && b < 32 && WindowMs(a) == WindowMs(b)
    ensures a == b
  {
    Pow2At30();
    if a < 30 {
      Pow2Grows(a, 30);
    }
    if b < 30 {
      Pow2Grows(b, 30);
    }
    if a != 31 && b != 31 {
      Pow2Injective(a, b);
    }
  }

  /** A 32-bit word is its fields. */
  lemma SplitInjective(v: nat, w: nat)
    requires v <= U32_MAX && w <= U32_MAX && Split(v) == Split(w)
    ensures v == w
  {
    Reassemble(v);
    Reassemble(w);
  }

  lemma Reassemble(w: nat)
    requires w <= U32_MAX
    ensures
      var f := Split(w);
      w == f.rate + 32 * f.latency + 1024 * f.labels + 32768 * f.buffer + 524288 * f.dedup + 134217728 * f.window
  {
    var a := w / 32;
    var b := w / 1024;
    var c := w / 32768;
    var d := w / 524288;
    var e := w / 134217728;
    assert b == a / 32 && c == b / 32 && d == c / 16 && e == d / 256;
    assert e < 32;
  }

  /** Two accepted words that grant the same quotas are the same word. */
  lemma QuotaInjective(v: nat, w: nat)
    requires v <= U32_MAX && w <= U32_MAX
    requires DecodeQuota(v).Some? && DecodeQuota(v) == DecodeQuota(w)
    ensures v == w
  {
    var f, g := Split(v), Split(w);
    Pow2Injective(f.rate, g.rate);
    Pow2Injective(f.latency, g.latency);
    Pow2Injective(f.labels, g.labels);
    Pow2Injective(f.buffer, g.buffer);
    WindowInjective(f.window, g.window);
    SplitInjective(v, w);
  }

  // ---------- what a word grants ----------

  /** The word with these exponents and units in its fields. */
  function QuotaWord(rate: nat, latency: nat, labels: nat, buffer: nat, dedup: nat, window: nat): nat {
    rate + 32 * latency + 1024 * labels + 32768 * buffer + 524288 * dedup + 134217728 * window
  }

  lemma SplitWord(rate: nat, latency: nat, labels: nat, buffer: nat, dedup: nat, window: nat)
    requires rate < 32 && latency < 32 && labels < 32 && buffer < 16 && dedup < 256 && window < 32
    ensures QuotaWord(rate, latency, labels, buffer, dedup, window) <= U32_MAX
    ensures Split(QuotaWord(rate, latency, labels, buffer, dedup, window))
      == Fields(rate, latency, labels, buffer, dedup, window)
  {
    var w := QuotaWord(rate, latency, labels, buffer, dedup, window);
    var f := Split(w);
    Reassemble(w);
    var d, d' := dedup + 256 * window, f.dedup + 256 * f.window;
    var c, c' := buffer + 16 * d, f.buffer + 16 * d';
    var b, b' := labels + 32 * c, f.labels + 32 * c';
    var a, a' := latency + 32 * b, f.latency + 32 * b';
    QuotientUnique(a, a', rate, f.rate, 32);
    QuotientUnique(b, b', latency, f.latency, 32);
    QuotientUnique(c, c', labels, f.labels, 32);
    QuotientUnique(d, d', buffer, f.buffer, 16);
    QuotientUnique(window, f.window, dedup, f.dedup, 256);
  }

  lemma {:induction false} Pow2IsPower(n: nat)
    ensures Pow2(n) == Pow(2, n)
  {
    if n > 0 {
      Pow2IsPower(n - 1);
    }
  }

  /** What the fields of a legal word grant; the largest window exponent means no limit but the word's. */
  function Granted(rate: nat, latency: nat, labels: nat, buffer: nat, dedup: nat, window: nat): Quotas {
    Quotas(Pow(2, rate), Pow(2, latency), Pow(2, labels), Pow(2, buffer), 10 * dedup,
           if window == 31 then 0xFFFF_FFFF else Pow(2, window))
  }

  predicate Legal(rate: nat, latency: nat, labels: nat, buffer: nat, dedup: nat, window: nat) {
    rate <= 24 && latency <= 24 && labels < 32 && buffer < 16 && 1 <= dedup <= 200 && window < 32
  }

  /**
   A word is accepted exactly if both bucket exponents are at most 24 and the deduplication time is
   1 to 200 units, and then grants the powers of two of its exponents and ten milliseconds a unit.
   */
  lemma QuotaOfFields(rate: nat, latency: nat, labels: nat, buffer: nat, dedup: nat, window: nat)
    requires rate < 32 && latency < 32 && labels < 32 && buffer < 16 && dedup < 256 && window < 32
    ensures DecodeQuota(QuotaWord(rate, latency, labels, buffer, dedup, window))
         == if Legal(rate, latency, labels, buffer, dedup, window)
            then Some(Granted(rate, latency, labels, buffer, dedup, window)) else None
  {
    SplitWord(rate, latency, labels, buffer, dedup, window);
    Pow2IsPower(rate);
    Pow2IsPower(latency);
    Pow2IsPower(labels);
    Pow2IsPower(buffer);
    Pow2IsPower(window);
  }

  /** Every 32-bit word is the word of some fields. */
  lemma WordOfFields(word: nat) returns (f: Fields)
    requires word <= U32_MAX
    ensures f.rate < 32 && f.latency < 32 && f.labels < 32 && f.buffer < 16 && f.dedup < 256 && f.window < 32
    ensures word == QuotaWord(f.rate, f.latency, f.labels, f.buffer, f.dedup, f.window)
  {
    f := Split(word);
    Reassemble(word);
  }
}
