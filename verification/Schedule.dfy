/**
 The HA schedule: how many units round k lasts, and which policies a credential
 admits. The methods are the source's loops over machine words; `Gap`, `GapSum`
 and `Ttl` are the closed forms they are proved against.
 */
module Schedule {
  import opened Machine
  import opened Products

  datatype Growth = Fixed | Linear(step: u32) | Exponential(factor: u32) | Unknown

  datatype Schedule = Schedule(growth: Growth, initial: u32, max: u32)

  datatype Policy = Policy(
    unit: u64,
    replayCount: u32,
    gap: Schedule,
    finalUnits: u32,
    completionDelivery: bool)

  const MAX_REPLAY_COUNT: u32 := 65535

  function Pow(b: nat, e: nat): nat {
    if e == 0 then 1 else b * Pow(b, e - 1)
  }

  predicate LegalSchedule(s: Schedule, allowZero: bool) {
    && (allowZero || s.initial > 0)
    && s.initial <= s.max
    && match s.growth
       case Fixed => true
       case Linear(step) => step > 0
       case Exponential(factor) => factor >= 2
       case Unknown => false
  }

  /** B(k): the length of round k in units. */
  ghost function Gap(s: Schedule, k: nat): nat {
    match s.growth
    case Linear(step) => Min(s.max as int, s.initial as int + k * step as int)
    case Exponential(factor) => Min(s.max as int, s.initial as int * Pow(factor as int, k))
    case _ => s.initial as int
  }

  /** Units taken by rounds 0 .. n-1. */
  ghost function GapSum(s: Schedule, n: nat): nat {
    if n == 0 then 0 else GapSum(s, n - 1) + Gap(s, n - 1)
  }

  lemma {:induction false} PowPositive(b: nat, e: nat)
    requires b > 0
    ensures Pow(b, e) >= 1
  {
    if e > 0 {
      PowPositive(b, e - 1);
    }
  }

  lemma GapAtLeastOne(s: Schedule, k: nat)
    requires LegalSchedule(s, false)
    ensures Gap(s, k) >= 1
  {
    if s.growth.Exponential? {
      PowPositive(s.growth.factor as int, k);
      MulGrows(s.initial as int, Pow(s.growth.factor as int, k));
    }
  }

  lemma PowShift(v: nat, f: nat, r: nat)
    requires r > 0
    ensures v * Pow(f, r) == (v * f) * Pow(f, r - 1)
  {
  }

  /** `a > b / c`, the overflow-free spelling of `a * c > b`. */
  method ExceedsQuotient(a: u64, b: u64, c: u64) returns (r: bool)
    requires c > 0
    ensures r <==> a as int * c as int > b as int
  {
    var q := b / c;
    assert q as int == b as int / c as int;
    QuotientBound(a as int, b as int, c as int);
    r := a > q;
  }

  lemma QuotientBound(a: nat, b: nat, c: nat)
    requires c > 0
    ensures a > b / c <==> a * c > b
  {
    assert b == (b / c) * c + b % c;
    if a > b / c {
      MulOrder(b / c + 1, a, c);
    } else {
      MulOrder(a, b / c, c);
    }
  }

  method LinearUnits(initial: u32, max: u32, step: u32, round: u32) returns (value: u32)
    requires initial <= max && step > 0
    ensures value as int == Min(max as int, initial as int + round as int * step as int)
  {
    var room := max - initial;
    var past := ExceedsQuotient(round as u64, room as u64, step as u64);
    if past {
      value := max;
    } else {
      value := initial + round * step;
    }
  }

  /** One trip of the exponential loop keeps the capped product. */
  lemma CappedStep(value: nat, max: nat, factor: nat, left: nat)
    requires left > 0 && factor >= 2 && value <= max
    ensures value * factor > max ==> value * Pow(factor, left) >= max && max * Pow(factor, left - 1) >= max
    ensures value * Pow(factor, left) == (value * factor) * Pow(factor, left - 1)
  {
    PowShift(value, factor, left);
    PowPositive(factor, left - 1);
    MulGrows(value * factor, Pow(factor, left - 1));
    MulGrows(max, Pow(factor, left - 1));
  }

  method ExponentialUnits(initial: u32, max: u32, factor: u32, round: u32) returns (value: u32)
    requires initial <= max && factor >= 2
    ensures value as int == Min(max as int, initial as int * Pow(factor as int, round as int))
  {
    value := initial;
    var left := round;
    ghost var goal := Min(max as int, initial as int * Pow(factor as int, round as int));
    while left > 0 && value < max
      invariant left <= round && value <= max
      invariant Min(max as int, value as int * Pow(factor as int, left as int)) == goal
    {
      CappedStep(value as int, max as int, factor as int, left as int);
      var past := ExceedsQuotient(value as u64, max as u64, factor as u64);
      if past {
        value := max;
      } else {
        value := value * factor;
      }
      left := left - 1;
    }
    PowPositive(factor as int, left as int);
    MulGrows(value as int, Pow(factor as int, left as int));
  }

  method ScheduleUnits(s: Schedule, round: u32, allowZero: bool) returns (r: Option<u32>)
    ensures r.Some? <==> LegalSchedule(s, allowZero)
    ensures r.Some? ==> r.value as int == Gap(s, round as int)
  {
    if (!allowZero && s.initial == 0) || s.initial > s.max {
      return None;
    }
    var value := s.initial;
    match s.growth {
      case Fixed =>
      case Linear(step) =>
        if step == 0 {
          return None;
        }
        value := LinearUnits(s.initial, s.max, step, round);
      case Exponential(factor) =>
        if factor < 2 {
          return None;
        }
        value := ExponentialUnits(s.initial, s.max, factor, round);
      case Unknown =>
        return None;
    }
    return Some(value);
  }

  /** The longest deduplication window the credential admits. */
  function TtlLimit(quota: Option<u32>): int {
    if quota.Some? && quota.value > 0 then quota.value as int else U32_MAX
  }

  ghost function TotalUnits(p: Policy): nat {
    GapSum(p.gap, p.replayCount as int + 1) + p.finalUnits as int
  }

  ghost function Ttl(p: Policy): nat {
    p.unit as int * TotalUnits(p)
  }

  ghost predicate LegalPolicy(p: Policy, quota: Option<u32>) {
    && p.unit > 0
    && p.replayCount <= MAX_REPLAY_COUNT
    && LegalSchedule(p.gap, false)
    && Ttl(p) <= TtlLimit(quota)
  }

  lemma {:induction false} GapSumGrows(s: Schedule, m: nat, n: nat)
    requires LegalSchedule(s, false) && m <= n
    ensures GapSum(s, m) + (n - m) <= GapSum(s, n)
    decreases n
  {
    if m < n {
      GapAtLeastOne(s, n - 1);
      GapSumGrows(s, m, n - 1);
    }
  }

  lemma ProductExceeds(a: nat, b: nat, unit: nat, limit: int)
    requires a <= b && a * unit > limit
    ensures unit * b > limit
  {
    MulOrder(a, b, unit);
  }

  /** A prefix of the schedule that is already too long makes the whole policy illegal. */
  lemma TooLong(p: Policy, quota: Option<u32>, n: nat)
    requires LegalSchedule(p.gap, false)
    requires 0 < n <= p.replayCount as int + 1
    requires GapSum(p.gap, n) * p.unit as int > TtlLimit(quota)
    ensures !LegalPolicy(p, quota)
  {
    GapSumGrows(p.gap, n, p.replayCount as int + 1);
    ProductExceeds(GapSum(p.gap, n), TotalUnits(p), p.unit as int, TtlLimit(quota));
  }

  /** A unit longer than the limit leaves no room for a single round. */
  lemma UnitTooLong(p: Policy, quota: Option<u32>)
    requires LegalSchedule(p.gap, false)
    requires p.unit as int > TtlLimit(quota)
    ensures !LegalPolicy(p, quota)
  {
    GapSumGrows(p.gap, 0, 1);
    ProductExceeds(1, GapSum(p.gap, 1), p.unit as int, TtlLimit(quota));
    TooLong(p, quota, 1);
  }

  /** Adds up the rounds, giving up as soon as the running total passes the limit. */
  method RoundUnits(p: Policy, limit: u64) returns (r: Option<u64>)
    requires p.unit > 0 && p.replayCount <= MAX_REPLAY_COUNT && limit as int <= U32_MAX
    ensures r.Some? ==> LegalSchedule(p.gap, false)
    ensures r.Some? ==> r.value as int == GapSum(p.gap, p.replayCount as int + 1)
    ensures r.Some? ==> 0 < r.value <= limit
    ensures r.None? ==>
              || !LegalSchedule(p.gap, false)
              || exists n :: 0 < n <= p.replayCount as int + 1 && GapSum(p.gap, n) * p.unit as int > limit as int
  {
    var total: u64 := 0;
    var round: u32 := 0;
    while round <= p.replayCount
      invariant round <= p.replayCount + 1
      invariant round > 0 ==> LegalSchedule(p.gap, false)
      invariant total as int == GapSum(p.gap, round as int)
      invariant total <= limit
    {
      var gap := ScheduleUnits(p.gap, round, false);
      if gap.None? {
        return None;
      }
      total := total + gap.value as u64;
      round := round + 1;
      var past := ExceedsQuotient(total, limit, p.unit);
      if past {
        assert GapSum(p.gap, round as int) * p.unit as int > limit as int;
        return None;
      }
      MulGrows(total as int, p.unit as int);
    }
    GapSumGrows(p.gap, 0, round as int);
    return Some(total);
  }

  /** The validator accepts exactly the legal policies, and its result is the window `Ttl`. */
  method PolicyTtl(p: Policy, quota: Option<u32>) returns (r: Option<u32>)
    ensures r.Some? <==> LegalPolicy(p, quota)
    ensures r.Some? ==> r.value as int == Ttl(p) && r.value > 0
  {
    if p.unit == 0 || p.replayCount > MAX_REPLAY_COUNT {
      return None;
    }
    var limit: u64 := if quota.Some? && quota.value > 0 then quota.value as u64 else 0xFFFF_FFFF;
    if p.unit > limit {
      if LegalSchedule(p.gap, false) {
        UnitTooLong(p, quota);
      }
      return None;
    }
    var rounds := RoundUnits(p, limit);
    if rounds.None? {
      if LegalSchedule(p.gap, false) {
        ghost var n :| 0 < n <= p.replayCount as int + 1 && GapSum(p.gap, n) * p.unit as int > limit as int;
        TooLong(p, quota, n);
      }
      return None;
    }
    var total := rounds.value + p.finalUnits as u64;
    assert total as int == TotalUnits(p);
    var past32 := ExceedsQuotient(total, 0xFFFF_FFFF, p.unit);
    var past := ExceedsQuotient(total, limit, p.unit);
    if total == 0 || past32 || past {
      return None;
    }
    MulGrows(total as int, p.unit as int);
    return Some((total * p.unit) as u32);
  }
}
