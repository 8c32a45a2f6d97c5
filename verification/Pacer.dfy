/**
 The load generator's fixed-rate pacer. Worker w of n owns slots w, w+n, w+2n, ..;
 a late worker skips slots it can no longer meet. The object works on 64-bit
 fields; `Advance` is the same arithmetic without bounds.
 */
module Pacer {
  import opened Machine
  import opened Products

  datatype Pace = Pace(start: nat, end: nat, rps: nat, workers: nat, worker: nat, next: nat, skipped: nat)

  const NS: nat := 1_000_000_000

  function Quot(a: nat, b: nat): (q: nat)
    requires b > 0
    ensures q * b <= a < q * b + b
  {
    a / b
  }

  lemma CancelLe(a: nat, b: nat, r: nat)
    requires r > 0 && a * r <= b * r
    ensures a <= b
  {
  }

  lemma CancelLt(a: nat, b: nat, r: nat)
    requires a * r < b * r
    ensures a < b
  {
  }

  // ---------- exact arithmetic ----------

  function Elapsed(p: Pace, now: nat): nat {
    if now > p.start then now - p.start else 0
  }

  /** First global slot whose deadline has not passed. */
  function CurrentSlot(p: Pace, now: nat): nat {
    (Elapsed(p, now) * p.rps + 999999999) / NS
  }

  /** First of this worker's ordinals at or after that slot. */
  function DesiredOrdinal(p: Pace, now: nat): nat
    requires p.workers > 0
  {
    var current := CurrentSlot(p, now);
    if current > p.worker then Quot(current - p.worker + p.workers - 1, p.workers) else 0
  }

  function Ordinal(p: Pace, now: nat): nat
    requires p.workers > 0
  {
    var desired := DesiredOrdinal(p, now);
    if desired > p.next then desired else p.next
  }

  function Slot(p: Pace, ordinal: nat): nat {
    p.worker + ordinal * p.workers
  }

  function Offset(p: Pace, slot: nat): nat
    requires p.rps > 0
  {
    Quot(slot * NS, p.rps)
  }

  function Skip(p: Pace, now: nat): Pace
    requires p.workers > 0
  {
    p.(next := Ordinal(p, now), skipped := p.skipped + (Ordinal(p, now) - p.next))
  }

  /** The pacer after a call, and the due time if a slot is issued. */
  function Advance(p: Pace, now: nat): (Pace, Option<nat>)
    requires p.workers > 0 && p.rps > 0 && p.start <= p.end
  {
    if now >= p.end then (p, None)
    else
      var q := Skip(p, now);
      var offset := Offset(p, Slot(p, q.next));
      if offset >= p.end - p.start then (q, None)
      else (q.(next := q.next + 1), Some(p.start + offset))
  }

  // ---------- one call ----------

  lemma CeilBound(a: nat, b: nat)
    requires b > 0
    ensures Quot(a + b - 1, b) * b >= a
  {
  }

  lemma FloorBelow(x: nat, r: nat, d: nat)
    requires r > 0 && Quot(x, r) < d
    ensures x < d * r
  {
    MulStrict(Quot(x, r), d, r);
  }

  lemma FloorAtLeast(x: nat, r: nat, e: nat)
    requires r > 0 && e * r <= x
    ensures e <= Quot(x, r)
  {
    assert (Quot(x, r) + 1) * r == Quot(x, r) * r + r;
    CancelLt(e, Quot(x, r) + 1, r);
  }

  lemma FloorAtMost(x: nat, r: nat, m: nat)
    requires r > 0 && x <= m * r
    ensures Quot(x, r) <= m
  {
    CancelLe(Quot(x, r), m, r);
  }

  /** The slot taken is not before the current one, so its due time has not passed. */
  lemma DueNotPast(p: Pace, now: nat)
    requires p.workers > 0 && p.rps > 0
    ensures Slot(p, Ordinal(p, now)) >= CurrentSlot(p, now)
    ensures Offset(p, Slot(p, Ordinal(p, now))) >= Elapsed(p, now)
  {
    var current, slot := CurrentSlot(p, now), Slot(p, Ordinal(p, now));
    assert slot >= current by {
      var desired, ord := DesiredOrdinal(p, now), Ordinal(p, now);
      if current > p.worker {
        CeilBound(current - p.worker, p.workers);
        assert ord * p.workers >= desired * p.workers;
      }
    }
    CeilBound(Elapsed(p, now) * p.rps, NS);
    assert slot * NS >= Elapsed(p, now) * p.rps;
    FloorAtLeast(slot * NS, p.rps, Elapsed(p, now));
  }

  /** What a worker skips, it could no longer meet: every ordinal passed over was due before now. */
  lemma SkippedWereLate(p: Pace, now: nat, o: nat)
    requires p.workers > 0 && p.rps > 0 && p.next <= o < Ordinal(p, now)
    ensures Slot(p, o) < CurrentSlot(p, now)
    ensures Offset(p, Slot(p, o)) < Elapsed(p, now)
  {
    OrdinalIsNeeded(p, now, o);
    SlotIsLate(Slot(p, o), Elapsed(p, now), p.rps);
  }

  lemma OrdinalIsNeeded(p: Pace, now: nat, o: nat)
    requires p.workers > 0 && p.next <= o < Ordinal(p, now)
    ensures Slot(p, o) < CurrentSlot(p, now)
  {
    MulStrict(o, DesiredOrdinal(p, now), p.workers);
  }

  lemma SlotIsLate(slot: nat, elapsed: nat, rps: nat)
    requires rps > 0 && slot < (elapsed * rps + 999999999) / NS
    ensures Quot(slot * NS, rps) < elapsed
  {
    assert slot * NS < elapsed * rps;
    CancelLt(Quot(slot * NS, rps), elapsed, rps);
  }

  /** Slots the measurement plans in all. */
  function Planned(p: Pace, seconds: nat): nat {
    p.rps * seconds
  }

  lemma SlotPlanned(rps: nat, seconds: nat, slot: nat)
    requires rps > 0 && Quot(slot * NS, rps) < seconds * NS
    ensures slot < rps * seconds
  {
    FloorBelow(slot * NS, rps, seconds * NS);
    assert (seconds * NS) * rps == (rps * seconds) * NS;
  }

  /** An issued slot is due no earlier than now and before the end, and is one of the planned ones. */
  lemma IssueInTime(p: Pace, now: nat, seconds: nat)
    requires p.workers > 0 && p.rps > 0 && p.end == p.start + seconds * NS
    requires Advance(p, now).1.Some?
    ensures
      var (q, due) := Advance(p, now);
      && now <= due.value < p.end && p.start <= due.value
      && q.next == Ordinal(p, now) + 1
      && Slot(p, q.next - 1) < Planned(p, seconds)
      && p.start + Offset(p, Slot(p, q.next - 1)) == due.value
  {
    DueNotPast(p, now);
    SlotPlanned(p.rps, seconds, Slot(p, Ordinal(p, now)));
  }

  /** When one of the worker's slots is due. */
  function Due(p: Pace, ordinal: nat): nat
    requires p.rps > 0
  {
    p.start + Offset(p, Slot(p, ordinal))
  }

  /** A slot still open to the worker: not given or skipped yet, not late, and before the end. */
  predicate Open(p: Pace, now: nat, ordinal: nat)
    requires p.rps > 0
  {
    p.next <= ordinal && now <= Due(p, ordinal) < p.end
  }

  lemma OffsetOrder(p: Pace, a: nat, b: nat)
    requires p.rps > 0 && a <= b
    ensures Offset(p, Slot(p, a)) <= Offset(p, Slot(p, b))
  {
    MulOrder(a, b, p.workers);
    MulOrder(Slot(p, a), Slot(p, b), NS);
    var x, y := Slot(p, a) * NS, Slot(p, b) * NS;
    FloorAtLeast(y, p.rps, Quot(x, p.rps));
  }

  lemma OpenIsLater(p: Pace, now: nat, o: nat)
    requires p.workers > 0 && p.rps > 0 && p.next <= o
    ensures o < Ordinal(p, now) ==> Due(p, o) < now
    ensures Ordinal(p, now) <= o ==> now <= Due(p, o) && Due(p, Ordinal(p, now)) <= Due(p, o)
  {
    DueNotPast(p, now);
    if o < Ordinal(p, now) {
      SkippedWereLate(p, now, o);
    } else {
      OffsetOrder(p, Ordinal(p, now), o);
    }
  }

  /**
   A call issues a slot exactly if one is open, and then the first one; whatever it passes over was
   due before now.
   */
  lemma IssuesFirstOpen(p: Pace, now: nat)
    requires p.workers > 0 && p.rps > 0 && p.start <= p.end
    ensures
      var (q, due) := Advance(p, now);
      && (due.Some? <==> now < p.end && exists o :: Open(p, now, o))
      && (due.Some? ==> q.next >= 1 && Open(p, now, q.next - 1) && due.value == Due(p, q.next - 1))
      && (forall o: nat :: p.next <= o < q.next ==> (due.Some? && o == q.next - 1) || Due(p, o) < now)
      && (now >= p.end ==> q == p)
  {
    var (q, due) := Advance(p, now);
    forall o: nat | p.next <= o
      ensures o < Ordinal(p, now) ==> Due(p, o) < now
      ensures Ordinal(p, now) <= o ==> now <= Due(p, o) && Due(p, Ordinal(p, now)) <= Due(p, o)
    {
      OpenIsLater(p, now, o);
    }
    if due.Some? {
      assert Open(p, now, Ordinal(p, now));
    }
  }

  // ---------- 64-bit arithmetic ----------

  function Wrap(x: nat): nat { x % (U64_MAX + 1) }

  function DesiredWord(p: Pace, now: nat): nat
    requires p.workers > 0
  {
    var current := Wrap((Elapsed(p, now) * p.rps + 999999999) / NS);
    if current > p.worker then Quot(Wrap(current - p.worker + p.workers - 1), p.workers) else 0
  }

  function SkipWord(p: Pace, now: nat): Pace
    requires p.workers > 0
  {
    var desired := DesiredWord(p, now);
    if desired > p.next then p.(next := desired, skipped := Wrap(p.skipped + (desired - p.next))) else p
  }

  function AdvanceWord(p: Pace, now: nat): (Pace, Option<nat>)
    requires p.workers > 0 && p.rps > 0 && p.start <= p.end
  {
    if now >= p.end then (p, None)
    else
      var q := SkipWord(p, now);
      var slot := Add64(p.worker, Mul64(q.next, p.workers));
      var offset := Wrap(Quot(slot * NS, p.rps));
      if offset >= p.end - p.start then (q, None)
      else (q.(next := Wrap(q.next + 1)), Some(Wrap(p.start + offset)))
  }

  /** A pacer the command line can configure: its limits, and the ordinal still inside the plan. */
  predicate Configured(p: Pace, seconds: nat) {
    && 1 <= p.rps <= 1_000_000
    && 1 <= seconds <= 86_400
    && p.worker < p.workers <= 1024
    && p.end == p.start + seconds * NS <= U64_MAX
    && p.next <= Planned(p, seconds)
    && p.skipped <= p.next
  }

  lemma ProductBound(a: nat, b: nat, amax: nat, bmax: nat)
    requires a <= amax && b <= bmax
    ensures a * b <= amax * bmax
  {
    assert a * b <= amax * b <= amax * bmax;
  }

  lemma CurrentInPlan(p: Pace, now: nat, seconds: nat)
    requires Configured(p, seconds) && now < p.end
    ensures CurrentSlot(p, now) <= Planned(p, seconds) <= 86_400_000_000
  {
    ProductBound(Elapsed(p, now), p.rps, seconds * NS, p.rps);
    assert (seconds * NS) * p.rps == (p.rps * seconds) * NS;
    ProductBound(p.rps, seconds, 1_000_000, 86_400);
  }

  lemma OrdinalInPlan(p: Pace, now: nat, seconds: nat)
    requires Configured(p, seconds) && now < p.end
    ensures DesiredOrdinal(p, now) <= CurrentSlot(p, now)
    ensures Ordinal(p, now) <= Planned(p, seconds)
  {
    CurrentInPlan(p, now, seconds);
    var current := CurrentSlot(p, now);
    if current > p.worker {
      QuotientAtMost(current - p.worker, p.workers);
    }
  }

  lemma {:induction false} SumBelowProduct(a: nat, b: nat)
    requires a > 0 && b > 0
    ensures a + b - 1 <= a * b
  {
    if a > 1 {
      SumBelowProduct(a - 1, b);
      Spread(a - 1, 1, b);
    }
  }

  lemma QuotientAtMost(a: nat, b: nat)
    requires b > 0 && a > 0
    ensures Quot(a + b - 1, b) <= a
  {
    SumBelowProduct(a, b);
    FloorAtMost(a + b - 1, b, a);
  }

  lemma SlotFits(p: Pace, ordinal: nat, seconds: nat)
    requires Configured(p, seconds) && ordinal <= Planned(p, seconds)
    ensures ordinal * p.workers <= 88_473_600_000_000
    ensures Offset(p, Slot(p, ordinal)) <= U64_MAX - p.workers
  {
    ProductBound(p.rps, seconds, 1_000_000, 86_400);
    ProductBound(ordinal, p.workers, 86_400_000_000, 1024);
    var slot := Slot(p, ordinal);
    assert slot <= p.rps * 88_474_624 by {
      ProductBound(ordinal, p.workers, p.rps * seconds, 1024);
      ProductBound(seconds, p.rps, 86_400, p.rps);
      assert p.worker <= 1024 * p.rps;
    }
    assert slot * NS <= (88_474_624 * NS) * p.rps;
    FloorAtMost(slot * NS, p.rps, 88_474_624 * NS);
  }

  lemma DesiredExact(p: Pace, now: nat, seconds: nat)
    requires Configured(p, seconds) && now < p.end
    ensures DesiredWord(p, now) == DesiredOrdinal(p, now)
  {
    CurrentInPlan(p, now, seconds);
  }

  lemma SkipExact(p: Pace, now: nat, seconds: nat)
    requires Configured(p, seconds) && now < p.end
    ensures SkipWord(p, now) == Skip(p, now)
    ensures Skip(p, now).next == Ordinal(p, now) <= Planned(p, seconds) <= 86_400_000_000
  {
    DesiredExact(p, now, seconds);
    CurrentInPlan(p, now, seconds);
    OrdinalInPlan(p, now, seconds);
  }

  lemma SlotExact(p: Pace, ordinal: nat, seconds: nat)
    requires Configured(p, seconds) && ordinal <= Planned(p, seconds)
    ensures Add64(p.worker, Mul64(ordinal, p.workers)) == Slot(p, ordinal)
    ensures Wrap(Quot(Slot(p, ordinal) * NS, p.rps)) == Offset(p, Slot(p, ordinal))
  {
    SlotFits(p, ordinal, seconds);
  }

  /** With command-line limits no 64-bit operation of the pacer wraps. */
  lemma NoWrapping(p: Pace, now: nat, seconds: nat)
    requires Configured(p, seconds)
    ensures AdvanceWord(p, now) == Advance(p, now)
  {
    if now < p.end {
      SkipExact(p, now, seconds);
      SlotExact(p, Ordinal(p, now), seconds);
    }
  }

  lemma OrdinalBelowSlot(p: Pace, ordinal: nat)
    requires p.workers > 0
    ensures ordinal <= Slot(p, ordinal)
  {
    assert ordinal * p.workers >= ordinal;
  }

  /** Every call keeps the limits, and accounts for each ordinal it passes. */
  lemma AdvanceKeeps(p: Pace, now: nat, seconds: nat)
    requires Configured(p, seconds)
    ensures
      var (q, due) := Advance(p, now);
      && Configured(q, seconds)
      && q == p.(next := q.next, skipped := q.skipped)
      && q.next - p.next == (q.skipped - p.skipped) + (if due.Some? then 1 else 0)
  {
    if now < p.end {
      SkipExact(p, now, seconds);
      if Advance(p, now).1.Some? {
        IssueInTime(p, now, seconds);
        OrdinalBelowSlot(p, Ordinal(p, now));
      }
    }
  }

  // ---------- the object ----------

  class PacerObject {
    var start: nat
    var end: nat
    var rps: nat
    var workers: nat
    var worker: nat
    var nextOrdinal: nat
    var skipped: nat

    ghost function View(): Pace
      reads this
    {
      Pace(start, end, rps, workers, worker, nextOrdinal, skipped)
    }

    method Init(startNs: nat, targetRps: nat, workerCount: nat, workerId: nat, durationNs: nat) returns (ok: bool)
      requires startNs <= U64_MAX && durationNs <= U64_MAX
      modifies this
      ensures ok <==> 0 < targetRps <= 1_000_000 && workerId < workerCount && 0 < durationNs <= U64_MAX - startNs
      ensures View() == if ok then Pace(startNs, startNs + durationNs, targetRps, workerCount, workerId, 0, 0) else old(View())
    {
      if targetRps == 0 || targetRps > 1_000_000 || workerCount == 0 || workerId >= workerCount
        || durationNs == 0 || durationNs > U64_MAX - startNs {
        return false;
      }
      start, end, rps, workers, worker := startNs, startNs + durationNs, targetRps, workerCount, workerId;
      nextOrdinal, skipped := 0, 0;
      return true;
    }

    /** Jumps over the slots that are already late. */
    method Skip(now: nat)
      requires workers > 0 && rps > 0
      modifies this`nextOrdinal, this`skipped
      ensures View() == SkipWord(old(View()), now)
    {
      var elapsed := if now > start then now - start else 0;
      var current := Wrap((elapsed * rps + 999999999) / NS);
      var desired := if current > worker then Quot(Wrap(current - worker + workers - 1), workers) else 0;
      if desired > nextOrdinal {
        skipped := Wrap(skipped + (desired - nextOrdinal));
        nextOrdinal := desired;
      }
    }

    method Next(now: nat) returns (due: Option<nat>)
      requires workers > 0 && rps > 0 && start <= end
      modifies this`nextOrdinal, this`skipped
      ensures (View(), due) == AdvanceWord(old(View()), now)
    {
      if now >= end {
        return None;
      }
      Skip(now);
      var slot := Add64(worker, Mul64(nextOrdinal, workers));
      var offset := Wrap(Quot(slot * NS, rps));
      if offset >= end - start {
        return None;
      }
      due := Some(Wrap(start + offset));
      nextOrdinal := Wrap(nextOrdinal + 1);
    }
  }

  // ---------- the fleet ----------

  /** A slot given to a worker, when it asked, and when the slot is due. */
  datatype Issue = Issue(worker: nat, ordinal: nat, asked: nat, due: nat)

  /** All workers of one measurement and what they have been given. */
  datatype Fleet = Fleet(paces: seq<Pace>, issued: seq<Issue>)

  /** Worker w asks at time `now`. */
  datatype Ask = Ask(w: nat, now: nat)

  predicate Askable(f: Fleet, a: Ask) {
    a.w < |f.paces| && f.paces[a.w].workers > 0 && f.paces[a.w].rps > 0 && f.paces[a.w].start <= f.paces[a.w].end
  }

  function Serve(f: Fleet, a: Ask): Fleet {
    if !Askable(f, a) then f
    else
      var p := f.paces[a.w];
      var (q, due) := AdvanceWord(p, a.now);
      Fleet(f.paces[a.w := q],
            if due.Some? then f.issued + [Issue(a.w, SkipWord(p, a.now).next, a.now, due.value)] else f.issued)
  }

  function ServeAll(f: Fleet, asks: seq<Ask>): Fleet {
    if asks == [] then f else Serve(ServeAll(f, asks[..|asks| - 1]), asks[|asks| - 1])
  }

  function SlotOf(f: Fleet, i: Issue): nat {
    i.worker + i.ordinal * |f.paces|
  }

  predicate SameRun(f: Fleet, seconds: nat) {
    && |f.paces| > 0
    && forall w :: 0 <= w < |f.paces| ==>
         && Configured(f.paces[w], seconds)
         && f.paces[w].worker == w
         && f.paces[w].workers == |f.paces|
         && f.paces[w].start == f.paces[0].start
         && f.paces[w].rps == f.paces[0].rps
  }

  /** A slot in the plan, due in its window, and behind its owner's next ordinal. */
  predicate IssueOk(f: Fleet, i: Issue, seconds: nat)
    requires |f.paces| > 0
  {
    && i.worker < |f.paces|
    && i.ordinal < f.paces[i.worker].next
    && SlotOf(f, i) < f.paces[0].rps * seconds
    && i.asked <= i.due && f.paces[0].start <= i.due < f.paces[0].start + seconds * NS
    && f.paces[0].rps > 0 && i.due == f.paces[0].start + Quot(SlotOf(f, i) * NS, f.paces[0].rps)
  }

  predicate Different(a: Issue, b: Issue) {
    a.worker != b.worker || a.ordinal != b.ordinal
  }

  /** How many slots worker `w` has been given. */
  function Given(issued: seq<Issue>, w: nat): nat {
    if issued == [] then 0
    else Given(issued[..|issued| - 1], w) + if issued[|issued| - 1].worker == w then 1 else 0
  }

  predicate FleetInv(f: Fleet, seconds: nat) {
    && SameRun(f, seconds)
    && (forall i :: 0 <= i < |f.issued| ==> IssueOk(f, f.issued[i], seconds))
    && (forall i, j :: 0 <= i < j < |f.issued| ==> Different(f.issued[i], f.issued[j]))
    && (forall w :: 0 <= w < |f.paces| ==> f.paces[w].next == f.paces[w].skipped + Given(f.issued, w))
  }

  lemma GivenMore(issued: seq<Issue>, i: Issue, w: nat)
    ensures Given(issued + [i], w) == Given(issued, w) + if i.worker == w then 1 else 0
  {
    assert (issued + [i])[..|issued|] == issued;
  }

  /** One worker's call, seen from that worker's pacer. */
  lemma CallEffect(p: Pace, now: nat, seconds: nat)
    requires Configured(p, seconds)
    ensures
      var (q, due) := AdvanceWord(p, now);
      && Configured(q, seconds)
      && q == p.(next := q.next, skipped := q.skipped) && p.next <= q.next
      && q.next - q.skipped == p.next - p.skipped + (if due.Some? then 1 else 0)
      && (due.Some? ==>
            && p.next <= SkipWord(p, now).next < q.next
            && Slot(p, SkipWord(p, now).next) < p.rps * seconds
            && now <= due.value && p.start <= due.value < p.end
            && due.value == Due(p, SkipWord(p, now).next))
  {
    NoWrapping(p, now, seconds);
    AdvanceKeeps(p, now, seconds);
    if now < p.end {
      SkipExact(p, now, seconds);
    }
    if Advance(p, now).1.Some? {
      IssueInTime(p, now, seconds);
    }
  }

  lemma ServeSameRun(f: Fleet, a: Ask, seconds: nat)
    requires SameRun(f, seconds)
    ensures SameRun(Serve(f, a), seconds)
    ensures |Serve(f, a).paces| == |f.paces|
    ensures Serve(f, a).paces[0].rps == f.paces[0].rps && Serve(f, a).paces[0].start == f.paces[0].start
    ensures forall w :: 0 <= w < |f.paces| ==> f.paces[w].next <= Serve(f, a).paces[w].next
  {
    if a.w < |f.paces| {
      CallEffect(f.paces[a.w], a.now, seconds);
    }
  }

  lemma IssueStays(f: Fleet, f': Fleet, i: Issue, seconds: nat)
    requires |f'.paces| == |f.paces| > 0 && f'.paces[0].rps == f.paces[0].rps && f'.paces[0].start == f.paces[0].start
    requires forall w :: 0 <= w < |f.paces| ==> f.paces[w].next <= f'.paces[w].next
    requires IssueOk(f, i, seconds)
    ensures IssueOk(f', i, seconds)
  {
  }

  lemma ServeKeeps(f: Fleet, a: Ask, seconds: nat)
    requires FleetInv(f, seconds)
    ensures FleetInv(Serve(f, a), seconds)
    ensures |Serve(f, a).paces| == |f.paces|
    ensures Serve(f, a).paces[0].rps == f.paces[0].rps && Serve(f, a).paces[0].start == f.paces[0].start
  {
    var f' := Serve(f, a);
    ServeSameRun(f, a, seconds);
    forall i | 0 <= i < |f.issued| ensures IssueOk(f', f.issued[i], seconds) {
      IssueStays(f, f', f.issued[i], seconds);
    }
    if a.w < |f.paces| {
      var p := f.paces[a.w];
      CallEffect(p, a.now, seconds);
      ServeCounts(f, a, seconds);
    }
  }

  lemma ServeCounts(f: Fleet, a: Ask, seconds: nat)
    requires FleetInv(f, seconds) && a.w < |f.paces|
    ensures forall w :: 0 <= w < |f.paces| ==>
      Serve(f, a).paces[w].next == Serve(f, a).paces[w].skipped + Given(Serve(f, a).issued, w)
  {
    var p := f.paces[a.w];
    CallEffect(p, a.now, seconds);
    var (_, due) := AdvanceWord(p, a.now);
    if due.Some? {
      forall w | 0 <= w < |f.paces| {
        GivenMore(f.issued, Issue(a.w, SkipWord(p, a.now).next, a.now, due.value), w);
      }
    }
  }

  lemma {:induction false} RunsKeep(f: Fleet, asks: seq<Ask>, seconds: nat)
    requires FleetInv(f, seconds)
    ensures FleetInv(ServeAll(f, asks), seconds)
    ensures |ServeAll(f, asks).paces| == |f.paces|
    ensures ServeAll(f, asks).paces[0].rps == f.paces[0].rps && ServeAll(f, asks).paces[0].start == f.paces[0].start
  {
    if asks != [] {
      RunsKeep(f, asks[..|asks| - 1], seconds);
      ServeKeeps(ServeAll(f, asks[..|asks| - 1]), asks[|asks| - 1], seconds);
    }
  }

  // ---------- what the measurement relies on ----------

  /** A slot number names its worker and ordinal. */
  lemma SlotOwner(n: nat, w: nat, k: nat, v: nat, m: nat)
    requires w < n && v < n && w + k * n == v + m * n
    ensures w == v && k == m
  {
    if k < m {
      MulStrict(k, m, n);
    } else if m < k {
      MulStrict(m, k, n);
    }
  }

  lemma {:induction false} Pigeonhole(xs: seq<nat>, n: nat)
    requires forall i :: 0 <= i < |xs| ==> xs[i] < n
    requires forall i, j :: 0 <= i < j < |xs| ==> xs[i] != xs[j]
    ensures |xs| <= n
  {
    if xs != [] {
      assert xs[0] < n;
      if exists k :: 0 <= k < |xs| && xs[k] == n - 1 {
        var k :| 0 <= k < |xs| && xs[k] == n - 1;
        Pigeonhole(xs[..k] + xs[k + 1..], n - 1);
      } else {
        Pigeonhole(xs, n - 1);
      }
    }
  }

  function NewFleet(start: nat, rps: nat, workers: nat, seconds: nat): Fleet {
    Fleet(seq(workers, w requires 0 <= w < workers => Pace(start, start + seconds * NS, rps, workers, w, 0, 0)), [])
  }

  lemma NewFleetOk(start: nat, rps: nat, workers: nat, seconds: nat)
    requires 1 <= rps <= 1_000_000 && 1 <= seconds <= 86_400 && 1 <= workers <= 1024
    requires start + seconds * NS <= U64_MAX
    ensures FleetInv(NewFleet(start, rps, workers, seconds), seconds)
  {
    var f := NewFleet(start, rps, workers, seconds);
    assert rps * seconds >= 0;
  }

  lemma SlotsDistinct(f: Fleet, seconds: nat, i: nat, j: nat)
    requires FleetInv(f, seconds) && i < j < |f.issued|
    ensures SlotOf(f, f.issued[i]) != SlotOf(f, f.issued[j])
  {
    var a, b := f.issued[i], f.issued[j];
    assert Different(a, b) && IssueOk(f, a, seconds) && IssueOk(f, b, seconds);
    if SlotOf(f, a) == SlotOf(f, b) {
      SlotOwner(|f.paces|, a.worker, a.ordinal, b.worker, b.ordinal);
    }
  }

  lemma IssuesBounded(f: Fleet, seconds: nat)
    requires FleetInv(f, seconds)
    ensures |f.issued| <= f.paces[0].rps * seconds
  {
    var slots := seq(|f.issued|, i requires 0 <= i < |f.issued| => SlotOf(f, f.issued[i]));
    forall i, j | 0 <= i < j < |slots| ensures slots[i] != slots[j] {
      SlotsDistinct(f, seconds, i, j);
    }
    forall i | 0 <= i < |slots| ensures slots[i] < f.paces[0].rps * seconds {
      assert IssueOk(f, f.issued[i], seconds);
    }
    Pigeonhole(slots, f.paces[0].rps * seconds);
  }

  /**
   For any interleaving of calls by any number of workers: no slot is given out
   twice, every due time lies in the window and not before the call that got it,
   every worker's ordinals are issued or counted as skipped, and at most rps * seconds
   slots are issued in all, so the missed-slot subtraction cannot underflow.
   */
  lemma FleetConserves(start: nat, rps: nat, workers: nat, seconds: nat, asks: seq<Ask>)
    requires 1 <= rps <= 1_000_000 && 1 <= seconds <= 86_400 && 1 <= workers <= 1024
    requires start + seconds * NS <= U64_MAX
    ensures
      var f := ServeAll(NewFleet(start, rps, workers, seconds), asks);
      && |f.paces| == workers
      && (forall i, j :: 0 <= i < j < |f.issued| ==> SlotOf(f, f.issued[i]) != SlotOf(f, f.issued[j]))
      && (forall i :: 0 <= i < |f.issued| ==>
            && f.issued[i].asked <= f.issued[i].due
            && start <= f.issued[i].due < start + seconds * NS
            && f.issued[i].due == start + SlotOf(f, f.issued[i]) * NS / rps)
      && (forall w :: 0 <= w < workers ==> f.paces[w].next == f.paces[w].skipped + Given(f.issued, w))
      && |f.issued| <= rps * seconds
  {
    var f0 := NewFleet(start, rps, workers, seconds);
    var f := ServeAll(f0, asks);
    NewFleetOk(start, rps, workers, seconds);
    RunsKeep(f0, asks, seconds);
    IssuesBounded(f, seconds);
    forall i, j | 0 <= i < j < |f.issued| ensures SlotOf(f, f.issued[i]) != SlotOf(f, f.issued[j]) {
      SlotsDistinct(f, seconds, i, j);
    }
    assert forall i :: 0 <= i < |f.issued| ==> IssueOk(f, f.issued[i], seconds);
  }

  // ---------- no slot is lost ----------

  /** Worker w was given slot `o`, or asked when it was late already. */
  ghost predicate Accounted(f: Fleet, asks: seq<Ask>, w: nat, o: nat, start: nat, rps: nat)
    requires rps > 0
  {
    || (exists i :: 0 <= i < |f.issued| && f.issued[i].worker == w && f.issued[i].ordinal == o)
    || (exists k :: 0 <= k < |asks| && asks[k].w == w && start + Quot((w + o * |f.paces|) * NS, rps) < asks[k].now)
  }

  lemma AccountedStays(f: Fleet, asks: seq<Ask>, a: Ask, f': Fleet, w: nat, o: nat, start: nat, rps: nat)
    requires rps > 0 && Accounted(f, asks, w, o, start, rps) && |f'.paces| == |f.paces| && f.issued <= f'.issued
    ensures Accounted(f', asks + [a], w, o, start, rps)
  {
    if i :| 0 <= i < |f.issued| && f.issued[i].worker == w && f.issued[i].ordinal == o {
      assert f'.issued[i] == f.issued[i];
    } else {
      var k :| 0 <= k < |asks| && asks[k].w == w && start + Quot((w + o * |f.paces|) * NS, rps) < asks[k].now;
      assert (asks + [a])[k] == asks[k];
    }
  }

  /** A call accounts for every ordinal it passes. */
  lemma ServeAccounts(f: Fleet, asks: seq<Ask>, a: Ask, seconds: nat, o: nat)
    requires FleetInv(f, seconds) && a.w < |f.paces|
    requires f.paces[a.w].next <= o < Serve(f, a).paces[a.w].next
    ensures f.paces[0].rps > 0 && Accounted(Serve(f, a), asks + [a], a.w, o, f.paces[0].start, f.paces[0].rps)
  {
    var p, f' := f.paces[a.w], Serve(f, a);
    NoWrapping(p, a.now, seconds);
    IssuesFirstOpen(p, a.now);
    if a.now < p.end {
      SkipExact(p, a.now, seconds);
    }
    var (q, due) := Advance(p, a.now);
    if due.Some? && o == q.next - 1 {
      assert f'.issued[|f.issued|].worker == a.w && f'.issued[|f.issued|].ordinal == o;
    } else {
      assert (asks + [a])[|asks|] == a;
      assert Due(p, o) < a.now;
    }
  }

  lemma ServeGrows(f: Fleet, a: Ask)
    ensures f.issued <= Serve(f, a).issued && |Serve(f, a).paces| == |f.paces|
  {
  }

  lemma {:induction false} RunsAccount(f: Fleet, asks: seq<Ask>, seconds: nat, w: nat, o: nat)
    requires FleetInv(f, seconds) && w < |f.paces| && f.paces[w].next == 0
    requires |ServeAll(f, asks).paces| == |f.paces| && o < ServeAll(f, asks).paces[w].next
    ensures f.paces[0].rps > 0 && Accounted(ServeAll(f, asks), asks, w, o, f.paces[0].start, f.paces[0].rps)
  {
    if asks != [] {
      var front, a := asks[..|asks| - 1], asks[|asks| - 1];
      var g := ServeAll(f, front);
      RunsKeep(f, front, seconds);
      ServeGrows(g, a);
      assert asks == front + [a];
      if o < g.paces[w].next {
        RunsAccount(f, front, seconds, w, o);
        AccountedStays(g, front, a, Serve(g, a), w, o, f.paces[0].start, f.paces[0].rps);
      } else {
        ServeAccounts(g, front, a, seconds, o);
      }
    }
  }

  /**
   For any interleaving of calls, no slot a worker has passed is lost without cause: it was issued to
   that worker, or the worker asked after it was due.
   */
  lemma EverySlotAccounted(start: nat, rps: nat, workers: nat, seconds: nat, asks: seq<Ask>, w: nat, o: nat)
    requires 1 <= rps <= 1_000_000 && 1 <= seconds <= 86_400 && 1 <= workers <= 1024
    requires start + seconds * NS <= U64_MAX && w < workers
    requires var f := ServeAll(NewFleet(start, rps, workers, seconds), asks);
             |f.paces| == workers && o < f.paces[w].next
    ensures Accounted(ServeAll(NewFleet(start, rps, workers, seconds), asks), asks, w, o, start, rps)
  {
    NewFleetOk(start, rps, workers, seconds);
    RunsAccount(NewFleet(start, rps, workers, seconds), asks, seconds, w, o);
  }
}
