/** In which order the bridge serves its jobs, what it fails them with, and how it stops. */
module BridgeOrder {
  import opened Machine
  import opened Lists
  import opened Bridge
  import opened BridgeRuns
  import opened BridgeTheorems
  import opened BridgeJobs

  // ---------- first come, first served ----------

  /** The job a critical section links to the queue. */
  function Linked(s: State, e: Event): seq<nat> {
    if e.Lock? && At(s.store, e.j, Submitting) && !s.loop.stop then [e.j] else []
  }

  /** The job the thread takes up next, to start it or to fail it. */
  function TakenUp(l: Loop, e: Event): seq<nat> {
    if l.taken != [] && ((e.StartJob? && l.pc == Running(ToStart)) || (e.FailJob? && l.pc == Running(ToFailTaken)))
    then [l.taken[0]] else []
  }

  function AllLinked(s: State, es: seq<Event>): seq<nat> {
    if es == [] then [] else AllLinked(s, es[..|es| - 1]) + Linked(Run(s, es[..|es| - 1]), es[|es| - 1])
  }

  function AllTakenUp(s: State, es: seq<Event>): seq<nat> {
    if es == [] then [] else AllTakenUp(s, es[..|es| - 1]) + TakenUp(Run(s, es[..|es| - 1]).loop, es[|es| - 1])
  }

  lemma HeadOrder(up: nat, rest: seq<nat>, queue: seq<nat>, taken: seq<nat>)
    requires taken == [up] + rest
    ensures [up] + rest + queue == taken + queue
  {
  }

  lemma PlainOrder(taken: seq<nat>, queue: seq<nat>, linked: seq<nat>)
    ensures [] + taken + queue == taken + queue + []
    ensures [] + taken + (queue + linked) == taken + queue + linked
  {
  }

  lemma TakeOrder(l: Loop)
    requires PhaseOk(l)
    ensures OnTake(l).taken + OnTake(l).queue == l.taken + l.queue
  {
    if l.pc == Taking || l.pc == FailTake {
      assert l.taken == [] && [] + l.queue == l.queue && l.queue + [] == l.queue;
    }
  }

  /** Starting and failing take the head of what is in hand, and the other list steps touch neither list. */
  lemma HandOrder(l: Loop, e: Event)
    requires ListEvent(e) && !e.Take?
    ensures ListStep(l, e).queue == l.queue
    ensures ListStep(l, e).taken == if TakenUp(l, e) == [] then l.taken else l.taken[1..]
  {
  }

  lemma ListOrder(l: Loop, e: Event)
    requires PhaseOk(l) && ListEvent(e)
    ensures TakenUp(l, e) + ListStep(l, e).taken + ListStep(l, e).queue == l.taken + l.queue + []
  {
    if e.Take? {
      TakeOrder(l);
      PlainOrder(OnTake(l).taken, OnTake(l).queue, []);
      PlainOrder(l.taken, l.queue, []);
    } else {
      HandOrder(l, e);
      PlainOrder(l.taken, l.queue, []);
      if TakenUp(l, e) != [] {
        assert l.taken == [l.taken[0]] + l.taken[1..];
        HeadOrder(l.taken[0], l.taken[1..], l.queue, l.taken);
      }
    }
  }

  lemma OtherOrder(s: State, e: Event)
    requires !ListEvent(e) && !e.Lock?
    ensures Step(s, e).loop.taken == s.loop.taken && Step(s, e).loop.queue == s.loop.queue
  {
    StepParts(s, e);
  }

  lemma StepOrder(s: State, e: Event)
    requires Inv(s)
    ensures TakenUp(s.loop, e) + Step(s, e).loop.taken + Step(s, e).loop.queue
      == s.loop.taken + s.loop.queue + Linked(s, e)
  {
    if ListEvent(e) {
      ListStepState(s, e);
      ListOrder(s.loop, e);
    } else if e.Lock? {
      LockState(s, e.j);
      PlainOrder(s.loop.taken, s.loop.queue, [e.j]);
    } else {
      OtherOrder(s, e);
      PlainOrder(s.loop.taken, s.loop.queue, []);
    }
  }

  lemma Shuffle(up: seq<nat>, more: seq<nat>, taken: seq<nat>, queue: seq<nat>, taken': seq<nat>, queue': seq<nat>,
                linked: seq<nat>)
    requires more + taken' + queue' == taken + queue + linked
    ensures up + more + taken' + queue' == up + taken + queue + linked
  {
    assert up + more + taken' + queue' == up + (more + taken' + queue');
    assert up + (taken + queue + linked) == up + taken + queue + linked;
  }

  /** The thread takes jobs up in the order in which the critical sections linked them, losing none. */
  lemma {:induction false} FirstComeFirstServed(capacity: nat, es: seq<Event>)
    requires capacity > 0
    ensures var s := Init(capacity);
      AllLinked(s, es) == AllTakenUp(s, es) + Reached(capacity, es).loop.taken + Reached(capacity, es).loop.queue
  {
    if es != [] {
      var front, e, s := es[..|es| - 1], es[|es| - 1], Reached(capacity, es[..|es| - 1]);
      FirstComeFirstServed(capacity, front);
      RunKeeps(capacity, front);
      StepOrder(s, e);
      Shuffle(AllTakenUp(Init(capacity), front), TakenUp(s.loop, e), s.loop.taken, s.loop.queue,
              Step(s, e).loop.taken, Step(s, e).loop.queue, Linked(s, e));
    }
  }

  // ---------- why the thread leaves ----------

  /** The event that makes the thread leave its loop, and the code it leaves with. */
  function Leaves(l: Loop, e: Event): Option<int> {
    match e
    case SeeStop => if l.pc == CheckStop && l.stop then Some(ERR_IO) else None
    case PollFailed => if l.pc == Polling then Some(ERR_IO) else None
    case SocketsEnd(status) => if l.pc == Running(ToSockets) && status != OK then Some(status) else None
    case ExpireFailed(status) =>
      if l.pc.Running? && l.pc.back.ToExpire? && l.pc.back.rest != [] && status != OK then Some(status) else None
    case _ => None
  }

  function Reason(s: State, es: seq<Event>): Option<int> {
    if es == [] then None
    else if Reason(s, es[..|es| - 1]).Some? then Reason(s, es[..|es| - 1])
    else Leaves(Run(s, es[..|es| - 1]).loop, es[|es| - 1])
  }

  /** The thread is on its way out. */
  predicate Leaving(l: Loop) { l.pc.MarkStop? || Clearing(l) }

  ghost predicate ReasonOk(l: Loop, reason: Option<int>) {
    && (reason.Some? <==> Leaving(l))
    && l.failure == (if reason.Some? then reason.value else ERR_IO)
  }

  lemma ListReason(l: Loop, e: Event)
    requires ListEvent(e)
    ensures Leaving(ListStep(l, e)) == Leaving(l) && ListStep(l, e).failure == l.failure
  {
  }

  lemma ControlReason(l: Loop, e: Event)
    requires ControlEvent(e)
    ensures Leaving(ControlStep(l, e)) <==> Leaving(l) || Leaves(l, e).Some?
    ensures Leaving(l) ==> Leaves(l, e).None? && ControlStep(l, e).failure == l.failure
    ensures ControlStep(l, e).failure == (if Leaves(l, e).Some? && !e.SeeStop? then Leaves(l, e).value else l.failure)
  {
  }

  lemma OtherReason(s: State, e: Event)
    requires Inv(s) && !ListEvent(e) && !ControlEvent(e)
    ensures Leaving(Step(s, e).loop) == Leaving(s.loop) && Step(s, e).loop.failure == s.loop.failure
  {
    if e.Lock? {
      LockState(s, e.j);
    } else {
      StepParts(s, e);
    }
  }

  lemma StepReason(s: State, e: Event, reason: Option<int>)
    requires Inv(s) && ReasonOk(s.loop, reason)
    ensures ReasonOk(Step(s, e).loop, if reason.Some? then reason else Leaves(s.loop, e))
  {
    if ListEvent(e) {
      ListStepState(s, e);
      ListReason(s.loop, e);
    } else if ControlEvent(e) {
      StepParts(s, e);
      TouchesAlive(s, e);
      ControlReason(s.loop, e);
    } else {
      OtherReason(s, e);
    }
  }

  /**
   Every job the leaving thread fails is told why the thread left: an I/O error if it was asked to
   stop or could not poll, and otherwise the first failure of its sockets or of an expiry.
   */
  lemma {:induction false} FailuresTellTheReason(capacity: nat, es: seq<Event>)
    requires capacity > 0
    ensures ReasonOk(Reached(capacity, es).loop, Reason(Init(capacity), es))
  {
    if es != [] {
      FailuresTellTheReason(capacity, es[..|es| - 1]);
      RunKeeps(capacity, es[..|es| - 1]);
      StepReason(Reached(capacity, es[..|es| - 1]), es[|es| - 1], Reason(Init(capacity), es[..|es| - 1]));
    }
  }

  // ---------- an expiry pass ----------

  /** The list an expiry pass sets out to visit. */
  function Agenda(s: State, es: seq<Event>): seq<nat> {
    if es == [] then []
    else
      var l, e := Run(s, es[..|es| - 1]).loop, es[|es| - 1];
      if e == SocketsEnd(OK) && l.pc == Running(ToSockets) then l.active else Agenda(s, es[..|es| - 1])
  }

  /** The jobs it has looked at. */
  function Visited(s: State, es: seq<Event>): seq<nat> {
    if es == [] then []
    else
      var l, e := Run(s, es[..|es| - 1]).loop, es[|es| - 1];
      if e == SocketsEnd(OK) && l.pc == Running(ToSockets) then []
      else Visited(s, es[..|es| - 1])
           + if e.ExpireJob? && l.pc.Running? && l.pc.back.ToExpire?
             && l.pc.back.rest != [] then [l.pc.back.rest[0]] else []
  }

  ghost predicate OnAgenda(l: Loop, agenda: seq<nat>, visited: seq<nat>) {
    BackOf(l.pc).ToExpire? ==> agenda == visited + BackOf(l.pc).rest
  }

  lemma LoopAgenda(l: Loop, l': Loop, e: Event, agenda: seq<nat>, visited: seq<nat>)
    requires OnAgenda(l, agenda, visited)
    requires (ControlEvent(e) && l' == ControlStep(l, e)) || (ListEvent(e) && l' == ListStep(l, e))
    ensures
      if e == SocketsEnd(OK) && l.pc == Running(ToSockets) then OnAgenda(l', l.active, [])
      else OnAgenda(l', agenda, visited
             + if e.ExpireJob? && l.pc.Running? && l.pc.back.ToExpire?
               && l.pc.back.rest != [] then [l.pc.back.rest[0]] else [])
  {
    assert visited + [] == visited && [] + l.active == l.active;
    if BackOf(l.pc).ToExpire? && BackOf(l.pc).rest != [] {
      var rest := BackOf(l.pc).rest;
      assert visited + [rest[0]] + rest[1..] == visited + rest;
    }
  }

  lemma StepAgenda(s: State, e: Event, agenda: seq<nat>, visited: seq<nat>)
    requires Inv(s) && OnAgenda(s.loop, agenda, visited)
    ensures
      var l := s.loop;
      if e == SocketsEnd(OK) && l.pc == Running(ToSockets) then OnAgenda(Step(s, e).loop, l.active, [])
      else OnAgenda(Step(s, e).loop, agenda, visited
             + if e.ExpireJob? && l.pc.Running? && l.pc.back.ToExpire?
               && l.pc.back.rest != [] then [l.pc.back.rest[0]] else [])
  {
    if ListEvent(e) {
      ListStepState(s, e);
      LoopAgenda(s.loop, Step(s, e).loop, e, agenda, visited);
    } else if ControlEvent(e) {
      StepParts(s, e);
      TouchesAlive(s, e);
      LoopAgenda(s.loop, Step(s, e).loop, e, agenda, visited);
    } else {
      assert visited + [] == visited;
      if e.Lock? {
        LockState(s, e.j);
      } else {
        StepParts(s, e);
      }
    }
  }

  lemma {:induction false} AgendaKept(capacity: nat, es: seq<Event>)
    requires capacity > 0
    ensures OnAgenda(Reached(capacity, es).loop, Agenda(Init(capacity), es), Visited(Init(capacity), es))
  {
    if es != [] {
      var front := es[..|es| - 1];
      AgendaKept(capacity, front);
      RunKeeps(capacity, front);
      StepAgenda(Reached(capacity, front), es[|es| - 1], Agenda(Init(capacity), front), Visited(Init(capacity), front));
    }
  }

  /** The thread comes back to the stop flag from an interrupted poll or from the end of a pass, only. */
  lemma LoopTurns(l: Loop, e: Event)
    requires l.pc != CheckStop && l.pc != Polling && !(BackOf(l.pc).ToExpire? && BackOf(l.pc).rest == [])
    ensures ListEvent(e) ==> ListStep(l, e).pc != CheckStop
    ensures ControlEvent(e) ==> ControlStep(l, e).pc != CheckStop
  {
  }

  lemma OthersTurnNothing(s: State, e: Event)
    requires Inv(s) && s.loop.pc != CheckStop && !ListEvent(e) && !ControlEvent(e)
    ensures Step(s, e).loop.pc != CheckStop
  {
    if e.Lock? {
      LockState(s, e.j);
    } else {
      StepParts(s, e);
    }
  }

  lemma OnlyFullPassesTurn(s: State, e: Event)
    requires Inv(s) && s.loop.pc != CheckStop && s.loop.pc != Polling && Step(s, e).loop.pc == CheckStop
    ensures BackOf(s.loop.pc).ToExpire? && BackOf(s.loop.pc).rest == []
  {
    if !(BackOf(s.loop.pc).ToExpire? && BackOf(s.loop.pc).rest == []) {
      LoopTurns(s.loop, e);
      if ListEvent(e) {
        ListStepState(s, e);
      } else if ControlEvent(e) {
        StepParts(s, e);
      } else {
        OthersTurnNothing(s, e);
      }
    }
  }

  /**
   Each turn of the thread's loop that gets past its poll ends with an expiry pass, and the pass has
   looked at every job that was active when it began, once each and in list order, although jobs
   complete and leave the list meanwhile.
   */
  lemma ExpiryVisitsAll(capacity: nat, es: seq<Event>, e: Event)
    requires capacity > 0
    requires var s := Reached(capacity, es); s.loop.pc != CheckStop && s.loop.pc != Polling
    requires Step(Reached(capacity, es), e).loop.pc == CheckStop
    ensures BackOf(Reached(capacity, es).loop.pc).ToExpire?
    ensures Visited(Init(capacity), es) == Agenda(Init(capacity), es)
  {
    AgendaKept(capacity, es);
    RunKeeps(capacity, es);
    OnlyFullPassesTurn(Reached(capacity, es), e);
    assert Visited(Init(capacity), es) + [] == Visited(Init(capacity), es);
  }

  // ---------- stopping ----------

  predicate BeforeExpiry(pc: Pc) {
    || pc.Polling? || pc.Draining? || pc.Taking?
    || ((pc.Running? || pc.Completing? || pc.Releasing?) && (pc.back.ToStart? || pc.back.ToSockets?))
  }

  function Level(pc: Pc): nat {
    match pc
    case Polling => 12
    case Draining => 11
    case Taking => 10
    case CheckStop => 6
    case MarkStop => 5
    case FailTake => 4
    case Exited => 0
    case Running(back) => LevelOf(back)
    case Completing(_, _, back) => LevelOf(back) + 2
    case Releasing(_, back) => LevelOf(back) + 1
  }

  function LevelOf(back: Back): nat {
    match back
    case ToStart => 9
    case ToSockets => 8
    case ToExpire(_) => 7
    case ToFailTaken => 2
    case ToFailActive => 1
  }

  /** How many looks at active jobs the thread may still take in its current round. */
  ghost function Looks(l: Loop): nat {
    if BeforeExpiry(l.pc) then |l.queue| + |l.taken| + |l.active|
    else if BackOf(l.pc).ToExpire? then |BackOf(l.pc).rest|
    else 0
  }

  /** How many more steps a thread that has been asked to stop can make. */
  ghost function Rank(l: Loop): nat {
    4 * |l.queue| + 4 * |l.taken| + 3 * |l.active| + Looks(l) + Level(l.pc)
    + if l.pc.Polling? || l.pc.Draining? then l.pipe else 0
  }

  predicate ThreadEvent(e: Event) { ListEvent(e) || e.Publish? || e.ReleaseJob? || (ControlEvent(e) && !e.Stop?
    && !e.StopWake?) }

  /** A step of the thread that gets it anywhere. */
  predicate Works(s: State, e: Event) { ThreadEvent(e) && Step(s, e).loop != s.loop }

  ghost function Worked(s: State, es: seq<Event>): nat {
    if es == [] then 0 else Worked(s, es[..|es| - 1]) + One(Works(Run(s, es[..|es| - 1]), es[|es| - 1]))
  }

  function Wakes(es: seq<Event>): nat {
    if es == [] then 0 else Wakes(es[..|es| - 1]) + One(es[|es| - 1].Wake? || es[|es| - 1].StopWake?)
  }

  lemma TakeRanks(l: Loop)
    requires PhaseOk(l)
    ensures OnTake(l) == l || Rank(OnTake(l)) < Rank(l)
  {
  }

  lemma StartRanks(l: Loop, status: int)
    ensures OnStartJob(l, status) == l || Rank(OnStartJob(l, status)) < Rank(l)
  {
  }

  lemma AdmissionRanks(l: Loop, j: nat, status: int)
    ensures OnAdmission(l, j, status) == l || Rank(OnAdmission(l, j, status)) < Rank(l)
  {
    if j in l.active {
      WithoutLength(l.active, j);
    }
  }

  lemma ExpireRanks(l: Loop, expired: bool, status: int)
    requires PhaseOk(l)
    ensures OnExpireJob(l, expired, status) == l || Rank(OnExpireJob(l, expired, status)) < Rank(l)
  {
    if l.pc.Running? && l.pc.back.ToExpire? && l.pc.back.rest != [] {
      FirstIn(l.pc.back.rest, multiset(l.active));
      WithoutLength(l.active, l.pc.back.rest[0]);
    }
  }

  lemma FailRanks(l: Loop)
    ensures OnFailJob(l) == l || Rank(OnFailJob(l)) < Rank(l)
  {
  }

  lemma ListRanks(l: Loop, e: Event)
    requires PhaseOk(l) && l.stop && ListEvent(e)
    ensures ListStep(l, e).stop
    ensures ListStep(l, e) == l || Rank(ListStep(l, e)) < Rank(l)
  {
    match e
    case Take => TakeRanks(l);
    case StartJob(status) => StartRanks(l, status);
    case AdmissionDone(j, status) => AdmissionRanks(l, j, status);
    case ExpireJob(expired, status) => ExpireRanks(l, expired, status);
    case FailJob => FailRanks(l);
  }

  lemma WithoutLength(list: seq<nat>, x: nat)
    requires x in list
    ensures |Without(list, x)| == |list| - 1
  {
    WithoutOne(list, x);
    assert |multiset(Without(list, x))| == |multiset(list)| - 1;
  }

  lemma ControlRanks(l: Loop, e: Event)
    requires l.stop && ControlEvent(e)
    ensures ControlStep(l, e).stop
    ensures !e.Stop? && !e.StopWake? ==> ControlStep(l, e) == l || Rank(ControlStep(l, e)) < Rank(l)
    ensures e.Stop? ==> ControlStep(l, e) == l
    ensures e.StopWake? ==> Rank(ControlStep(l, e)) <= Rank(l) + 1
  {
  }

  lemma OtherRanks(s: State, e: Event)
    requires Inv(s) && s.loop.stop && !ListEvent(e) && !ControlEvent(e)
    ensures Step(s, e).loop.stop
    ensures Rank(Step(s, e).loop) + One(Works(s, e)) <= Rank(s.loop) + One(e.Wake?)
  {
    if e.Lock? {
      LockState(s, e.j);
    } else {
      StepParts(s, e);
    }
  }

  lemma StepRanks(s: State, e: Event)
    requires Inv(s) && s.loop.stop
    ensures Step(s, e).loop.stop
    ensures Rank(Step(s, e).loop) + One(Works(s, e)) <= Rank(s.loop) + One(e.Wake? || e.StopWake?)
  {
    if ListEvent(e) {
      ListStepState(s, e);
      ListRanks(s.loop, e);
    } else if ControlEvent(e) {
      StepParts(s, e);
      TouchesAlive(s, e);
      ControlRanks(s.loop, e);
    } else {
      OtherRanks(s, e);
    }
  }

  /**
   Once the bridge is told to stop, wherever the thread is and whatever arrives, the thread makes at
   most `Rank` more steps, and one more for each wakeup still written; it has exited exactly when no
   step is left.
   */
  lemma {:induction false} StopEnds(s: State, es: seq<Event>)
    requires Inv(s) && s.loop.stop
    ensures Inv(Run(s, es)) && Run(s, es).loop.stop
    ensures Worked(s, es) + Rank(Run(s, es).loop) <= Rank(s.loop) + Wakes(es)
    ensures Run(s, es).loop.pc.Exited? <==> Rank(Run(s, es).loop) == 0
  {
    if es != [] {
      var t := Run(s, es[..|es| - 1]);
      StopEnds(s, es[..|es| - 1]);
      StepKeeps(t, es[|es| - 1]);
      StepRanks(t, es[|es| - 1]);
    }
    NoneLeft(Run(s, es));
  }

  lemma NoneLeft(s: State)
    requires Inv(s)
    ensures s.loop.pc.Exited? <==> Rank(s.loop) == 0
  {
  }

  /** What the thread does next, when nothing goes wrong. */
  function NextEvent(pc: Pc): Event {
    match pc
    case CheckStop => SeeStop
    case Polling => PollReady
    case Draining => DrainEnd
    case Taking => Take
    case MarkStop => Mark
    case FailTake => Take
    case Exited => Take
    case Completing(_, _, _) => Publish
    case Releasing(_, _) => ReleaseJob
    case Running(back) =>
      if back.ToStart? then StartJob(OK)
      else if back.ToSockets? then SocketsEnd(OK)
      else if back.ToExpire? then ExpireJob(false, OK)
      else FailJob
  }

  lemma NextWorks(l: Loop)
    requires !l.pc.Exited? && !l.pc.Completing? && !l.pc.Releasing?
    ensures var e := NextEvent(l.pc);
      if ListEvent(e) then ListStep(l, e) != l else ControlEvent(e) && !e.Stop? && !e.StopWake? && ControlStep(l, e) != l
  {
    if l.pc.Running? && l.taken != [] {
      assert |l.taken[1..]| < |l.taken|;
    }
    if l.pc.Running? && l.pc.back.ToExpire? && l.pc.back.rest != [] {
      assert |l.pc.back.rest[1..]| < |l.pc.back.rest|;
    }
  }

  /** And until then it can always make one. */
  lemma NeverStuck(s: State)
    requires Inv(s) && !s.loop.pc.Exited?
    ensures Works(s, NextEvent(s.loop.pc))
  {
    var e := NextEvent(s.loop.pc);
    if !s.loop.pc.Completing? && !s.loop.pc.Releasing? {
      NextWorks(s.loop);
      TouchesAlive(s, e);
      StepParts(s, e);
    }
  }

  // ---------- the shutdown's part ----------

  /** From the shutdown's request on, the bridge stays stopped and the thread's steps are numbered. */
  lemma StopIsObeyed(s: State, later: seq<Event>)
    requires Inv(s)
    ensures var t := Step(s, Stop);
      && Run(t, later).loop.stop
      && Worked(t, later) + Rank(Run(t, later).loop) <= Rank(t.loop) + Wakes(later)
  {
    StepKeeps(s, Stop);
    StepParts(s, Stop);
    TouchesAlive(s, Stop);
    StopEnds(Step(s, Stop), later);
  }

  lemma PipeStays(s: State, e: Event)
    requires Inv(s) && s.loop.pipe > 0 && !e.DrainRead?
    ensures Step(s, e).loop.pipe > 0
  {
    if ListEvent(e) {
      ListStepState(s, e);
    } else if e.Lock? {
      LockState(s, e.j);
    } else {
      StepParts(s, e);
    }
  }

  lemma {:induction false} PipeStaysOn(s: State, later: seq<Event>)
    requires Inv(s) && s.loop.pipe > 0 && forall i :: 0 <= i < |later| ==> !later[i].DrainRead?
    ensures Inv(Run(s, later)) && Run(s, later).loop.pipe > 0
  {
    if later != [] {
      PipeStaysOn(s, later[..|later| - 1]);
      StepKeeps(Run(s, later[..|later| - 1]), later[|later| - 1]);
      PipeStays(Run(s, later[..|later| - 1]), later[|later| - 1]);
    }
  }

  lemma WakeFills(s: State)
    requires Inv(s)
    ensures Step(s, StopWake).loop.pipe > 0
  {
    StepParts(s, StopWake);
  }

  lemma ReadablePolls(s: State)
    requires Inv(s) && s.loop.pipe > 0 && s.loop.pc == Polling
    ensures Step(s, PollReady).loop.pc == Draining
  {
    TouchesAlive(s, PollReady);
    StepParts(s, PollReady);
  }

  /** And its wakeup is not lost: until the thread has read the pipe, any poll finds it readable. */
  lemma StopWakes(s: State, later: seq<Event>)
    requires Inv(s) && forall i :: 0 <= i < |later| ==> !later[i].DrainRead?
    ensures var t := Run(Step(s, StopWake), later);
      t.loop.pipe > 0 && (t.loop.pc == Polling ==> Step(t, PollReady).loop.pc == Draining)
  {
    StepKeeps(s, StopWake);
    WakeFills(s);
    PipeStaysOn(Step(s, StopWake), later);
    if Run(Step(s, StopWake), later).loop.pc == Polling {
      ReadablePolls(Run(Step(s, StopWake), later));
    }
  }

  /** A draining read takes what is there, up to its buffer of 64 bytes. */
  lemma PipeDrains(s: State, n: nat)
    requires Inv(s) && s.loop.pc == Draining && 0 < n <= 64 && n <= s.loop.pipe
    ensures Step(s, DrainRead(n)).loop.pipe == s.loop.pipe - n && Step(s, DrainRead(n)).loop.pc == Draining
  {
    StepParts(s, DrainRead(n));
  }
}
