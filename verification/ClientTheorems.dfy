/** The client's promises, for every run from a new client. */
module ClientTheorems {
  import opened Machine
  import opened Results
  import opened Schedule
  import opened Request
  import opened Client
  import opened ClientRuns

  lemma InitOk(policy: Policy, quota: Option<u32>, windowLimit: Option<nat>, hook: bool)
    ensures Inv(Init(policy, quota, windowLimit, hook))
  {
    var s := Init(policy, quota, windowLimit, hook);
    assert forall id :: Balanced(s, id);
  }

  /** A state some run of a new client reaches. */
  ghost predicate Reached(s: State, policy: Policy, quota: Option<u32>, windowLimit: Option<nat>, hook: bool,
                      es: seq<Event>) {
    var s0 := Init(policy, quota, windowLimit, hook);
    FreshRun(s0, es) && s == Run(s0, es)
  }

  lemma ReachedOk(s: State, policy: Policy, quota: Option<u32>, windowLimit: Option<nat>, hook: bool, es: seq<Event>)
    requires Reached(s, policy, quota, windowLimit, hook, es)
    ensures Inv(s)
  {
    InitOk(policy, quota, windowLimit, hook);
    RunKeeps(Init(policy, quota, windowLimit, hook), es);
  }

  // ---------- exactly once ----------

  lemma {:induction false} EndCounts(log: seq<Output>, id: Id, i: nat)
    requires i < |log| && IsEnd(log[i], id)
    ensures Ends(log, id) >= 1
  {
    if i < |log| - 1 {
      EndCounts(log[..|log| - 1], id, i);
    }
  }

  lemma {:induction false} AtMostOneEnd(log: seq<Output>, id: Id, i: nat, j: nat)
    requires Ends(log, id) <= 1
    requires i < j < |log| && IsEnd(log[i], id)
    ensures !IsEnd(log[j], id)
  {
    var front := log[..|log| - 1];
    if j == |log| - 1 {
      EndCounts(front, id, i);
    } else {
      AtMostOneEnd(front, id, i, j);
    }
  }

  /**
   An admitted request is in flight, or its callback has run, or it was
   cancelled: exactly one of the three, and never twice. Every callback that
   reports success carries a response that was accepted, the oldest of those
   accepted; every other callback carries none.
   */
  lemma ExactlyOnce(s: State, policy: Policy, quota: Option<u32>, windowLimit: Option<nat>, hook: bool,
                    es: seq<Event>, id: Id)
    requires Reached(s, policy, quota, windowLimit, hook, es)
    ensures Ends(s.log, id) + (if InFlight(s.inflight, id) then 1 else 0) == (if Accepted(s, id) then 1 else 0)
    ensures forall i, j :: 0 <= i < j < |s.log| && IsEnd(s.log[i], id) ==> !IsEnd(s.log[j], id)
    ensures forall o :: o in s.log && o.Called? ==>
              && (o.status == StatusOk <==> o.result.Some?)
              && (o.result.Some? ==> Spoken(s.log, o.id, o.result.value))
              && (o.result.Some? ==> forall x :: x in HeardIds(s.log, o.id) ==> o.result.value.serverId <= x)
  {
    ReachedOk(s, policy, quota, windowLimit, hook, es);
    assert Balanced(s, id);
    forall i, j | 0 <= i < j < |s.log| && IsEnd(s.log[i], id) ensures !IsEnd(s.log[j], id) {
      AtMostOneEnd(s.log, id, i, j);
    }
    assert forall o :: o in s.log ==> EntryOk(o, s.log, s.tickets);
  }

  // ---------- sending ----------

  /**
   Every transmission of a request repeats its packet and passed its clock check
   before the deduplication deadline; every round reaches all targets; the
   delivery at completion reaches exactly those that had not answered, by server id,
   or by address where the id is unknown.
   */
  lemma TransmissionDiscipline(s: State, policy: Policy, quota: Option<u32>, windowLimit: Option<nat>, hook: bool,
                      es: seq<Event>, o: Output)
    requires Reached(s, policy, quota, windowLimit, hook, es)
    requires o in s.log && o.Sent?
    ensures o.id in s.tickets
    ensures o.bytes == s.tickets[o.id].packet
    ensures o.clock < s.tickets[o.id].dedupDeadline
    ensures o.purpose == RoundSend ==> o.to == AllAddrs(s.tickets[o.id].targets)
    ensures o.purpose == CompletionSend ==>
              o.to == Unanswered(s.tickets[o.id].targets, HeardIds(s.log, o.id), HeardAddrs(s.log, o.id))
  {
    ReachedOk(s, policy, quota, windowLimit, hook, es);
    assert EntryOk(o, s.log, s.tickets);
  }

  // ---------- steering ----------

  /** A rebind is due when a completion that asked for one came after the last hook call. */
  function RebindDue(log: seq<Output>): bool {
    if log == [] then false
    else
      var o := log[|log| - 1];
      !o.Rebind? && ((o.Called? && o.rebind) || RebindDue(log[..|log| - 1]))
  }

  lemma DueTell(log: seq<Output>, o: Output)
    ensures RebindDue(log + [o]) <==> !o.Rebind? && ((o.Called? && o.rebind) || RebindDue(log))
  {
    assert (log + [o])[..|log|] == log;
  }

  lemma NotifyCoalesces(s: State)
    requires s.pending == RebindDue(s.log)
    ensures Notify(s).pending == RebindDue(Notify(s).log)
  {
    DueTell(s.log, Rebind(|s.inflight|));
  }

  lemma ConcludeCoalesces(s: State, i: nat, v: Verdict, clock: nat)
    requires i < |s.inflight| && s.pending == RebindDue(s.log)
    ensures Conclude(s, i, v, clock).pending == RebindDue(Conclude(s, i, v, clock).log)
  {
    if v.Done? {
      var s1 := if Delivers(s, v.r, v, clock) then Tell(s, Delivery(v.r, clock)) else s;
      DueTell(s.log, Delivery(v.r, clock));
      DueTell(s1.log, Called(v.r.id, v.status, v.result, v.r.rebind));
    }
  }

  lemma TransmitCoalesces(s: State, l: Launch, clock: nat)
    requires s.pending == RebindDue(s.log)
    ensures Transmit(s, l, clock).pending == RebindDue(Transmit(s, l, clock).log)
  {
    if l.Launched? {
      DueTell(s.log, Sent(l.r.id, RoundSend, clock, l.to, l.r.packet));
    }
  }

  ghost predicate Coalesced(s: State) { s.pending == RebindDue(s.log) }

  lemma SubmitCoalesces(s: State, e: Event)
    requires e.Submit? && Coalesced(s)
    ensures Coalesced(OnSubmit(s, e))
  {
    if Submittable(s, e) {
      TransmitCoalesces(s.(tickets := s.tickets[e.id := TicketFor(NewRequest(s, e), Admitted(s, e))]), FirstLaunch(s, e), e.clock);
    }
  }

  lemma DatagramCoalesces(s: State, e: Event)
    requires e.Datagram? && Coalesced(s)
    ensures Coalesced(OnDatagram(s, e))
  {
    if Accepts(s, e) {
      var i := IndexOf(s.inflight, e.ingress.id);
      var resp := e.ingress.answer.value.(serverId := e.ingress.serverId);
      DueTell(s.log, Heard(e.ingress.id, resp, e.from));
      ConcludeCoalesces(Tell(s, Heard(e.ingress.id, resp, e.from)), i, Receive(s.inflight[i], resp, e.from, e.clock), e.sendClock);
    }
  }

  lemma TimeoutCoalesces(s: State, e: Event)
    requires e.Timeout? && Coalesced(s)
    ensures Coalesced(OnTimeout(s, e))
  {
    var i := IndexOf(s.inflight, e.id);
    if i < |s.inflight| {
      var x := Expire(s.policy, s.inflight[i], e.now, e.clock, e.up);
      if x.launch.Some? {
        TransmitCoalesces(s, x.launch.value, e.clock);
      }
      ConcludeCoalesces(if x.launch.Some? then Transmit(s, x.launch.value, e.clock) else s, i, x.verdict, e.clock);
    }
  }

  lemma CancelCoalesces(s: State, id: Id)
    requires Coalesced(s)
    ensures Coalesced(OnCancel(s, id))
  {
    var i := IndexOf(s.inflight, id);
    if i < |s.inflight| {
      DueTell(s.log, Cancelled(id));
      NotifyCoalesces(Tell(s.(inflight := RemoveAt(s.inflight, i)), Cancelled(id)));
    }
  }

  lemma StepCoalesces(s: State, e: Event)
    requires Coalesced(s)
    ensures Coalesced(Step(s, e))
  {
    match e
    case Servers(_) =>
    case SubmitEmpty => DueTell(s.log, CalledEmpty);
    case Submit(_, _, _, _, _, _) => SubmitCoalesces(s, e);
    case Datagram(_, _, _, _, _) => DatagramCoalesces(s, e);
    case Timeout(_, _, _, _) => TimeoutCoalesces(s, e);
    case Cancel(id) => CancelCoalesces(s, id);
    case Return =>
      if s.frames != [] {
        NotifyCoalesces(s.(frames := s.frames[..|s.frames| - 1]));
      }
  }

  lemma {:induction false} RunCoalesces(s: State, es: seq<Event>)
    requires Coalesced(s)
    ensures Coalesced(Run(s, es))
  {
    if es != [] {
      RunCoalesces(s, es[..|es| - 1]);
      StepCoalesces(Run(s, es[..|es| - 1]), es[|es| - 1]);
    }
  }

  /**
   The hook runs only with nothing in flight. The pending flag is set exactly
   when a completion whose request was asked to rebind came after the last hook
   call, so one call answers any number of requests. Outside callbacks a
   pending flag means something is still in flight.
   */
  lemma SteeringDrains(s: State, policy: Policy, quota: Option<u32>, windowLimit: Option<nat>, hook: bool,
                      es: seq<Event>)
    requires Reached(s, policy, quota, windowLimit, hook, es)
    ensures forall o :: o in s.log && o.Rebind? ==> o.inflight == 0
    ensures s.pending == RebindDue(s.log)
    ensures forall o :: o in s.log && o.Called? ==> (o.rebind <==> Asked(s.log, o.id))
    ensures s.frames == [] && s.pending && s.hook ==> s.inflight != []
  {
    ReachedOk(s, policy, quota, windowLimit, hook, es);
    RunCoalesces(Init(policy, quota, windowLimit, hook), es);
    assert forall o :: o in s.log ==> EntryOk(o, s.log, s.tickets);
  }

  // ---------- deadlines ----------

  /**
   However late its timers fired, a request's current round ends at
   start + unit * (B(0) + .. + B(round)), its final phase ends at the
   deduplication deadline start + Ttl, nothing wraps at 64 bits, and the armed
   deadline is the preference deadline when a candidate is held and the round
   deadline otherwise.
   */
  lemma DeadlinesTelescope(s: State, policy: Policy, quota: Option<u32>, windowLimit: Option<nat>, hook: bool,
                      es: seq<Event>, r: Request)
    requires Reached(s, policy, quota, windowLimit, hook, es) && r in s.inflight
    ensures r.dedupDeadline == r.start + Ttl(s.policy)
    ensures r.phase == Round ==> r.roundDeadline == r.start + s.policy.unit as int * GapSum(s.policy.gap, r.round + 1)
    ensures r.phase == Final ==> r.roundDeadline == r.start + Ttl(s.policy)
    ensures r.roundStart < r.roundDeadline <= r.dedupDeadline <= U64_MAX
    ensures r.armed == if r.best.Some? then r.preference else r.roundDeadline
  {
    ReachedOk(s, policy, quota, windowLimit, hook, es);
    var i :| 0 <= i < |s.inflight| && s.inflight[i] == r;
    assert RoundClock(s.policy, r) by {
      assert Attached(s, s.inflight[i]);
    }
    if r.phase == Round {
      RoundIsInside(s.policy, r);
    } else {
      FinalIsInside(s.policy, r);
    }
  }

  // ---------- the oldest server ----------

  function Answer(e: Event): Response
    requires e.Datagram? && e.ingress.Framed? && e.ingress.answer.Ok?
  {
    e.ingress.answer.value.(serverId := e.ingress.serverId)
  }

  /** Concluding a transition keeps the request in flight, or removes it and logs its callback. */
  lemma ConcludeEffect(s: State, i: nat, v: Verdict, clock: nat)
    requires Distinct(s.inflight) && i < |s.inflight| && v.r.id == s.inflight[i].id
    ensures InFlight(Conclude(s, i, v, clock).inflight, v.r.id) <==> v.Live?
    ensures v.Done? ==> Called(v.r.id, v.status, v.result, v.r.rebind) in Conclude(s, i, v, clock).log
  {
    if v.Done? {
      RemovedList(s.inflight, i);
    } else {
      assert s.inflight[i := v.r][i].id == v.r.id;
    }
  }

  /** Before the preference deadline only the oldest known server ends the wait. */
  lemma EarlyReceive(r: Request, resp: Response, from: Addr, clock: nat)
    requires clock < r.preference
    ensures
      var v := Receive(r, resp, from, clock);
      var best := Better(r.best, resp);
      && v.r.id == r.id && v.r.rebind == (r.rebind || !resp.keepPort)
      && (v.Done? <==> forall x :: x in r.allowed ==> best.value.serverId <= x)
      && (v.Done? ==> v.status == StatusOk && v.result == best)
  {
    OldestIsLeast(r.allowed, Better(r.best, resp).value.serverId);
  }

  /**
   With a known membership, a response that arrives before the end of round 0
   (by the host clock) completes the request exactly when the oldest response
   so far is by the oldest server of all, and then with that response.
   */
  lemma EarlySuccessIsOldest(s: State, policy: Policy, quota: Option<u32>, windowLimit: Option<nat>, hook: bool,
                      es: seq<Event>, e: Event)
    requires Reached(s, policy, quota, windowLimit, hook, es)
    requires e.Datagram? && Accepts(s, e)
    requires
      var r := s.inflight[IndexOf(s.inflight, e.ingress.id)];
      r.phase == Round && r.round == 0 && e.clock < r.roundDeadline
    ensures
      var r := s.inflight[IndexOf(s.inflight, e.ingress.id)];
      var best := Better(r.best, Answer(e));
      var s' := Step(s, e);
      && (!InFlight(s'.inflight, r.id) <==> forall x :: x in r.allowed ==> best.value.serverId <= x)
      && (!InFlight(s'.inflight, r.id) ==> Called(r.id, StatusOk, best, r.rebind || !Answer(e).keepPort) in s'.log)
  {
    ReachedOk(s, policy, quota, windowLimit, hook, es);
    var i := IndexOf(s.inflight, e.ingress.id);
    var r := s.inflight[i];
    assert r.preference == r.roundDeadline by {
      assert Attached(s, r);
    }
    EarlyReceive(r, Answer(e), e.from, e.clock);
    ConcludeEffect(Tell(s, Heard(r.id, Answer(e), e.from)), i, Receive(r, Answer(e), e.from, e.clock), e.sendClock);
  }

  lemma FoundRequest(list: seq<Request>, r: Request)
    requires Distinct(list) && r in list
    ensures IndexOf(list, r.id) < |list| && list[IndexOf(list, r.id)] == r
  {
    var i :| 0 <= i < |list| && list[i] == r;
    assert IndexOf(list, r.id) <= i;
  }

  /** What a transition's end adds to the log. */
  lemma ConcludeLogs(s: State, i: nat, v: Verdict, clock: nat, o: Output)
    requires i < |s.inflight| && o in Conclude(s, i, v, clock).log
    ensures o in s.log || o.Sent? || (v.Done? && o == Called(v.r.id, v.status, v.result, v.r.rebind))
  {
  }

  /** A round-0 timer that succeeds is at or after the preference deadline, and hands over the candidate. */
  lemma TimerVerdict(p: Policy, r: Request, now: nat, clock: nat, up: set<nat>)
    requires RequestInv(p, r) && r.phase == Round && r.round == 0
    requires Expire(p, r, now, clock, up).verdict.Done?
    requires Expire(p, r, now, clock, up).verdict.status == StatusOk
    ensures now >= r.start + p.unit as int * GapSum(p.gap, 1)
    ensures Expire(p, r, now, clock, up).verdict.result == r.best
  {
    assert r.preference == Edge(p, r.start, 1);
  }

  lemma TransmitLogs(s: State, l: Launch, clock: nat, o: Output)
    requires o in Transmit(s, l, clock).log
    ensures o in s.log || o.Sent?
  {
  }

  /** In every run, a timer reports a round-0 success only at or after the round's end by its own clock. */
  lemma TimerSuccessIsLate(s: State, policy: Policy, quota: Option<u32>, windowLimit: Option<nat>, hook: bool,
                      es: seq<Event>,
                           r: Request, e: Event, result: Option<Response>, rebind: bool)
    requires Reached(s, policy, quota, windowLimit, hook, es)
    requires r in s.inflight && r.phase == Round && r.round == 0
    requires e.Timeout? && e.id == r.id && Called(r.id, StatusOk, result, rebind) in Step(s, e).log
    ensures e.now >= r.start + s.policy.unit as int * GapSum(s.policy.gap, 1)
    ensures result == r.best
  {
    ReachedOk(s, policy, quota, windowLimit, hook, es);
    FoundRequest(s.inflight, r);
    var i := IndexOf(s.inflight, r.id);
    assert Attached(s, s.inflight[i]);
    assert Balanced(s, r.id) && InFlight(s.inflight, r.id);
    EndsZero(s.log, r.id);
    var o := Called(r.id, StatusOk, result, rebind);
    assert IsEnd(o, r.id);
    var x := Expire(s.policy, r, e.now, e.clock, e.up);
    var s1 := if x.launch.Some? then Transmit(s, x.launch.value, e.clock) else s;
    ConcludeLogs(s1, i, x.verdict, e.clock, o);
    if x.launch.Some? && o in s1.log {
      TransmitLogs(s, x.launch.value, e.clock, o);
    }
    TimerVerdict(s.policy, r, e.now, e.clock, e.up);
  }
}
