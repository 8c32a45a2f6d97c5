/**
 What each call does to a request, told by its schedule, its history and what the network took, for
 every state a run reaches; and what that means for whole runs.
 */
module ClientCalls {
  import opened Machine
  import opened Results
  import opened Schedule
  import opened Request
  import opened Client
  import opened ClientRuns
  import opened ClientTheorems
  import opened ClientOrder

  // ---------- times, outputs and outcomes ----------

  /** When a held candidate may be handed over: the end of round 0, or the start of a later phase. */
  ghost function HandOver(p: Policy, r: Request): nat {
    var rounds := if r.phase == Final then p.replayCount as int + 1 else if r.round == 0 then 1 else r.round;
    Edge(p, r.start, rounds)
  }

  /** When the phase of a request ends. */
  ghost function PhaseEnd(p: Policy, r: Request): nat {
    if r.phase == Final then r.start + Ttl(p) else Edge(p, r.start, r.round + 1)
  }

  /** How many of the targets the network takes a datagram for. */
  ghost function Reach(targets: seq<Endpoint>, up: set<nat>): nat {
    |set i: nat | i < |targets| && i in up|
  }

  /** The counter of lost sends after a round that reached `reach` of `n` targets; it saturates. */
  function Losses(failures: nat, n: nat, reach: nat): nat {
    if 0 < reach < n then Min(U64_MAX, failures + (n - reach)) else failures
  }

  /** What the world sees when a request ends: a delivery to the silent, if due, and the callback. */
  ghost function LastWords(p: Policy, r: Request, log: seq<Output>, status: Status, result: Option<Response>,
                           rebind: bool, clock: nat): seq<Output>
  {
    (if status == StatusOk && p.completionDelivery && clock < r.start + Ttl(p)
     then [Sent(r.id, CompletionSend, clock,
                Unanswered(r.targets, HeardIds(log, r.id), HeardAddrs(log, r.id)), r.packet)]
     else [])
    + [Called(r.id, status, result, rebind)]
  }

  ghost predicate OthersKept(s: State, t: State, id: Id) {
    forall x :: x != id ==> Entry(t.inflight, x) == Entry(s.inflight, x)
  }

  /** The request is gone and its callback is running; `news` is all the world has seen of it. */
  ghost predicate Ended(s: State, t: State, id: Id, news: seq<Output>) {
    && t.log == s.log + news
    && Entry(t.inflight, id).None?
    && OthersKept(s, t, id)
    && t.frames == s.frames + [Completion]
  }

  /** The request goes on as `r`. */
  ghost predicate GoesOn(s: State, t: State, r: Request, news: seq<Output>) {
    && t.log == s.log + news
    && Entry(t.inflight, r.id) == Some(r)
    && OthersKept(s, t, r.id)
    && t.frames == s.frames && t.pending == s.pending
  }

  /** The request in round k, on its schedule. */
  ghost function InRound(p: Policy, r: Request, k: nat): Request {
    var begin, end := Edge(p, r.start, k), Edge(p, r.start, k + 1);
    r.(phase := Round, round := k, roundStart := begin, roundDeadline := end,
       preference := if k == 0 then end else begin, armed := end)
  }

  /** The request in its final phase, which ends with the deduplication window. */
  ghost function InFinal(p: Policy, r: Request): Request {
    var begin := Edge(p, r.start, p.replayCount as int + 1);
    r.(phase := Final, roundStart := begin, preference := begin,
       roundDeadline := r.start + Ttl(p), armed := r.start + Ttl(p))
  }

  // ---------- ending and going on ----------

  lemma CompleteEnds(s: State, i: nat, v: Verdict, clock: nat)
    requires v.Done? && Moved(s, i, v.r) && v.r.dedupDeadline == v.r.start + Ttl(s.policy)
    requires v.status == StatusOk <==> v.result.Some?
    ensures Ended(s, Conclude(s, i, v, clock), v.r.id,
                  LastWords(s.policy, v.r, s.log, v.status, v.result, v.r.rebind, clock))
  {
    forall x ensures Entry(Conclude(s, i, v, clock).inflight, x) == if x == v.r.id then None else Entry(s.inflight, x) {
      EntryConcluded(s, i, v, clock, x);
    }
    MissingAreUnanswered(v.r, |v.r.targets|);
    assert v.r.targets[..|v.r.targets|] == v.r.targets;
    var called := Called(v.r.id, v.status, v.result, v.r.rebind);
    if Delivers(s, v.r, v, clock) {
      var sent := Delivery(v.r, clock);
      assert s.log + [sent] + [called] == s.log + ([sent] + [called]);
    } else {
      assert [] + [called] == [called];
    }
  }

  lemma LiveGoesOn(s: State, i: nat, v: Verdict, clock: nat, base: State, news: seq<Output>)
    requires v.Live? && i < |s.inflight| && v.r.id == s.inflight[i].id && Distinct(s.inflight)
    requires s.log == base.log + news && s.inflight == base.inflight
    requires s.frames == base.frames && s.pending == base.pending
    ensures GoesOn(base, Conclude(s, i, v, clock), v.r, news)
  {
    forall x ensures Entry(Conclude(s, i, v, clock).inflight, x) == if x
      == v.r.id then Some(v.r) else Entry(s.inflight, x) {
      EntryConcluded(s, i, v, clock, x);
    }
  }

  lemma EndedAfter(base: State, s: State, t: State, id: Id, first: seq<Output>, news: seq<Output>)
    requires Ended(s, t, id, news) && s.log == base.log + first && s.inflight == base.inflight
      && s.frames == base.frames
    ensures Ended(base, t, id, first + news)
  {
    assert base.log + first + news == base.log + (first + news);
  }

  // ---------- the timer ----------

  lemma {:induction false} DeliveredIs(r: Request, missingOnly: bool, up: set<nat>, n: nat)
    requires n <= |r.targets| && r.seenIds == [] && r.seenAddrs == []
    ensures Delivered(r, missingOnly, up, n) == |set i: nat | i < n && i in up|
  {
    var reached := set i: nat | i < n && i in up;
    if n == 0 {
      assert reached == {};
    } else {
      DeliveredIs(r, missingOnly, up, n - 1);
      var before := set i: nat | i < n - 1 && i in up;
      assert reached == before + if n - 1 in up then {n - 1} else {};
    }
  }

  /** A round that is started in time goes to every target, on schedule. */
  lemma RoundStarts(p: Policy, r: Request, k: nat, clock: nat, up: set<nat>)
    requires LegalPolicy(p, None) && k <= p.replayCount as int
    requires r.dedupDeadline == r.start + Ttl(p) <= U64_MAX
    requires k > 0 ==> r.roundDeadline == Edge(p, r.start, k)
    requires r.seenIds == [] && r.seenAddrs == [] && r.best.None?
    ensures
      var l := StartRound(p, r, k, clock, up);
      if clock >= r.start + Ttl(p) then l == Refused(ErrTimeout)
      else l == Launched(InRound(p, r, k), AllAddrs(r.targets), Reach(r.targets, up))
  {
    if clock < r.dedupDeadline {
      EnterRoundIsExact(p, r, k);
      var r' := EnterRound(p, r, k);
      UnansweredSendReachesAll(r', k > 0, |r.targets|);
      assert AllAddrs(r.targets)[..|r.targets|] == AllAddrs(r.targets);
      DeliveredIs(r', k > 0, up, |r.targets|);
    }
  }

  /** The complete table of what a timer call does to a request. */
  ghost predicate TimerDoes(s: State, r: Request, e: Event, t: State)
    requires e.Timeout?
  {
    var p := s.policy;
    var n, reach := |r.targets|, Reach(r.targets, e.up);
    if e.now < (if r.best.Some? then HandOver(p, r) else PhaseEnd(p, r)) then t == s
    else if r.best.Some? then
      Ended(s, t, r.id, LastWords(p, r, s.log, StatusOk, r.best, r.rebind, e.clock)) && t.failures == s.failures
    else if r.phase == Round && r.round < p.replayCount as int && e.clock < r.start + Ttl(p) then
      var sent := Sent(r.id, RoundSend, e.clock, AllAddrs(r.targets), r.packet);
      && t.failures == Losses(s.failures, n, reach)
      && if reach > 0 then GoesOn(s, t, InRound(p, r, r.round + 1), [sent])
         else Ended(s, t, r.id, [sent, Called(r.id, Failed(ErrIo), None, r.rebind)])
    else if r.phase == Round && r.round == p.replayCount as int && p.finalUnits > 0 then
      GoesOn(s, t, InFinal(p, r), []) && t.failures == s.failures
    else
      Ended(s, t, r.id, [Called(r.id, Failed(ErrTimeout), None, r.rebind)]) && t.failures == s.failures
  }

  lemma ArmedIs(p: Policy, r: Request)
    requires RequestInv(p, r)
    ensures r.preference == HandOver(p, r) && r.roundDeadline == PhaseEnd(p, r)
    ensures r.armed == if r.best.Some? then HandOver(p, r) else PhaseEnd(p, r)
    ensures r.dedupDeadline == r.start + Ttl(p) <= U64_MAX
  {
  }

  lemma TimeoutIs(s: State, i: nat, r: Request, e: Event)
    requires Inv(s) && i < |s.inflight| && s.inflight[i] == r && e.Timeout? && e.id == r.id
    ensures
      var x := Expire(s.policy, r, e.now, e.clock, e.up);
      Step(s, e) == Conclude(if x.launch.Some? then Transmit(s, x.launch.value, e.clock) else s, i, x.verdict, e.clock)
  {
    FoundRequest(s.inflight, r);
    assert IndexOf(s.inflight, e.id) == i;
  }

  lemma TimerHandsOver(s: State, i: nat, r: Request, e: Event)
    requires Inv(s) && i < |s.inflight| && s.inflight[i] == r && e.Timeout? && e.id == r.id
    requires r.best.Some? && e.now >= r.armed
    ensures TimerDoes(s, r, e, Step(s, e))
  {
    assert Attached(s, r);
    ArmedIs(s.policy, r);
    TimeoutIs(s, i, r, e);
    QuietMove(s, i, r);
    CompleteEnds(s, i, Done(r, StatusOk, r.best), e.clock);
  }

  /** Giving up: no candidate, so no delivery. */
  lemma GivesUp(s: State, i: nat, r: Request, code: Code, clock: nat)
    requires Inv(s) && i < |s.inflight| && SameBallot(s.inflight[i], r) && r.start == s.inflight[i].start
    ensures Ended(s, Conclude(s, i, Done(r, Failed(code), None), clock), r.id, [Called(r.id, Failed(code), None, r.rebind)])
    ensures Conclude(s, i, Done(r, Failed(code), None), clock).failures == s.failures
  {
    assert Attached(s, s.inflight[i]);
    QuietMove(s, i, r);
    CompleteEnds(s, i, Done(r, Failed(code), None), clock);
    assert [] + [Called(r.id, Failed(code), None, r.rebind)] == [Called(r.id, Failed(code), None, r.rebind)];
  }

  ghost predicate Silent(s: State, i: nat, r: Request, e: Event) {
    && Inv(s) && i < |s.inflight| && s.inflight[i] == r && e.Timeout? && e.id == r.id
    && r.best.None? && e.now >= r.armed
  }

  /** What an unanswered round leads to, before the request's state is looked at. */
  lemma ReplayIs(s: State, i: nat, r: Request, e: Event)
    requires Silent(s, i, r, e) && r.phase == Round && r.round < s.policy.replayCount as int
    requires e.clock < r.start + Ttl(s.policy)
    ensures
      var l := Launched(InRound(s.policy, r, r.round + 1), AllAddrs(r.targets), Reach(r.targets, e.up));
      && Step(s, e) == Conclude(Transmit(s, l, e.clock), i, AfterLaunch(r, l), e.clock)
      && Inv(Transmit(s, l, e.clock))
  {
    assert Attached(s, r);
    ArmedIs(s.policy, r);
    TimeoutIs(s, i, r, e);
    RoundStarts(s.policy, r, r.round + 1, e.clock, e.up);
    ReplayKeeps(s, i, StartRound(s.policy, r, r.round + 1, e.clock, e.up), e.clock, e.up);
  }

  lemma LaunchFails(s: State, i: nat, l: Launch, clock: nat)
    requires Inv(s) && Inv(Transmit(s, l, clock)) && l.Launched? && i < |s.inflight|
    requires SameBallot(s.inflight[i], l.r) && l.r.start == s.inflight[i].start
    ensures
      var sent := Sent(l.r.id, RoundSend, clock, l.to, l.r.packet);
      Ended(s, Conclude(Transmit(s, l, clock), i, Done(l.r, Failed(ErrIo), None), clock), l.r.id,
            [sent, Called(l.r.id, Failed(ErrIo), None, l.r.rebind)])
  {
    var sent := Sent(l.r.id, RoundSend, clock, l.to, l.r.packet);
    var called := Called(l.r.id, Failed(ErrIo), None, l.r.rebind);
    var s1 := Transmit(s, l, clock);
    GivesUp(s1, i, l.r, ErrIo, clock);
    EndedAfter(s, s1, Conclude(s1, i, Done(l.r, Failed(ErrIo), None), clock), l.r.id, [sent], [called]);
    assert [sent] + [called] == [sent, called];
  }

  lemma ReplayFailures(s: State, i: nat, l: Launch, v: Verdict, clock: nat)
    requires i < |s.inflight| && l.Launched?
    ensures Conclude(Transmit(s, l, clock), i, v, clock).failures == Losses(s.failures, |l.to|, l.delivered)
  {
  }

  lemma TimerReplays(s: State, i: nat, r: Request, e: Event)
    requires Silent(s, i, r, e) && r.phase == Round && r.round < s.policy.replayCount as int
    requires e.clock < r.start + Ttl(s.policy)
    ensures
      var sent := Sent(r.id, RoundSend, e.clock, AllAddrs(r.targets), r.packet);
      && Step(s, e).failures == Losses(s.failures, |r.targets|, Reach(r.targets, e.up))
      && if Reach(r.targets, e.up) > 0 then GoesOn(s, Step(s, e), InRound(s.policy, r, r.round + 1), [sent])
         else Ended(s, Step(s, e), r.id, [sent, Called(r.id, Failed(ErrIo), None, r.rebind)])
  {
    var l := Launched(InRound(s.policy, r, r.round + 1), AllAddrs(r.targets), Reach(r.targets, e.up));
    var sent := Sent(r.id, RoundSend, e.clock, AllAddrs(r.targets), r.packet);
    ReplayIs(s, i, r, e);
    assert r.targets != [] by {
      assert Attached(s, r);
    }
    ReplayFailures(s, i, l, AfterLaunch(r, l), e.clock);
    if Reach(r.targets, e.up) > 0 {
      LiveGoesOn(Transmit(s, l, e.clock), i, Live(l.r), e.clock, s, [sent]);
    } else {
      LaunchFails(s, i, l, e.clock);
    }
  }

  lemma TimerWaits(s: State, i: nat, r: Request, e: Event)
    requires Silent(s, i, r, e) && r.phase == Round && r.round == s.policy.replayCount as int && s.policy.finalUnits > 0
    ensures GoesOn(s, Step(s, e), InFinal(s.policy, r), []) && Step(s, e).failures == s.failures
  {
    assert Attached(s, r);
    ArmedIs(s.policy, r);
    TimeoutIs(s, i, r, e);
    EnterFinalIsExact(s.policy, r);
    assert EnterFinal(s.policy, r) == InFinal(s.policy, r);
    assert s.log == s.log + [];
    LiveGoesOn(s, i, Live(InFinal(s.policy, r)), e.clock, s, []);
  }

  lemma TimerGivesUp(s: State, i: nat, r: Request, e: Event)
    requires Silent(s, i, r, e)
    requires r.phase == Final || (r.round == s.policy.replayCount as int && s.policy.finalUnits == 0)
          || (r.round < s.policy.replayCount as int && e.clock >= r.start + Ttl(s.policy))
    ensures TimerDoes(s, r, e, Step(s, e))
  {
    assert Attached(s, r);
    ArmedIs(s.policy, r);
    TimeoutIs(s, i, r, e);
    GivesUp(s, i, r, ErrTimeout, e.clock);
    if r.phase == Round && r.round < s.policy.replayCount as int {
      RoundStarts(s.policy, r, r.round + 1, e.clock, e.up);
    }
  }

  /** In every reached state a timer call does to its request exactly what the table says. */
  lemma TimerCall(s: State, policy: Policy, quota: Option<u32>, windowLimit: Option<nat>, hook: bool, es: seq<Event>,
                  r: Request, e: Event)
    requires Reached(s, policy, quota, windowLimit, hook, es) && r in s.inflight && e.Timeout? && e.id == r.id
    ensures TimerDoes(s, r, e, Step(s, e))
  {
    ReachedOk(s, policy, quota, windowLimit, hook, es);
    TimerTable(s, r, e);
  }

  lemma TimerTable(s: State, r: Request, e: Event)
    requires Inv(s) && r in s.inflight && e.Timeout? && e.id == r.id
    ensures TimerDoes(s, r, e, Step(s, e))
  {
    FoundRequest(s.inflight, r);
    var i := IndexOf(s.inflight, r.id);
    assert Attached(s, s.inflight[i]);
    ArmedIs(s.policy, r);
    if e.now < r.armed {
      EarlyTimer(s, e);
    } else if r.best.Some? {
      TimerHandsOver(s, i, r, e);
    } else if r.phase == Round && r.round < s.policy.replayCount as int && e.clock < r.start + Ttl(s.policy) {
      TimerReplays(s, i, r, e);
    } else if r.phase == Round && r.round == s.policy.replayCount as int && s.policy.finalUnits > 0 {
      TimerWaits(s, i, r, e);
    } else {
      TimerGivesUp(s, i, r, e);
    }
  }

  // ---------- responses ----------

  ghost function Elder(best: Option<Response>, resp: Response): Response {
    if best.Some? && best.value.serverId <= resp.serverId then best.value else resp
  }

  /** The request with one more response heard, due for its hand-over. */
  ghost function Having(p: Policy, r: Request, resp: Response, from: Addr): Request {
    r.(rebind := r.rebind || !resp.keepPort,
       seenAddrs := Insert(r.seenAddrs, from),
       seenIds := Insert(r.seenIds, resp.serverId),
       best := Some(Elder(r.best, resp)),
       armed := HandOver(p, r))
  }

  /** What an accepted response does: it ends the wait iff nothing older can come, or the time has. */
  ghost predicate ResponseDoes(s: State, r: Request, e: Event, t: State)
    requires e.Datagram? && e.ingress.Framed? && e.ingress.answer.Ok?
  {
    var p, resp := s.policy, Answer(e);
    var heard, best := Heard(r.id, resp, e.from), Elder(r.best, resp);
    && t.failures == s.failures
    && if (forall x :: x in r.allowed ==> best.serverId <= x) || e.clock >= HandOver(p, r) then
         Ended(s, t, r.id, [heard] + LastWords(p, r, s.log + [heard], StatusOk, Some(best), r.rebind || !resp.keepPort, e.sendClock))
       else
         GoesOn(s, t, Having(p, r, resp, e.from), [heard])
  }

  lemma BetterIsElder(best: Option<Response>, resp: Response)
    ensures Better(best, resp) == Some(Elder(best, resp))
  {
    if best.Some? {
      OlderIsSmaller(resp.serverId, best.value.serverId);
    }
  }

  lemma ReceiveIs(p: Policy, r: Request, resp: Response, from: Addr, clock: nat)
    requires RequestInv(p, r)
    ensures
      var v := Receive(r, resp, from, clock);
      && (v.Done? <==> (forall x :: x in r.allowed ==> Elder(r.best, resp).serverId <= x) || clock >= HandOver(p, r))
      && (v.Live? ==> v.r == Having(p, r, resp, from))
      && (v.Done? ==> v == Done(Hear(r, resp, from), StatusOk, Some(Elder(r.best, resp))))
  {
    ArmedIs(p, r);
    BetterIsElder(r.best, resp);
    OldestIsLeast(r.allowed, Elder(r.best, resp).serverId);
    if r.phase == Round {
      RoundIsInside(p, r);
    } else {
      FinalIsInside(p, r);
    }
  }

  lemma ResponseMoves(s: State, i: nat, r: Request, resp: Response, from: Addr, clock: nat)
    requires Inv(s) && i < |s.inflight| && s.inflight[i] == r && Allowed(r.allowed, resp.serverId)
    ensures Moved(Tell(s, Heard(r.id, resp, from)), i, Receive(r, resp, from, clock).r)
  {
    assert Attached(s, r);
    ReceiveKeeps(s.policy, r, resp, from, clock);
    HearMoves(s, i, resp, from, Receive(r, resp, from, clock).r);
  }

  lemma ConcludeFailures(s: State, i: nat, v: Verdict, clock: nat)
    requires i < |s.inflight|
    ensures Conclude(s, i, v, clock).failures == s.failures
  {
  }

  lemma ResponseEnds(s: State, i: nat, r: Request, resp: Response, from: Addr, clock: nat, sendClock: nat)
    requires Inv(s) && i < |s.inflight| && s.inflight[i] == r && Allowed(r.allowed, resp.serverId)
    requires Receive(r, resp, from, clock).Done?
    ensures
      var heard := Heard(r.id, resp, from);
      Ended(s, Conclude(Tell(s, heard), i, Receive(r, resp, from, clock), sendClock), r.id,
            [heard] + LastWords(s.policy, r, s.log + [heard], StatusOk, Some(Elder(r.best, resp)),
                                r.rebind || !resp.keepPort, sendClock))
  {
    var heard, v := Heard(r.id, resp, from), Receive(r, resp, from, clock);
    var s1 := Tell(s, heard);
    assert Attached(s, r);
    ArmedIs(s.policy, r);
    ReceiveIs(s.policy, r, resp, from, clock);
    ResponseMoves(s, i, r, resp, from, clock);
    CompleteEnds(s1, i, v, sendClock);
    EndedAfter(s, s1, Conclude(s1, i, v, sendClock), r.id, [heard],
               LastWords(s.policy, r, s1.log, StatusOk, Some(Elder(r.best, resp)), r.rebind || !resp.keepPort, sendClock));
  }

  lemma ResponseTable(s: State, r: Request, e: Event)
    requires Inv(s) && r in s.inflight && e.Datagram? && Accepts(s, e) && e.ingress.id == r.id
    ensures ResponseDoes(s, r, e, Step(s, e))
  {
    FoundRequest(s.inflight, r);
    var i, resp := IndexOf(s.inflight, r.id), Answer(e);
    var heard, v := Heard(r.id, resp, e.from), Receive(r, resp, e.from, e.clock);
    assert RequestInv(s.policy, r) by {
      assert Attached(s, s.inflight[i]);
    }
    ReceiveIs(s.policy, r, resp, e.from, e.clock);
    assert Step(s, e) == Conclude(Tell(s, heard), i, v, e.sendClock);
    ConcludeFailures(Tell(s, heard), i, v, e.sendClock);
    if v.Done? {
      ResponseEnds(s, i, r, resp, e.from, e.clock, e.sendClock);
    } else {
      LiveGoesOn(Tell(s, heard), i, v, e.sendClock, s, [heard]);
    }
  }

  /** In every reached state an accepted response does to its request exactly what the table says. */
  lemma ResponseCall(s: State, policy: Policy, quota: Option<u32>, windowLimit: Option<nat>, hook: bool, es: seq<Event>,
                     r: Request, e: Event)
    requires Reached(s, policy, quota, windowLimit, hook, es)
    requires r in s.inflight && e.Datagram? && Accepts(s, e) && e.ingress.id == r.id
    ensures ResponseDoes(s, r, e, Step(s, e))
  {
    ReachedOk(s, policy, quota, windowLimit, hook, es);
    ResponseTable(s, r, e);
  }

  // ---------- submissions ----------

  /** What a submission may ask for: windows, policy and window within the credential's limits, and a packet. */
  ghost predicate Grantable(s: State, e: Event)
    requires e.Submit?
  {
    && (s.windowLimit.Some? ==> forall w :: w in e.windows ==> w <= s.windowLimit.value)
    && s.servers != []
    && LegalPolicy(s.policy, None)
    && (s.quota.Some? && s.quota.value > 0 ==> Ttl(s.policy) <= s.quota.value as int)
    && e.start + Ttl(s.policy) <= U64_MAX
    && e.framed.Ok?
  }

  /** The request as admitted: round 0 on the servers in force, nothing heard. */
  ghost function Admittee(s: State, e: Event): Request
    requires e.Submit? && e.framed.Ok?
  {
    InRound(s.policy,
            Request(e.id, e.framed.value, s.servers, AllowedIds(s.servers), e.start, e.start + Ttl(s.policy),
                    Round, 0, 0, 0, 0, 0, [], [], false, None), 0)
  }

  /** The complete table of what a submission does. */
  ghost predicate SubmitDoes(s: State, e: Event, t: State)
    requires e.Submit?
  {
    if !Grantable(s, e) then t == s
    else
      var reach, n := Reach(s.servers, e.up), |s.servers|;
      var late := e.clock >= e.start + Ttl(s.policy);
      var sent := Sent(e.id, RoundSend, e.clock, AllAddrs(s.servers), e.framed.value);
      && t.failures == (if late then s.failures else Losses(s.failures, n, reach))
      && t.tickets == s.tickets[e.id := Ticket(e.framed.value, e.start + Ttl(s.policy), s.servers, !late && reach > 0)]
      && if !late && reach > 0 then GoesOn(s, t, Admittee(s, e), [sent])
         else t.inflight == s.inflight && t.log == s.log + (if late then [] else [sent])
  }

  lemma GrantableIs(s: State, e: Event)
    requires e.Submit?
    ensures Grantable(s, e) <==> Submittable(s, e)
  {
    if s.windowLimit.Some? {
      assert forall i :: 0 <= i < |e.windows| ==> e.windows[i] in e.windows;
    }
  }

  lemma FirstLaunchIs(s: State, e: Event)
    requires e.Submit? && Submittable(s, e)
    ensures if e.clock >= e.start + Ttl(s.policy) then FirstLaunch(s, e) == Refused(ErrTimeout)
            else FirstLaunch(s, e) == Launched(Admittee(s, e), AllAddrs(s.servers), Reach(s.servers, e.up))
  {
    RoundStarts(s.policy, NewRequest(s, e), 0, e.clock, e.up);
  }

  lemma AddedGoesOn(s: State, t: State, r: Request, news: seq<Output>)
    requires t.log == s.log + news && t.inflight == [r] + s.inflight && t.frames == s.frames && t.pending == s.pending
    ensures GoesOn(s, t, r, news)
  {
    assert t.inflight[0] == r && IndexOf(t.inflight, r.id) == 0;
    forall x | x != r.id ensures Entry(t.inflight, x) == Entry(s.inflight, x) {
      EntryAdded(s.inflight, r, x);
    }
  }

  /** In every state a submission does exactly what the table says. */
  lemma SubmitCall(s: State, e: Event)
    requires e.Submit?
    ensures SubmitDoes(s, e, Step(s, e))
  {
    GrantableIs(s, e);
    if Grantable(s, e) {
      FirstLaunchIs(s, e);
      var sent := Sent(e.id, RoundSend, e.clock, AllAddrs(s.servers), e.framed.value);
      if Admitted(s, e) {
        AddedGoesOn(s, Step(s, e), Admittee(s, e), [sent]);
      }
    }
  }
}
