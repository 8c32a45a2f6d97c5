/** How requests fare over whole runs: every replay is made, and nothing is given up before its time. */
module ClientFates {
  import opened Machine
  import opened Results
  import opened Schedule
  import opened Request
  import opened Client
  import opened ClientRuns
  import opened ClientTheorems
  import opened ClientOrder
  import opened ClientCalls

  // ---------- counting rounds in the history ----------

  predicate IsRound(o: Output, id: Id) { o.Sent? && o.purpose == RoundSend && o.id == id }

  /** How many rounds of request `id` the history shows. */
  function RoundSends(log: seq<Output>, id: Id): nat {
    if log == [] then 0 else RoundSends(log[..|log| - 1], id) + if IsRound(log[|log| - 1], id) then 1 else 0
  }

  lemma RoundTold(log: seq<Output>, o: Output, id: Id)
    ensures RoundSends(log + [o], id) == RoundSends(log, id) + if IsRound(o, id) then 1 else 0
  {
    assert (log + [o])[..|log|] == log;
  }

  lemma {:induction false} NoRounds(log: seq<Output>, news: seq<Output>, id: Id)
    requires forall o :: o in news ==> !IsRound(o, id)
    ensures RoundSends(log + news, id) == RoundSends(log, id)
  {
    if news == [] {
      assert log + news == log;
    } else {
      var n := |news| - 1;
      NoRounds(log, news[..n], id);
      assert log + news == log + news[..n] + [news[n]];
      RoundTold(log + news[..n], news[n], id);
    }
  }

  /** A request in flight has made one send for each round up to its own; an unknown id has made none. */
  ghost predicate Paced(s: State, id: Id) {
    && (Entry(s.inflight, id).Some? ==> RoundSends(s.log, id) == Entry(s.inflight, id).value.round + 1)
    && (id !in s.tickets ==> RoundSends(s.log, id) == 0)
  }

  /** Whatever a step told, it told of request `id`. */
  ghost predicate ToldOf(s: State, t: State, id: Id) {
    && s.log <= t.log
    && forall o :: o in t.log[|s.log|..] ==> !o.CalledEmpty? && !o.Rebind? && o.id == id
  }

  lemma OthersRounds(s: State, t: State, id: Id, other: Id)
    requires ToldOf(s, t, id) && other != id
    ensures RoundSends(t.log, other) == RoundSends(s.log, other)
  {
    var news := t.log[|s.log|..];
    assert t.log == s.log + news;
    NoRounds(s.log, news, other);
  }

  lemma NewsIsToldOf(s: State, t: State, news: seq<Output>, id: Id)
    requires t.log == s.log + news && forall o :: o in news ==> !o.CalledEmpty? && !o.Rebind? && o.id == id
    ensures ToldOf(s, t, id)
  {
    assert t.log[|s.log|..] == news;
  }

  lemma WordsAreOf(p: Policy, r: Request, log: seq<Output>, best: Option<Response>, rebind: bool, clock: nat)
    ensures forall o :: o in LastWords(p, r, log, StatusOk, best, rebind, clock) ==>
      !o.CalledEmpty? && !o.Rebind? && o.id == r.id
  {
  }

  lemma TableTells(s: State, r: Request, e: Event, t: State)
    requires e.Timeout? && TimerDoes(s, r, e, t)
    ensures ToldOf(s, t, r.id)
  {
    var sent := Sent(r.id, RoundSend, e.clock, AllAddrs(r.targets), r.packet);
    var late := Called(r.id, Failed(ErrTimeout), None, r.rebind);
    if t == s || t.log == s.log + [] {
      assert t.log == s.log + [];
      NewsIsToldOf(s, t, [], r.id);
    } else if r.best.Some? {
      WordsAreOf(s.policy, r, s.log, r.best, r.rebind, e.clock);
      NewsIsToldOf(s, t, LastWords(s.policy, r, s.log, StatusOk, r.best, r.rebind, e.clock), r.id);
    } else if t.log == s.log + [late] {
      NewsIsToldOf(s, t, [late], r.id);
    } else if t.log == s.log + [sent] {
      NewsIsToldOf(s, t, [sent], r.id);
    } else {
      NewsIsToldOf(s, t, [sent, Called(r.id, Failed(ErrIo), None, r.rebind)], r.id);
    }
  }

  lemma TimerTells(s: State, r: Request, e: Event)
    requires Inv(s) && r in s.inflight && e.Timeout? && e.id == r.id
    ensures ToldOf(s, Step(s, e), r.id)
  {
    TimerTable(s, r, e);
    TableTells(s, r, e, Step(s, e));
  }

  /** The request goes through its rounds one by one, with one send each. */
  lemma TimerEntry(s: State, r: Request, e: Event)
    requires Inv(s) && r in s.inflight && e.Timeout? && e.id == r.id && Entry(s.inflight, r.id) == Some(r)
    ensures
      var t := Step(s, e);
      var q := Entry(t.inflight, r.id);
      || q.None?
      || (t.log == s.log && q.value.round == r.round)
      || (t.log == s.log + [Sent(r.id, RoundSend, e.clock, AllAddrs(r.targets), r.packet)]
        && q.value.round == r.round + 1)
  {
    TimerTable(s, r, e);
  }

  lemma TimerRounds(s: State, r: Request, e: Event, id: Id)
    requires Inv(s) && r in s.inflight && Entry(s.inflight, r.id) == Some(r) && e.Timeout? && e.id == r.id
    ensures id != r.id ==> RoundSends(Step(s, e).log, id) == RoundSends(s.log, id)
    ensures Paced(s, r.id) && Entry(Step(s, e).inflight, r.id).Some? ==>
              RoundSends(Step(s, e).log, r.id) == Entry(Step(s, e).inflight, r.id).value.round + 1
  {
    TimerTells(s, r, e);
    if id != r.id {
      OthersRounds(s, Step(s, e), r.id, id);
    }
    TimerEntry(s, r, e);
    RoundTold(s.log, Sent(r.id, RoundSend, e.clock, AllAddrs(r.targets), r.packet), r.id);
  }

  lemma WordsAreNoRounds(p: Policy, r: Request, log: seq<Output>, heard: Output, best: Option<Response>, rebind: bool,
                      clock: nat, id: Id)
    requires heard.Heard?
    ensures forall o :: o in [heard] + LastWords(p, r, log, StatusOk, best, rebind, clock) ==> !IsRound(o, id)
  {
  }

  lemma ResponseRounds(s: State, r: Request, e: Event, id: Id)
    requires Inv(s) && r in s.inflight && e.Datagram? && Accepts(s, e) && e.ingress.id == r.id
    ensures RoundSends(Step(s, e).log, id) == RoundSends(s.log, id)
  {
    ResponseTable(s, r, e);
    var resp := Answer(e);
    var heard := Heard(r.id, resp, e.from);
    var best, rebind := Some(Elder(r.best, resp)), r.rebind || !resp.keepPort;
    if Step(s, e).log == s.log + [heard] {
      RoundTold(s.log, heard, id);
    } else {
      var words := LastWords(s.policy, r, s.log + [heard], StatusOk, best, rebind, e.sendClock);
      WordsAreNoRounds(s.policy, r, s.log + [heard], heard, best, rebind, e.sendClock, id);
      NoRounds(s.log, [heard] + words, id);
    }
  }

  lemma ResponseEntry(s: State, r: Request, e: Event)
    requires Inv(s) && r in s.inflight && e.Datagram? && Accepts(s, e) && e.ingress.id == r.id
    ensures Entry(Step(s, e).inflight, r.id).Some? ==> Entry(Step(s, e).inflight, r.id).value.round == r.round
  {
    ResponseTable(s, r, e);
  }

  lemma SubmitRounds(s: State, e: Event, id: Id)
    requires e.Submit?
    ensures id != e.id ==> RoundSends(Step(s, e).log, id) == RoundSends(s.log, id)
    ensures RoundSends(s.log, e.id) == 0 && Entry(s.inflight, e.id).None? ==>
              && (Entry(Step(s, e).inflight, e.id).Some? ==>
                    && RoundSends(Step(s, e).log, e.id) == 1
                    && Entry(Step(s, e).inflight, e.id).value.round == 0)
              && (e.id !in Step(s, e).tickets ==> RoundSends(Step(s, e).log, e.id) == 0)
  {
    SubmitCall(s, e);
    if Step(s, e) != s {
      var sent := Sent(e.id, RoundSend, e.clock, AllAddrs(s.servers), e.framed.value);
      RoundTold(s.log, sent, id);
      RoundTold(s.log, sent, e.id);
      assert s.log + [] == s.log;
    }
  }

  lemma NotifyRounds(s: State, id: Id)
    ensures RoundSends(Notify(s).log, id) == RoundSends(s.log, id)
  {
    RoundTold(s.log, Rebind(|s.inflight|), id);
  }

  lemma PlainRounds(s: State, e: Event, id: Id)
    requires e.Servers? || e.SubmitEmpty? || e.Cancel? || e.Return?
    ensures RoundSends(Step(s, e).log, id) == RoundSends(s.log, id)
  {
    match e
    case Servers(_) =>
    case SubmitEmpty => RoundTold(s.log, CalledEmpty, id);
    case Cancel(x) =>
      var i := IndexOf(s.inflight, x);
      if i < |s.inflight| {
        RoundTold(s.log, Cancelled(x), id);
        NotifyRounds(Tell(s.(inflight := RemoveAt(s.inflight, i)), Cancelled(x)), id);
      }
    case Return =>
      if s.frames != [] {
        NotifyRounds(s.(frames := s.frames[..|s.frames| - 1]), id);
      }
  }

  lemma StepPaced(s: State, e: Event, id: Id)
    requires Inv(s) && Fresh(s, e) && Paced(s, id)
    ensures Paced(Step(s, e), id)
    ensures id in s.tickets && Entry(s.inflight, id).None? ==> RoundSends(Step(s, e).log, id) == RoundSends(s.log, id)
  {
    StepConstants(s, e);
    if !About(s, e, id) {
      OthersLeaveEntry(s, e, id);
    }
    match e
    case Timeout(x, _, _, _) => TimeoutPaced(s, e, id);
    case Datagram(_, _, _, _, _) => DatagramPaced(s, e, id);
    case Submit(x, _, _, _, _, _) => SubmitPaced(s, e, id);
    case Cancel(_) =>
      PlainRounds(s, e, id);
      CancelLeaves(s, e, id);
    case _ => PlainRounds(s, e, id);
  }

  lemma CancelLeaves(s: State, e: Event, id: Id)
    requires Inv(s) && e.Cancel?
    ensures Entry(Step(s, e).inflight, id) == if e.id == id then None else Entry(s.inflight, id)
  {
    var i := IndexOf(s.inflight, e.id);
    if i < |s.inflight| {
      EntryRemoved(s.inflight, i, id);
    }
  }

  lemma TimeoutPaced(s: State, e: Event, id: Id)
    requires Inv(s) && Fresh(s, e) && Paced(s, id) && e.Timeout?
    requires !About(s, e, id) ==> Entry(Step(s, e).inflight, id) == Entry(s.inflight, id)
    requires id in s.tickets ==> id in Step(s, e).tickets
    ensures Paced(Step(s, e), id)
    ensures id in s.tickets && Entry(s.inflight, id).None? ==> RoundSends(Step(s, e).log, id) == RoundSends(s.log, id)
  {
    if Entry(s.inflight, e.id).Some? {
      var r := Entry(s.inflight, e.id).value;
      TimerRounds(s, r, e, id);
      assert r.id in s.tickets by {
        assert Attached(s, s.inflight[IndexOf(s.inflight, e.id)]);
      }
    } else {
      assert Step(s, e) == s;
    }
  }

  lemma DatagramPaced(s: State, e: Event, id: Id)
    requires Inv(s) && Paced(s, id) && e.Datagram?
    requires !About(s, e, id) ==> Entry(Step(s, e).inflight, id) == Entry(s.inflight, id)
    requires id in s.tickets ==> id in Step(s, e).tickets
    ensures Paced(Step(s, e), id)
    ensures RoundSends(Step(s, e).log, id) == RoundSends(s.log, id)
  {
    if Accepts(s, e) {
      EntryIs(s.inflight, IndexOf(s.inflight, e.ingress.id));
      var r := Entry(s.inflight, e.ingress.id).value;
      ResponseRounds(s, r, e, id);
      ResponseEntry(s, r, e);
    }
  }

  lemma SubmitPaced(s: State, e: Event, id: Id)
    requires Inv(s) && Fresh(s, e) && Paced(s, id) && e.Submit?
    requires !About(s, e, id) ==> Entry(Step(s, e).inflight, id) == Entry(s.inflight, id)
    requires id in s.tickets ==> id in Step(s, e).tickets
    ensures Paced(Step(s, e), id)
    ensures id in s.tickets ==> RoundSends(Step(s, e).log, id) == RoundSends(s.log, id)
  {
    FreshIsUnheard(s, e.id);
    SubmitRounds(s, e, id);
  }

  lemma {:induction false} RunPaced(s: State, es: seq<Event>, id: Id)
    requires Inv(s) && FreshRun(s, es) && Paced(s, id)
    ensures Inv(Run(s, es)) && Paced(Run(s, es), id)
  {
    RunKeeps(s, es);
    if es != [] {
      var front := es[..|es| - 1];
      RunPaced(s, front, id);
      StepPaced(Run(s, front), es[|es| - 1], id);
    }
  }

  /** In every run a request in round k has been sent exactly k + 1 times. */
  lemma OneSendPerRound(s: State, policy: Policy, quota: Option<u32>, windowLimit: Option<nat>, hook: bool,
                      es: seq<Event>, r: Request)
    requires Reached(s, policy, quota, windowLimit, hook, es) && r in s.inflight
    ensures RoundSends(s.log, r.id) == r.round + 1
  {
    var s0 := Init(policy, quota, windowLimit, hook);
    InitOk(policy, quota, windowLimit, hook);
    RunPaced(s0, es, r.id);
    FoundRequest(s.inflight, r);
  }

  // ---------- why a request failed ----------

  /** A timer call that explains a failure: nothing got out in a replay, or the window was over. */
  ghost predicate Explains(s: State, e: Event, o: Output)
    requires o.Called?
  {
    && e.Timeout? && e.id == o.id && o.id in s.tickets
    && var ticket := s.tickets[o.id];
    || (o.status == Failed(ErrIo) && e.clock < ticket.dedupDeadline && Reach(ticket.targets, e.up) == 0)
    || (o.status == Failed(ErrTimeout) && e.clock >= ticket.dedupDeadline)
    || (o.status == Failed(ErrTimeout) && e.now >= ticket.dedupDeadline
        && RoundSends(s.log, o.id) == s.policy.replayCount as int + 1)
  }

  ghost predicate Explained(s: State, es: seq<Event>, o: Output)
    requires o.Called?
  {
    o.status == StatusOk || exists k :: 0 <= k < |es| && Explains(s, es[k], o)
  }

  lemma LastEnd(p: Policy, r: Request)
    requires RequestInv(p, r)
    requires r.phase == Final || (r.round == p.replayCount as int && p.finalUnits == 0)
    ensures PhaseEnd(p, r) == r.start + Ttl(p)
  {
    if r.phase == Round {
      LastEdge(p, r.start);
      assert p.unit as int * 0 == 0;
    }
  }

  lemma TableExplains(s: State, r: Request, e: Event, t: State, o: Output)
    requires e.Timeout? && e.id == r.id && TimerDoes(s, r, e, t) && RequestInv(s.policy, r)
    requires RoundSends(s.log, r.id) == r.round + 1 && o in t.log && o !in s.log && o.Called?
    requires r.id in t.tickets && t.tickets[r.id] == TicketFor(r, true) && t.policy == s.policy
    ensures o.status == StatusOk || Explains(t, e, o)
  {
    if o.status == Failed(ErrTimeout) && e.clock < r.start + Ttl(s.policy) {
      LastEnd(s.policy, r);
      RoundTold(s.log, o, r.id);
    }
  }

  lemma TimerExplains(s: State, r: Request, e: Event, o: Output)
    requires Inv(s) && r in s.inflight && e.Timeout? && e.id == r.id && Entry(s.inflight, r.id) == Some(r)
    requires Paced(s, r.id) && o in Step(s, e).log && o !in s.log && o.Called?
    ensures o.status == StatusOk || Explains(Step(s, e), e, o)
  {
    TimerTable(s, r, e);
    StepConstants(s, e);
    assert RequestInv(s.policy, r) && r.id in s.tickets && s.tickets[r.id] == TicketFor(r, true) by {
      assert Attached(s, s.inflight[IndexOf(s.inflight, r.id)]);
    }
    TicketStays(s, e, r.id);
    TableExplains(s, r, e, Step(s, e), o);
  }

  /** A ticket, once written, is never changed. */
  lemma TicketStays(s: State, e: Event, id: Id)
    requires Fresh(s, e) && id in s.tickets
    ensures id in Step(s, e).tickets && Step(s, e).tickets[id] == s.tickets[id]
  {
    match e
    case Datagram(_, _, _, _, _) =>
      if Accepts(s, e) {
        var i := IndexOf(s.inflight, e.ingress.id);
        ConcludeConstants(Tell(s, Heard(e.ingress.id, Answer(e), e.from)), i, Receive(s.inflight[i], Answer(e), e.from, e.clock), e.sendClock);
      }
    case Timeout(_, _, _, _) =>
      var i := IndexOf(s.inflight, e.id);
      if i < |s.inflight| {
        var x := Expire(s.policy, s.inflight[i], e.now, e.clock, e.up);
        ConcludeConstants(if x.launch.Some? then Transmit(s, x.launch.value, e.clock) else s, i, x.verdict, e.clock);
      }
    case _ =>
  }

  lemma WordsSucceed(p: Policy, r: Request, log: seq<Output>, heard: Output, best: Option<Response>, rebind: bool,
                     clock: nat)
    requires heard.Heard?
    ensures forall o :: o in [heard] + LastWords(p, r, log, StatusOk, best, rebind, clock) ==>
              !o.Rebind? && (o.Called? ==> o.status == StatusOk)
  {
  }

  lemma ResponseSucceeds(s: State, r: Request, e: Event, o: Output)
    requires Inv(s) && r in s.inflight && e.Datagram? && Accepts(s, e) && e.ingress.id == r.id
    requires o in Step(s, e).log && o !in s.log
    ensures !o.Rebind? && (o.Called? ==> o.status == StatusOk)
  {
    ResponseTable(s, r, e);
    var resp := Answer(e);
    var heard := Heard(r.id, resp, e.from);
    if Step(s, e).log != s.log + [heard] {
      WordsSucceed(s.policy, r, s.log + [heard], heard, Some(Elder(r.best, resp)), r.rebind || !resp.keepPort, e.sendClock);
    }
  }

  lemma PlainCalls(s: State, e: Event, o: Output)
    requires e.Servers? || e.SubmitEmpty? || e.Cancel? || e.Return? || e.Submit?
    requires o in Step(s, e).log && o.Called?
    ensures o in s.log
  {
    if e.Submit? {
      SubmitCall(s, e);
    }
  }

  lemma StepExplains(s: State, e: Event, o: Output)
    requires Inv(s) && Fresh(s, e) && o.Called? && Paced(s, o.id)
    requires o in Step(s, e).log && o !in s.log
    ensures o.status == StatusOk || Explains(Step(s, e), e, o)
  {
    match e
    case Timeout(_, _, _, _) =>
      var r := Entry(s.inflight, e.id).value;
      TimerTells(s, r, e);
      assert o in Step(s, e).log[|s.log|..];
      TimerExplains(s, r, e, o);
    case Datagram(_, _, _, _, _) =>
      var i := IndexOf(s.inflight, e.ingress.id);
      ResponseSucceeds(s, s.inflight[i], e, o);
    case _ => PlainCalls(s, e, o);
  }

  /** A callback is the end of its request: it is not in flight, and had a ticket. */
  lemma CalledIsOver(s: State, o: Output)
    requires Inv(s) && o in s.log && o.Called?
    ensures o.id in s.tickets && Entry(s.inflight, o.id).None?
  {
    var i :| 0 <= i < |s.log| && s.log[i] == o;
    EndCounts(s.log, o.id, i);
    assert Balanced(s, o.id);
  }

  lemma ExplanationStays(s: State, es: seq<Event>, e: Event, o: Output)
    requires Inv(s) && Fresh(s, e) && o in s.log && o.Called? && Paced(s, o.id) && Explained(s, es, o)
    ensures Explained(Step(s, e), es + [e], o)
  {
    CalledIsOver(s, o);
    StepPaced(s, e, o.id);
    StepConstants(s, e);
    TicketStays(s, e, o.id);
    if o.status != StatusOk {
      var k :| 0 <= k < |es| && Explains(s, es[k], o);
      assert (es + [e])[k] == es[k] && Explains(Step(s, e), es[k], o);
    }
  }

  lemma {:induction false} RunExplains(s: State, es: seq<Event>, o: Output)
    requires Inv(s) && FreshRun(s, es) && s.log == [] && o.Called? && Paced(s, o.id) && o in Run(s, es).log
    ensures Explained(Run(s, es), es, o)
  {
    if es != [] {
      var front, e := es[..|es| - 1], es[|es| - 1];
      assert es == front + [e];
      RunPaced(s, front, o.id);
      if o in Run(s, front).log {
        RunExplains(s, front, o);
        ExplanationStays(Run(s, front), front, e, o);
      } else {
        StepExplains(Run(s, front), e, o);
        assert es[|front|] == e;
      }
    }
  }

  /**
   In every run, a callback that does not report success is explained by one of the request's timer
   calls: a replay none of whose sends the network took, or a clock at or past the deduplication
   deadline; and where that is only the timer's own clock, every replay has been sent by then.
   */
  lemma FailuresAreExplained(s: State, policy: Policy, quota: Option<u32>, windowLimit: Option<nat>, hook: bool,
                      es: seq<Event>, o: Output)
    requires Reached(s, policy, quota, windowLimit, hook, es) && o in s.log && o.Called? && o.status != StatusOk
    ensures exists k :: 0 <= k < |es| && Explains(s, es[k], o)
  {
    InitOk(policy, quota, windowLimit, hook);
    RunExplains(Init(policy, quota, windowLimit, hook), es, o);
  }

  // ---------- patience ----------

  /** Events that do not end an unanswered request: they leave it alone, or come within its window and get through. */
  ghost predicate Harmless(r: Request, e: Event) {
    match e
    case Submit(id, _, _, _, _, _) => id != r.id
    case Cancel(id) => id != r.id
    case Timeout(id, now, clock, up) =>
      id != r.id || (now < r.dedupDeadline && clock < r.dedupDeadline && Reach(r.targets, up) > 0)
    case Datagram(ingress, _, arrival, _, _) =>
      || ingress.Garbled? || ingress.id != r.id || ingress.answer.Err?
      || arrival > r.dedupDeadline || !Allowed(r.allowed, ingress.serverId)
    case _ => true
  }

  /** The same request, still unanswered. */
  ghost predicate Trying(s: State, r: Request) {
    && Entry(s.inflight, r.id).Some?
    && var q := Entry(s.inflight, r.id).value;
    && q.best.None? && q.start == r.start && q.dedupDeadline == r.dedupDeadline
    && q.targets == r.targets && q.allowed == r.allowed
  }

  lemma TimerTries(s: State, r: Request, e: Event)
    requires Inv(s) && Trying(s, r) && Harmless(r, e) && e.Timeout? && e.id == r.id
    ensures Trying(Step(s, e), r)
  {
    var q := Entry(s.inflight, r.id).value;
    assert RequestInv(s.policy, q) by {
      assert Attached(s, s.inflight[IndexOf(s.inflight, r.id)]);
    }
    TimerTable(s, q, e);
    if q.phase == Final || (q.round == s.policy.replayCount as int && s.policy.finalUnits == 0) {
      LastEnd(s.policy, q);
    }
  }

  lemma StepTries(s: State, r: Request, e: Event)
    requires Inv(s) && Trying(s, r) && Harmless(r, e)
    ensures Trying(Step(s, e), r)
  {
    if e.Timeout? && e.id == r.id {
      TimerTries(s, r, e);
    } else {
      OthersLeaveEntry(s, e, r.id);
    }
  }

  lemma {:induction false} RunTries(s: State, r: Request, later: seq<Event>)
    requires Inv(s) && FreshRun(s, later) && Trying(s, r) && forall i :: 0 <= i < |later| ==> Harmless(r, later[i])
    ensures Trying(Run(s, later), r)
  {
    if later != [] {
      var front := later[..|later| - 1];
      RunTries(s, r, front);
      RunKeeps(s, front);
      StepTries(Run(s, front), r, later[|later| - 1]);
    }
  }

  /**
   An unanswered request is not given up before its deduplication deadline: whatever happens to
   other requests, it stays in flight as long as it is not cancelled and its timer calls come before
   that deadline and get at least one send through.
   */
  lemma StaysUntilDeadline(s: State, policy: Policy, quota: Option<u32>, windowLimit: Option<nat>, hook: bool,
                      es: seq<Event>,
                           r: Request, later: seq<Event>)
    requires Reached(s, policy, quota, windowLimit, hook, es) && r in s.inflight && r.best.None?
    requires FreshRun(s, later) && forall i :: 0 <= i < |later| ==> Harmless(r, later[i])
    ensures InFlight(Run(s, later).inflight, r.id)
  {
    ReachedOk(s, policy, quota, windowLimit, hook, es);
    FoundRequest(s.inflight, r);
    RunTries(s, r, later);
  }

  // ---------- what a run never changes ----------

  lemma StepFixed(s: State, e: Event)
    ensures Step(s, e).quota == s.quota && Step(s, e).hook == s.hook && Step(s, e).windowLimit == s.windowLimit
    ensures Step(s, e).policy == s.policy
  {
    match e
    case Datagram(_, _, _, _, _) =>
      if Accepts(s, e) {
        var i := IndexOf(s.inflight, e.ingress.id);
        ConcludeFixed(Tell(s, Heard(e.ingress.id, Answer(e), e.from)), i, Receive(s.inflight[i], Answer(e), e.from, e.clock), e.sendClock);
      }
    case Timeout(_, _, _, _) =>
      var i := IndexOf(s.inflight, e.id);
      if i < |s.inflight| {
        var x := Expire(s.policy, s.inflight[i], e.now, e.clock, e.up);
        ConcludeFixed(if x.launch.Some? then Transmit(s, x.launch.value, e.clock) else s, i, x.verdict, e.clock);
      }
    case _ =>
  }

  lemma ConcludeFixed(s: State, i: nat, v: Verdict, clock: nat)
    requires i < |s.inflight|
    ensures var t := Conclude(s, i, v, clock);
      t.quota == s.quota && t.hook == s.hook && t.windowLimit == s.windowLimit && t.policy == s.policy
  {
  }

  /** Nothing is in flight under a policy the credential does not grant. */
  ghost predicate Granted(s: State) {
    s.inflight != [] ==> LegalPolicy(s.policy, s.quota)
  }

  lemma StepGrants(s: State, e: Event)
    requires Inv(s) && Granted(s)
    ensures Granted(Step(s, e))
  {
    var t := Step(s, e);
    StepFixed(s, e);
    if t.inflight != [] {
      var id := t.inflight[0].id;
      assert Entry(t.inflight, id).Some?;
      if e.Submit? {
        SubmitCall(s, e);
      } else if !About(s, e, id) {
        OthersLeaveEntry(s, e, id);
      } else if e.Cancel? {
        CancelLeaves(s, e, id);
      }
    }
  }

  lemma {:induction false} RunGrants(s: State, es: seq<Event>)
    requires Inv(s) && FreshRun(s, es) && Granted(s)
    ensures Granted(Run(s, es)) && Run(s, es).quota == s.quota && Run(s, es).hook == s.hook
  {
    if es != [] {
      var front := es[..|es| - 1];
      RunGrants(s, front);
      RunKeeps(s, front);
      StepFixed(Run(s, front), es[|es| - 1]);
      StepGrants(Run(s, front), es[|es| - 1]);
    }
  }

  /** In every run, the window of every request in flight is within the credential's quota. */
  lemma WindowWithinQuota(s: State, policy: Policy, quota: Option<u32>, windowLimit: Option<nat>, hook: bool,
                      es: seq<Event>, r: Request)
    requires Reached(s, policy, quota, windowLimit, hook, es) && r in s.inflight
    ensures r.dedupDeadline - r.start <= if quota.Some? && quota.value > 0 then quota.value as int else U32_MAX
  {
    var s0 := Init(policy, quota, windowLimit, hook);
    InitOk(policy, quota, windowLimit, hook);
    RunGrants(s0, es);
    ReachedOk(s, policy, quota, windowLimit, hook, es);
    FoundRequest(s.inflight, r);
    assert Attached(s, s.inflight[IndexOf(s.inflight, r.id)]);
  }

  lemma StepRebinds(s: State, e: Event, o: Output)
    requires Inv(s) && o in Step(s, e).log && o !in s.log && o.Rebind?
    ensures s.hook
  {
    match e
    case Timeout(_, _, _, _) =>
      var r := Entry(s.inflight, e.id).value;
      TimerTells(s, r, e);
    case Datagram(_, _, _, _, _) => ResponseSucceeds(s, s.inflight[IndexOf(s.inflight, e.ingress.id)], e, o);
    case Submit(_, _, _, _, _, _) => SubmitCall(s, e);
    case _ =>
  }

  lemma {:induction false} RunRebinds(s: State, es: seq<Event>, o: Output)
    requires Inv(s) && FreshRun(s, es) && Granted(s) && s.log == [] && o in Run(s, es).log && o.Rebind?
    ensures s.hook
  {
    if es != [] {
      var front := es[..|es| - 1];
      RunKeeps(s, front);
      RunGrants(s, front);
      if o in Run(s, front).log {
        RunRebinds(s, front, o);
      } else {
        StepRebinds(Run(s, front), es[|es| - 1], o);
      }
    }
  }

  /** Without a steering hook none is ever called. */
  lemma HookIsInstalled(s: State, policy: Policy, quota: Option<u32>, windowLimit: Option<nat>, hook: bool,
                      es: seq<Event>, o: Output)
    requires Reached(s, policy, quota, windowLimit, hook, es) && o in s.log && o.Rebind?
    ensures hook
  {
    InitOk(policy, quota, windowLimit, hook);
    RunRebinds(Init(policy, quota, windowLimit, hook), es, o);
  }

  /** The server list installed last. */
  function Installed(es: seq<Event>): seq<Endpoint> {
    if es == [] then []
    else if es[|es| - 1].Servers? then es[|es| - 1].list
    else Installed(es[..|es| - 1])
  }

  lemma ConcludeServers(s: State, i: nat, v: Verdict, clock: nat)
    requires i < |s.inflight|
    ensures Conclude(s, i, v, clock).servers == s.servers
  {
  }

  lemma StepServers(s: State, e: Event)
    ensures Step(s, e).servers == if e.Servers? then e.list else s.servers
  {
    match e
    case Datagram(_, _, _, _, _) =>
      if Accepts(s, e) {
        var i := IndexOf(s.inflight, e.ingress.id);
        ConcludeServers(Tell(s, Heard(e.ingress.id, Answer(e), e.from)), i, Receive(s.inflight[i], Answer(e), e.from, e.clock), e.sendClock);
      }
    case Timeout(_, _, _, _) =>
      var i := IndexOf(s.inflight, e.id);
      if i < |s.inflight| {
        var x := Expire(s.policy, s.inflight[i], e.now, e.clock, e.up);
        ConcludeServers(if x.launch.Some? then Transmit(s, x.launch.value, e.clock) else s, i, x.verdict, e.clock);
      }
    case _ =>
  }

  /** In every run the servers in force are those installed last, so a submission goes to them. */
  lemma {:induction false} ServersInForce(s: State, es: seq<Event>)
    requires s.servers == []
    ensures Run(s, es).servers == Installed(es)
  {
    if es != [] {
      ServersInForce(s, es[..|es| - 1]);
      StepServers(Run(s, es[..|es| - 1]), es[|es| - 1]);
    }
  }
}
