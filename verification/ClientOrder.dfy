/** Timer progress, independence of arrival order, and erasure of noise, over runs. */
module ClientOrder {
  import opened Machine
  import opened Results
  import opened Schedule
  import opened Request
  import opened Client
  import opened ClientRuns
  import opened ClientTheorems

  // ---------- timer progress ----------

  /** The request in flight under an id. */
  function Entry(list: seq<Request>, id: Id): (r: Option<Request>)
    ensures r.Some? <==> InFlight(list, id)
    ensures r.Some? ==> r.value in list && r.value.id == id
  {
    var i := IndexOf(list, id);
    if i < |list| then Some(list[i]) else None
  }

  lemma EntryIs(list: seq<Request>, i: nat)
    requires Distinct(list) && i < |list|
    ensures Entry(list, list[i].id) == Some(list[i])
  {
    FoundRequest(list, list[i]);
  }

  lemma EntryRemoved(list: seq<Request>, i: nat, id: Id)
    requires Distinct(list) && i < |list|
    ensures Entry(RemoveAt(list, i), id) == if id == list[i].id then None else Entry(list, id)
  {
    RemovedList(list, i);
    var rest := RemoveAt(list, i);
    if id != list[i].id && InFlight(rest, id) {
      var k := IndexOf(rest, id);
      EntryIs(list, if k < i then k else k + 1);
    }
  }

  lemma EntryReplaced(list: seq<Request>, i: nat, r: Request, id: Id)
    requires Distinct(list) && i < |list| && r.id == list[i].id
    ensures Entry(list[i := r], id) == if id == r.id then Some(r) else Entry(list, id)
  {
    ReplacedList(list, i, r);
    var list' := list[i := r];
    EntryIs(list', i);
    if id != r.id && InFlight(list, id) {
      var k := IndexOf(list, id);
      assert list'[k] == list[k];
      EntryIs(list', k);
    }
  }

  /** Concluding a transition of one request leaves every other entry alone. */
  lemma EntryConcluded(s: State, i: nat, v: Verdict, clock: nat, id: Id)
    requires Distinct(s.inflight) && i < |s.inflight| && v.r.id == s.inflight[i].id
    ensures Entry(Conclude(s, i, v, clock).inflight, id)
         == if id != v.r.id then Entry(s.inflight, id) else if v.Live? then Some(v.r) else None
  {
    if v.Live? {
      EntryReplaced(s.inflight, i, v.r, id);
    } else {
      EntryRemoved(s.inflight, i, id);
    }
  }

  lemma EntryAdded(list: seq<Request>, r: Request, id: Id)
    requires id != r.id
    ensures Entry([r] + list, id) == Entry(list, id)
  {
    assert ([r] + list)[1..] == list;
  }

  /** Effective timer calls request `id` can still absorb; zero once it has left. */
  function Left(p: Policy, list: seq<Request>, id: Id): nat {
    match Entry(list, id)
    case None => 0
    case Some(r) => TimerCallsLeft(p, r)
  }

  lemma ConcludeLeft(s: State, i: nat, v: Verdict, clock: nat, id: Id)
    requires Distinct(s.inflight) && i < |s.inflight| && v.r.id == s.inflight[i].id
    requires v.Live? ==> TimerCallsLeft(s.policy, v.r) <= TimerCallsLeft(s.policy, s.inflight[i])
    ensures Left(s.policy, Conclude(s, i, v, clock).inflight, id) <= Left(s.policy, s.inflight, id)
    ensures id == v.r.id && (v.Live? ==> TimerCallsLeft(s.policy, v.r) < TimerCallsLeft(s.policy, s.inflight[i])) ==>
              Left(s.policy, Conclude(s, i, v, clock).inflight, id) < Left(s.policy, s.inflight, id)
  {
    EntryConcluded(s, i, v, clock, id);
    EntryIs(s.inflight, i);
  }

  /** A timer call for `id` at or after its armed deadline. */
  predicate Effective(s: State, e: Event, id: Id) {
    && e.Timeout? && e.id == id
    && var i := IndexOf(s.inflight, id);
    && i < |s.inflight| && e.now >= s.inflight[i].armed
  }

  lemma TimeoutLeft(s: State, e: Event, id: Id)
    requires Inv(s) && e.Timeout?
    ensures Left(s.policy, OnTimeout(s, e).inflight, id) <= Left(s.policy, s.inflight, id)
    ensures Effective(s, e, id) ==> Left(s.policy, OnTimeout(s, e).inflight, id) < Left(s.policy, s.inflight, id)
  {
    var i := IndexOf(s.inflight, e.id);
    if i < |s.inflight| {
      var r := s.inflight[i];
      assert Attached(s, r);
      var x := Expire(s.policy, r, e.now, e.clock, e.up);
      ExpireShape(s.policy, r, e.now, e.clock, e.up);
      if e.now >= r.armed {
        ExpireProgresses(s.policy, r, e.now, e.clock, e.up);
      }
      var s1 := if x.launch.Some? then Transmit(s, x.launch.value, e.clock) else s;
      ConcludeLeft(s1, i, x.verdict, e.clock, id);
    }
  }

  lemma DatagramLeft(s: State, e: Event, id: Id)
    requires Inv(s) && e.Datagram?
    ensures Left(s.policy, OnDatagram(s, e).inflight, id) <= Left(s.policy, s.inflight, id)
  {
    if Accepts(s, e) {
      var i := IndexOf(s.inflight, e.ingress.id);
      ConcludeLeft(Tell(s, Heard(e.ingress.id, Answer(e), e.from)), i,
                   Receive(s.inflight[i], Answer(e), e.from, e.clock), e.sendClock, id);
    }
  }

  lemma SubmitLeft(s: State, e: Event, id: Id)
    requires e.Submit? && id != e.id
    ensures Left(s.policy, OnSubmit(s, e).inflight, id) == Left(s.policy, s.inflight, id)
  {
    if Submittable(s, e) && Admitted(s, e) {
      EntryAdded(s.inflight, FirstLaunch(s, e).r, id);
    }
  }

  lemma CancelLeft(s: State, x: Id, id: Id)
    requires Inv(s)
    ensures Left(s.policy, OnCancel(s, x).inflight, id) <= Left(s.policy, s.inflight, id)
  {
    var i := IndexOf(s.inflight, x);
    if i < |s.inflight| {
      EntryRemoved(s.inflight, i, id);
    }
  }

  lemma StepLeft(s: State, e: Event, id: Id)
    requires Inv(s) && Fresh(s, e) && id in s.tickets
    ensures Left(s.policy, Step(s, e).inflight, id) <= Left(s.policy, s.inflight, id)
    ensures Effective(s, e, id) ==> Left(s.policy, Step(s, e).inflight, id) < Left(s.policy, s.inflight, id)
  {
    match e
    case Servers(_) =>
    case SubmitEmpty =>
    case Submit(_, _, _, _, _, _) => SubmitLeft(s, e, id);
    case Datagram(_, _, _, _, _) => DatagramLeft(s, e, id);
    case Timeout(_, _, _, _) => TimeoutLeft(s, e, id);
    case Cancel(x) => CancelLeft(s, x, id);
    case Return =>
  }

  ghost function EffectiveCalls(s: State, es: seq<Event>, id: Id): nat {
    if es == [] then 0
    else EffectiveCalls(s, es[..|es| - 1], id)
         + if Effective(Run(s, es[..|es| - 1]), es[|es| - 1], id) then 1 else 0
  }

  lemma ConcludeConstants(s: State, i: nat, v: Verdict, clock: nat)
    requires i < |s.inflight|
    ensures Conclude(s, i, v, clock).policy == s.policy && Conclude(s, i, v, clock).tickets == s.tickets
  {
  }

  lemma StepConstants(s: State, e: Event)
    ensures Step(s, e).policy == s.policy
    ensures forall id :: id in s.tickets ==> id in Step(s, e).tickets
  {
    match e
    case Datagram(_, _, _, _, _) =>
      if Accepts(s, e) {
        var i := IndexOf(s.inflight, e.ingress.id);
        ConcludeConstants(Tell(s, Heard(e.ingress.id, Answer(e), e.from)), i, Receive(s.inflight[i], Answer(e), e.from, e.clock), e.sendClock);
      }
    case Timeout(_, _, _, _) =>
      var i := IndexOf(s.inflight, e.id);
      if i < |s.inflight| {
        var x := Expire(s.policy, s.inflight[i], e.now, e.clock, e.up);
        ConcludeConstants(if x.launch.Some? then Transmit(s, x.launch.value, e.clock) else s, i, x.verdict, e.clock);
      }
    case _ =>
  }

  /** Each effective timer call uses up one of the calls left, whatever happens in between. */
  lemma {:induction false} RunLeft(s: State, es: seq<Event>, id: Id)
    requires Inv(s) && FreshRun(s, es) && id in s.tickets
    ensures Run(s, es).policy == s.policy && id in Run(s, es).tickets
    ensures Left(s.policy, Run(s, es).inflight, id) + EffectiveCalls(s, es, id) <= Left(s.policy, s.inflight, id)
  {
    if es != [] {
      var front := es[..|es| - 1];
      RunLeft(s, front, id);
      RunKeeps(s, front);
      StepConstants(Run(s, front), es[|es| - 1]);
      StepLeft(Run(s, front), es[|es| - 1], id);
    }
  }

  /** At most replay_count + 2 effective timer calls finish any request. */
  lemma TimersFinish(s: State, policy: Policy, quota: Option<u32>, windowLimit: Option<nat>, hook: bool,
                     es: seq<Event>, later: seq<Event>, id: Id)
    requires Reached(s, policy, quota, windowLimit, hook, es) && FreshRun(s, later)
    requires InFlight(s.inflight, id)
    ensures EffectiveCalls(s, later, id) <= s.policy.replayCount as int + 2
    ensures EffectiveCalls(s, later, id) == s.policy.replayCount as int + 2 ==> !InFlight(Run(s, later).inflight, id)
  {
    ReachedOk(s, policy, quota, windowLimit, hook, es);
    var i := IndexOf(s.inflight, id);
    assert Attached(s, s.inflight[i]);
    RunLeft(s, later, id);
  }

  // ---------- arrival order ----------

  /** A response to `r` that counts, before the preference deadline by the host clock. */
  predicate Timely(r: Request, e: Event) {
    && e.Datagram? && e.ingress.Framed? && e.ingress.id == r.id && e.ingress.answer.Ok?
    && e.arrival <= r.dedupDeadline && e.clock < r.preference && Allowed(r.allowed, e.ingress.serverId)
  }

  /** Anything that is not about `r`: other requests, noise, and timers of `r` that are too early. */
  predicate Foreign(r: Request, e: Event) {
    match e
    case Servers(_) => true
    case SubmitEmpty => true
    case Return => true
    case Submit(id, _, _, _, _, _) => id != r.id
    case Cancel(id) => id != r.id
    case Timeout(id, now, _, _) => id != r.id || now < r.preference
    case Datagram(ingress, _, arrival, _, _) =>
      || ingress.Garbled? || ingress.id != r.id || ingress.answer.Err?
      || arrival > r.dedupDeadline || !Allowed(r.allowed, ingress.serverId)
  }

  predicate Interleaving(r: Request, es: seq<Event>) {
    forall i :: 0 <= i < |es| ==> Timely(r, es[i]) || Foreign(r, es[i])
  }

  /** The responses to `r` in an interleaving, in order. */
  function Mine(r: Request, es: seq<Event>): seq<Response> {
    if es == [] then []
    else
      var e := es[|es| - 1];
      Mine(r, es[..|es| - 1]) + if Timely(r, e) then [Answer(e)] else []
  }

  /** The candidate after hearing responses in order. */
  function Pick(heard: seq<Response>): Option<Response> {
    if heard == [] then None else Better(Pick(heard[..|heard| - 1]), heard[|heard| - 1])
  }

  lemma PickMore(heard: seq<Response>, resp: Response)
    ensures Pick(heard + [resp]) == Better(Pick(heard), resp)
  {
    assert (heard + [resp])[..|heard|] == heard;
  }

  lemma {:induction false} PickIsLeast(heard: seq<Response>)
    ensures Pick(heard).Some? <==> heard != []
    ensures Pick(heard).Some? ==> Pick(heard).value in heard
    ensures forall resp :: resp in heard ==> Pick(heard).Some? && Pick(heard).value.serverId <= resp.serverId
  {
    if heard != [] {
      var front, last := heard[..|heard| - 1], heard[|heard| - 1];
      PickIsLeast(front);
      assert heard == front + [last];
      if front != [] {
        OlderIsSmaller(last.serverId, Pick(front).value.serverId);
      }
    }
  }

  /** The request is still in round 0, holding `best`. */
  ghost predicate Waiting(s: State, r: Request, best: Option<Response>) {
    && Entry(s.inflight, r.id).Some?
    && var q := Entry(s.inflight, r.id).value;
    && q.phase == Round && q.round == 0
    && q.best == best
    && q.preference == r.preference
    && q.dedupDeadline == r.dedupDeadline
    && q.allowed == r.allowed
  }

  /** Some callback of `id` has reported success with `best`. */
  ghost predicate Reported(s: State, id: Id, best: Option<Response>) {
    exists b :: Called(id, StatusOk, best, b) in s.log
  }

  /** The request has been answered with `best`, by the oldest server allowed. */
  ghost predicate AnsweredByOldest(s: State, r: Request, best: Option<Response>) {
    && r.id in s.tickets && !InFlight(s.inflight, r.id)
    && best.Some? && (forall x :: x in r.allowed ==> best.value.serverId <= x)
    && Reported(s, r.id, best)
  }

  // one response

  lemma TimelyStep(s: State, r: Request, best: Option<Response>, e: Event)
    requires Waiting(s, r, best) && Timely(r, e)
    ensures
      var i := IndexOf(s.inflight, r.id);
      var v := Receive(s.inflight[i], Answer(e), e.from, e.clock);
      Step(s, e) == Conclude(Tell(s, Heard(r.id, Answer(e), e.from)), i, v, e.sendClock)
  {
  }

  lemma ResponseWaits(s: State, r: Request, i: nat, resp: Response, from: Addr, clock: nat, sendClock: nat)
    requires Inv(s) && i < |s.inflight| && s.inflight[i].id == r.id
    requires Waiting(s, r, s.inflight[i].best) && Entry(s.inflight, r.id) == Some(s.inflight[i])
    requires Receive(s.inflight[i], resp, from, clock).Live?
    ensures Waiting(Conclude(Tell(s, Heard(r.id, resp, from)), i, Receive(s.inflight[i], resp, from, clock), sendClock),
                    r, Better(s.inflight[i].best, resp))
  {
    EntryConcluded(Tell(s, Heard(r.id, resp, from)), i, Receive(s.inflight[i], resp, from, clock), sendClock, r.id);
  }

  lemma ResponseAnswers(s: State, r: Request, i: nat, resp: Response, from: Addr, clock: nat, sendClock: nat)
    requires Inv(s) && i < |s.inflight| && s.inflight[i].id == r.id
    requires s.inflight[i].allowed == r.allowed && clock < s.inflight[i].preference
    requires Receive(s.inflight[i], resp, from, clock).Done?
    ensures AnsweredByOldest(Conclude(Tell(s, Heard(r.id, resp, from)), i, Receive(s.inflight[i], resp, from, clock), sendClock),
                             r, Better(s.inflight[i].best, resp))
  {
    var v := Receive(s.inflight[i], resp, from, clock);
    var s1 := Tell(s, Heard(r.id, resp, from));
    EarlyReceive(s.inflight[i], resp, from, clock);
    ConcludeEffect(s1, i, v, sendClock);
    ConcludeConstants(s1, i, v, sendClock);
    assert Attached(s, s.inflight[i]);
  }

  /** One timely response: the wait goes on with the better candidate, or ends with the oldest server's. */
  lemma ResponseStep(s: State, r: Request, best: Option<Response>, e: Event)
    requires Inv(s) && Waiting(s, r, best) && Timely(r, e)
    ensures Waiting(Step(s, e), r, Better(best, Answer(e))) || AnsweredByOldest(Step(s, e), r, Better(best, Answer(e)))
  {
    var i := IndexOf(s.inflight, r.id);
    TimelyStep(s, r, best, e);
    if Receive(s.inflight[i], Answer(e), e.from, e.clock).Live? {
      ResponseWaits(s, r, i, Answer(e), e.from, e.clock, e.sendClock);
    } else {
      ResponseAnswers(s, r, i, Answer(e), e.from, e.clock, e.sendClock);
    }
  }

  // everything else

  lemma ConcludeGrows(s: State, i: nat, v: Verdict, clock: nat, o: Output)
    requires i < |s.inflight| && o in s.log
    ensures o in Conclude(s, i, v, clock).log
  {
  }

  lemma TransmitGrows(s: State, l: Launch, clock: nat, o: Output)
    requires o in s.log
    ensures o in Transmit(s, l, clock).log
  {
  }

  lemma TimeoutGrows(s: State, e: Event, o: Output)
    requires e.Timeout? && o in s.log
    ensures o in OnTimeout(s, e).log
  {
    var i := IndexOf(s.inflight, e.id);
    if i < |s.inflight| {
      var x := Expire(s.policy, s.inflight[i], e.now, e.clock, e.up);
      if x.launch.Some? {
        TransmitGrows(s, x.launch.value, e.clock, o);
      }
      ConcludeGrows(if x.launch.Some? then Transmit(s, x.launch.value, e.clock) else s, i, x.verdict, e.clock, o);
    }
  }

  lemma DatagramGrows(s: State, e: Event, o: Output)
    requires e.Datagram? && o in s.log
    ensures o in OnDatagram(s, e).log
  {
    if Accepts(s, e) {
      var i := IndexOf(s.inflight, e.ingress.id);
      ConcludeGrows(Tell(s, Heard(e.ingress.id, Answer(e), e.from)), i, Receive(s.inflight[i], Answer(e), e.from, e.clock), e.sendClock, o);
    }
  }

  lemma SubmitGrows(s: State, e: Event, o: Output)
    requires e.Submit? && o in s.log
    ensures o in OnSubmit(s, e).log
  {
    if Submittable(s, e) {
      TransmitGrows(s.(tickets := s.tickets[e.id := TicketFor(NewRequest(s, e), Admitted(s, e))]), FirstLaunch(s, e), e.clock, o);
    }
  }

  /** The history is never rewritten. */
  lemma HistoryStays(s: State, e: Event, o: Output)
    requires o in s.log
    ensures o in Step(s, e).log
  {
    match e
    case Submit(_, _, _, _, _, _) => SubmitGrows(s, e, o);
    case Datagram(_, _, _, _, _) => DatagramGrows(s, e, o);
    case Timeout(_, _, _, _) => TimeoutGrows(s, e, o);
    case _ =>
  }

  lemma TimeoutEntry(s: State, e: Event, id: Id)
    requires Inv(s) && e.Timeout? && e.id != id
    ensures Entry(OnTimeout(s, e).inflight, id) == Entry(s.inflight, id)
  {
    var i := IndexOf(s.inflight, e.id);
    if i < |s.inflight| {
      var r := s.inflight[i];
      assert Attached(s, r);
      ExpireShape(s.policy, r, e.now, e.clock, e.up);
      var x := Expire(s.policy, r, e.now, e.clock, e.up);
      EntryConcluded(if x.launch.Some? then Transmit(s, x.launch.value, e.clock) else s, i, x.verdict, e.clock, id);
    }
  }

  lemma DatagramEntry(s: State, e: Event, id: Id)
    requires Inv(s) && e.Datagram? && (Accepts(s, e) ==> e.ingress.id != id)
    ensures Entry(OnDatagram(s, e).inflight, id) == Entry(s.inflight, id)
  {
    if Accepts(s, e) {
      var i := IndexOf(s.inflight, e.ingress.id);
      EntryConcluded(Tell(s, Heard(e.ingress.id, Answer(e), e.from)), i,
                     Receive(s.inflight[i], Answer(e), e.from, e.clock), e.sendClock, id);
    }
  }

  lemma SubmitEntry(s: State, e: Event, id: Id)
    requires e.Submit? && id != e.id
    ensures Entry(OnSubmit(s, e).inflight, id) == Entry(s.inflight, id)
  {
    if Submittable(s, e) && Admitted(s, e) {
      EntryAdded(s.inflight, FirstLaunch(s, e).r, id);
    }
  }

  lemma CancelEntry(s: State, x: Id, id: Id)
    requires Inv(s) && x != id
    ensures Entry(OnCancel(s, x).inflight, id) == Entry(s.inflight, id)
  {
    var i := IndexOf(s.inflight, x);
    if i < |s.inflight| {
      EntryRemoved(s.inflight, i, id);
    }
  }

  /** The events that can touch the request under `id` at all. */
  predicate About(s: State, e: Event, id: Id) {
    || ((e.Submit? || e.Timeout? || e.Cancel?) && e.id == id)
    || (e.Datagram? && Accepts(s, e) && e.ingress.id == id)
  }

  /** What is not about a request leaves it exactly as it is. */
  lemma OthersLeaveEntry(s: State, e: Event, id: Id)
    requires Inv(s) && !About(s, e, id)
    ensures Entry(Step(s, e).inflight, id) == Entry(s.inflight, id)
  {
    match e
    case Submit(_, _, _, _, _, _) => SubmitEntry(s, e, id);
    case Datagram(_, _, _, _, _) => DatagramEntry(s, e, id);
    case Timeout(_, _, _, _) => TimeoutEntry(s, e, id);
    case Cancel(x) => CancelEntry(s, x, id);
    case _ =>
  }

  /** A timer before the armed deadline changes nothing. */
  lemma EarlyTimer(s: State, e: Event)
    requires e.Timeout? && Entry(s.inflight, e.id).Some? && e.now < Entry(s.inflight, e.id).value.armed
    ensures Step(s, e) == s
  {
    var i := IndexOf(s.inflight, e.id);
    assert s.inflight[i := s.inflight[i]] == s.inflight;
  }

  lemma ForeignWaits(s: State, r: Request, best: Option<Response>, e: Event)
    requires Inv(s) && Waiting(s, r, best) && Foreign(r, e)
    ensures Waiting(Step(s, e), r, best)
  {
    var q := Entry(s.inflight, r.id).value;
    if e.Timeout? && e.id == r.id {
      assert Attached(s, q);
      EarlyTimer(s, e);
    } else {
      OthersLeaveEntry(s, e, r.id);
    }
  }

  /** Once answered, whatever happens next leaves it so. */
  lemma AnsweredStays(s: State, r: Request, best: Option<Response>, e: Event)
    requires Inv(s) && Fresh(s, e) && AnsweredByOldest(s, r, best)
    ensures AnsweredByOldest(Step(s, e), r, best)
  {
    StepConstants(s, e);
    var b :| Called(r.id, StatusOk, best, b) in s.log;
    HistoryStays(s, e, Called(r.id, StatusOk, best, b));
    if About(s, e, r.id) {
      assert Entry(s.inflight, r.id).None?;
    } else {
      OthersLeaveEntry(s, e, r.id);
    }
  }

  lemma BestStays(r: Request, best: Option<Response>, e: Event)
    requires r.allowed != [] && Timely(r, e)
    requires best.Some? && forall x :: x in r.allowed ==> best.value.serverId <= x
    ensures Better(best, Answer(e)) == best
  {
    OlderIsSmaller(Answer(e).serverId, best.value.serverId);
  }

  lemma NextEvent(s: State, r: Request, heard: seq<Response>, e: Event)
    requires Inv(s) && Fresh(s, e) && r.allowed != []
    requires Waiting(s, r, Pick(heard)) || AnsweredByOldest(s, r, Pick(heard))
    requires Timely(r, e) || Foreign(r, e)
    ensures
      var now := heard + if Timely(r, e) then [Answer(e)] else [];
      Waiting(Step(s, e), r, Pick(now)) || AnsweredByOldest(Step(s, e), r, Pick(now))
  {
    if AnsweredByOldest(s, r, Pick(heard)) {
      AnsweredStays(s, r, Pick(heard), e);
      if Timely(r, e) {
        PickMore(heard, Answer(e));
        BestStays(r, Pick(heard), e);
      } else {
        assert heard + [] == heard;
      }
    } else if Timely(r, e) {
      PickMore(heard, Answer(e));
      ResponseStep(s, r, Pick(heard), e);
    } else {
      assert heard + [] == heard;
      ForeignWaits(s, r, Pick(heard), e);
    }
  }

  /** After any interleaving the request holds, or has reported, the oldest response heard so far. */
  lemma {:induction false} Arrivals(s: State, r: Request, es: seq<Event>)
    requires Inv(s) && Waiting(s, r, None) && r.allowed != []
    requires FreshRun(s, es) && Interleaving(r, es)
    ensures Waiting(Run(s, es), r, Pick(Mine(r, es))) || AnsweredByOldest(Run(s, es), r, Pick(Mine(r, es)))
  {
    if es != [] {
      var front := es[..|es| - 1];
      Arrivals(s, r, front);
      RunKeeps(s, front);
      NextEvent(Run(s, front), r, Mine(r, front), es[|es| - 1]);
    }
  }

  /** A timer at or after the preference deadline hands over the held candidate. */
  lemma TimerAnswers(s: State, r: Request, best: Option<Response>, e: Event)
    requires Inv(s) && best.Some? && Waiting(s, r, best)
    requires e.Timeout? && e.id == r.id && e.now >= r.preference
    ensures Reported(Step(s, e), r.id, best)
  {
    var i := IndexOf(s.inflight, r.id);
    var v := Expire(s.policy, s.inflight[i], e.now, e.clock, e.up).verdict;
    assert v == Done(s.inflight[i], StatusOk, best) by {
      assert Attached(s, s.inflight[i]);
    }
    ConcludeEffect(s, i, v, e.clock);
  }

  lemma ArrivalsThenTimer(s: State, r: Request, es: seq<Event>, e: Event)
    requires Inv(s) && Waiting(s, r, None) && r.allowed != []
    requires FreshRun(s, es) && Interleaving(r, es) && Mine(r, es) != []
    requires e.Timeout? && e.id == r.id && e.now >= r.preference
    ensures Reported(Run(s, es + [e]), r.id, Pick(Mine(r, es)))
  {
    assert (es + [e])[..|es|] == es;
    var s1, best := Run(s, es), Pick(Mine(r, es));
    Arrivals(s, r, es);
    RunKeeps(s, es);
    PickIsLeast(Mine(r, es));
    if Waiting(s1, r, best) {
      TimerAnswers(s1, r, best, e);
    } else {
      AnsweredStays(s1, r, best, e);
    }
  }

  function Ids(heard: seq<Response>): set<nat> { set resp | resp in heard :: resp.serverId }

  /** The same servers, in any order and number, give the same server. */
  lemma SameServer(a: seq<Response>, b: seq<Response>)
    requires a != [] && Ids(a) == Ids(b)
    ensures Pick(a).Some? && Pick(b).Some? && Pick(a).value.serverId == Pick(b).value.serverId
    ensures forall id :: id in Ids(a) ==> Pick(a).value.serverId <= id
  {
    PickIsLeast(a);
    PickIsLeast(b);
    assert a[0].serverId in Ids(b);
    assert Pick(a).value.serverId in Ids(b) && Pick(b).value.serverId in Ids(a);
  }

  lemma Starts(s: State, r: Request)
    requires Inv(s) && r in s.inflight && r.phase == Round && r.round == 0 && r.best.None? && AllKnown(r.targets)
    ensures Waiting(s, r, None) && r.allowed != [] && r.preference == r.roundDeadline
  {
    FoundRequest(s.inflight, r);
    assert Attached(s, s.inflight[IndexOf(s.inflight, r.id)]);
    DistinctIdsAreTheIds(r.targets, r.targets[0].serverId);
  }

  /**
   Arrival order does not matter. Take a request of a known membership in round 0 with nothing
   heard, in any reached state, and two runs from there. In each, responses to the request that
   count before the round's end may come in any order and number, with anything foreign to the
   request in between, and the round timer fires at the end. If the same servers answered in both,
   both runs report the same server: the oldest of those.
   */
  lemma ArrivalOrderIrrelevant(
    s: State, policy: Policy, quota: Option<u32>, windowLimit: Option<nat>, hook: bool, es: seq<Event>,
    r: Request, a: seq<Event>, b: seq<Event>, ea: Event, eb: Event)
    requires Reached(s, policy, quota, windowLimit, hook, es)
    requires r in s.inflight && r.phase == Round && r.round == 0 && r.best.None? && AllKnown(r.targets)
    requires FreshRun(s, a) && Interleaving(r, a) && FreshRun(s, b) && Interleaving(r, b)
    requires Mine(r, a) != [] && Ids(Mine(r, a)) == Ids(Mine(r, b))
    requires ea.Timeout? && ea.id == r.id && ea.now >= r.roundDeadline
    requires eb.Timeout? && eb.id == r.id && eb.now >= r.roundDeadline
    ensures exists x: Response, y: Response ::
              && Reported(Run(s, a + [ea]), r.id, Some(x))
              && Reported(Run(s, b + [eb]), r.id, Some(y))
              && x.serverId == y.serverId
              && forall id :: id in Ids(Mine(r, a)) ==> x.serverId <= id
  {
    ReachedOk(s, policy, quota, windowLimit, hook, es);
    Starts(s, r);
    SameServer(Mine(r, a), Mine(r, b));
    PickIsLeast(Mine(r, b));
    ArrivalsThenTimer(s, r, a, ea);
    ArrivalsThenTimer(s, r, b, eb);
  }

  /** A server that answers twice gives the same answer, within and across the two runs. */
  predicate OneVoice(a: seq<Response>, b: seq<Response>) {
    forall x, y :: x in a + b && y in a + b && x.serverId == y.serverId ==> x == y
  }

  /** If moreover no server contradicts itself, the whole reported response is the same. */
  lemma SameResponse(
    s: State, policy: Policy, quota: Option<u32>, windowLimit: Option<nat>, hook: bool, es: seq<Event>,
    r: Request, a: seq<Event>, b: seq<Event>, ea: Event, eb: Event)
    requires Reached(s, policy, quota, windowLimit, hook, es)
    requires r in s.inflight && r.phase == Round && r.round == 0 && r.best.None? && AllKnown(r.targets)
    requires FreshRun(s, a) && Interleaving(r, a) && FreshRun(s, b) && Interleaving(r, b)
    requires Mine(r, a) != [] && Ids(Mine(r, a)) == Ids(Mine(r, b)) && OneVoice(Mine(r, a), Mine(r, b))
    requires ea.Timeout? && ea.id == r.id && ea.now >= r.roundDeadline
    requires eb.Timeout? && eb.id == r.id && eb.now >= r.roundDeadline
    ensures exists x: Response ::
              Reported(Run(s, a + [ea]), r.id, Some(x)) && Reported(Run(s, b + [eb]), r.id, Some(x))
  {
    ReachedOk(s, policy, quota, windowLimit, hook, es);
    Starts(s, r);
    SameServer(Mine(r, a), Mine(r, b));
    PickIsLeast(Mine(r, a));
    PickIsLeast(Mine(r, b));
    ArrivalsThenTimer(s, r, a, ea);
    ArrivalsThenTimer(s, r, b, eb);
  }

  /**
   The known membership is needed: when some server of the snapshot is unknown, the first response
   that counts ends the wait, whoever sent it.
   */
  lemma UnknownTakesFirst(
    s: State, policy: Policy, quota: Option<u32>, windowLimit: Option<nat>, hook: bool, es: seq<Event>, r: Request, e: Event)
    requires Reached(s, policy, quota, windowLimit, hook, es)
    requires r in s.inflight && r.best.None? && !AllKnown(r.targets) && Timely(r, e)
    ensures !InFlight(Step(s, e).inflight, r.id) && Reported(Step(s, e), r.id, Some(Answer(e)))
  {
    ReachedOk(s, policy, quota, windowLimit, hook, es);
    FoundRequest(s.inflight, r);
    var i := IndexOf(s.inflight, r.id);
    assert Attached(s, s.inflight[i]);
    var v := Receive(r, Answer(e), e.from, e.clock);
    EarlyReceive(r, Answer(e), e.from, e.clock);
    ConcludeEffect(Tell(s, Heard(r.id, Answer(e), e.from)), i, v, e.sendClock);
  }

  // ---------- noise ----------

  predicate Noise(s: State, e: Event) {
    e.Datagram? && !Accepts(s, e)
  }

  /** The run without the datagrams that did not count. */
  ghost function Signal(s: State, es: seq<Event>): seq<Event> {
    if es == [] then []
    else
      var front := es[..|es| - 1];
      Signal(s, front) + if Noise(Run(s, front), es[|es| - 1]) then [] else [es[|es| - 1]]
  }

  lemma RunMore(s: State, es: seq<Event>, e: Event)
    ensures Run(s, es + [e]) == Step(Run(s, es), e)
    ensures FreshRun(s, es + [e]) <==> FreshRun(s, es) && Fresh(Run(s, es), e)
  {
    assert (es + [e])[..|es|] == es;
  }

  lemma NoiseIsIgnored(s: State, e: Event)
    requires Noise(s, e)
    ensures Step(s, e) == s
  {
  }

  /** Deleting every datagram that did not count leaves the same state and the same history. */
  lemma {:induction false} NoiseErases(s: State, es: seq<Event>)
    ensures Run(s, Signal(s, es)) == Run(s, es)
    ensures FreshRun(s, es) ==> FreshRun(s, Signal(s, es))
  {
    if es != [] {
      var front, last := es[..|es| - 1], es[|es| - 1];
      NoiseErases(s, front);
      if Noise(Run(s, front), last) {
        NoiseIsIgnored(Run(s, front), last);
        assert Signal(s, es) == Signal(s, front);
      } else {
        RunMore(s, Signal(s, front), last);
      }
    }
  }
}
