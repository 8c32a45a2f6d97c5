/**
 The client as a machine driven by its host. Between two API calls the host is
 either at top level or inside completion callbacks; `frames` is that stack, so
 a callback may itself submit, cancel, feed datagrams or fire timers. Every
 clock reading and every network outcome is part of the event, and `log` is the
 history of what the client did to the outside world.
 */
module Client {
  import opened Machine
  import opened Results
  import opened Schedule
  import opened Request

  datatype Frame = Completion | Immediate

  datatype Purpose = RoundSend | CompletionSend

  datatype Output =
    | Sent(id: Id, purpose: Purpose, clock: nat, to: seq<Addr>, bytes: seq<byte>)
    | Heard(id: Id, resp: Response, from: Addr)
    | Called(id: Id, status: Status, result: Option<Response>, rebind: bool)
    | CalledEmpty
    | Cancelled(id: Id)
    | Rebind(inflight: nat)

  /** What a submission fixes for the life of its request. */
  datatype Ticket = Ticket(packet: seq<byte>, dedupDeadline: nat, targets: seq<Endpoint>, accepted: bool)

  datatype State = State(
    policy: Policy,
    quota: Option<u32>,
    windowLimit: Option<nat>,
    hook: bool,
    servers: seq<Endpoint>,
    inflight: seq<Request>,
    pending: bool,
    failures: nat,
    frames: seq<Frame>,
    log: seq<Output>,
    tickets: map<Id, Ticket>)

  /** A datagram as the wire layer reads it. */
  datatype Ingress =
    | Garbled(code: Code)
    | Framed(id: Id, serverId: nat, answer: Result<Response>)

  datatype Event =
    | Servers(list: seq<Endpoint>)
    | SubmitEmpty
    | Submit(id: Id, windows: seq<nat>, framed: Result<seq<byte>>, start: nat, clock: nat, up: set<nat>)
    | Datagram(ingress: Ingress, from: Addr, arrival: nat, clock: nat, sendClock: nat)
    | Timeout(id: Id, now: nat, clock: nat, up: set<nat>)
    | Cancel(id: Id)
    | Return

  function Init(policy: Policy, quota: Option<u32>, windowLimit: Option<nat>, hook: bool): State {
    State(policy, quota, windowLimit, hook, [], [], false, 0, [], [], map[])
  }

  // ---------- the in-flight list ----------

  function IndexOf(list: seq<Request>, id: Id): (i: nat)
    ensures i <= |list|
    ensures i < |list| ==> list[i].id == id
    ensures forall j :: 0 <= j < i ==> list[j].id != id
  {
    if list == [] || list[0].id == id then 0 else 1 + IndexOf(list[1..], id)
  }

  predicate InFlight(list: seq<Request>, id: Id) {
    exists i :: 0 <= i < |list| && list[i].id == id
  }

  function RemoveAt(list: seq<Request>, i: nat): seq<Request>
    requires i < |list|
  {
    list[..i] + list[i + 1..]
  }

  // ---------- steps ----------

  function AddFailures(failures: nat, lost: nat): nat {
    if lost == 0 then failures else if failures > U64_MAX - lost then U64_MAX else failures + lost
  }

  function Tell(s: State, o: Output): State {
    s.(log := s.log + [o])
  }

  function Notify(s: State): State {
    if s.pending && s.inflight == [] && s.hook
    then Tell(s.(pending := false), Rebind(|s.inflight|))
    else s
  }

  predicate Delivers(s: State, r: Request, v: Verdict, clock: nat) {
    v.Done? && v.status == StatusOk && v.result.Some? && s.policy.completionDelivery && clock < r.dedupDeadline
  }

  /** Unlinks request i and enters its callback. */
  function Call(s: State, i: nat, v: Verdict): State
    requires i < |s.inflight| && v.Done?
  {
    Tell(s, Called(v.r.id, v.status, v.result, v.r.rebind))
      .(inflight := RemoveAt(s.inflight, i),
        pending := s.pending || v.r.rebind,
        frames := s.frames + [Completion])
  }

  function Delivery(r: Request, clock: nat): Output {
    Sent(r.id, CompletionSend, clock, SendList(r, true, |r.targets|), r.packet)
  }

  /** Completion: best-effort delivery to the missing, then the callback. */
  function Complete(s: State, i: nat, v: Verdict, clock: nat): State
    requires i < |s.inflight| && v.Done?
  {
    Call(if Delivers(s, v.r, v, clock) then Tell(s, Delivery(v.r, clock)) else s, i, v)
  }

  function Conclude(s: State, i: nat, v: Verdict, clock: nat): State
    requires i < |s.inflight|
  {
    if v.Live? then s.(inflight := s.inflight[i := v.r]) else Complete(s, i, v, clock)
  }

  /** A datagram counts only if all of this holds; anything else is noise. */
  predicate Accepts(s: State, e: Event)
    requires e.Datagram?
  {
    && e.ingress.Framed?
    && var i := IndexOf(s.inflight, e.ingress.id);
    && i < |s.inflight|
    && e.arrival <= s.inflight[i].dedupDeadline
    && Allowed(s.inflight[i].allowed, e.ingress.serverId)
    && e.ingress.answer.Ok?
  }

  function OnDatagram(s: State, e: Event): State
    requires e.Datagram?
  {
    if !Accepts(s, e) then s
    else
      var i := IndexOf(s.inflight, e.ingress.id);
      var resp := e.ingress.answer.value.(serverId := e.ingress.serverId);
      Conclude(Tell(s, Heard(e.ingress.id, resp, e.from)), i, Receive(s.inflight[i], resp, e.from, e.clock), e.sendClock)
  }

  /** Logs a round's send and counts endpoints a partly delivered one missed. */
  function Transmit(s: State, l: Launch, clock: nat): State {
    if l.Refused? then s
    else
      var lost := if 0 < l.delivered < |l.to| then |l.to| - l.delivered else 0;
      Tell(s, Sent(l.r.id, RoundSend, clock, l.to, l.r.packet)).(failures := AddFailures(s.failures, lost))
  }

  ghost function OnTimeout(s: State, e: Event): State
    requires e.Timeout?
  {
    var i := IndexOf(s.inflight, e.id);
    if i == |s.inflight| then s
    else
      var x := Expire(s.policy, s.inflight[i], e.now, e.clock, e.up);
      Conclude(if x.launch.Some? then Transmit(s, x.launch.value, e.clock) else s, i, x.verdict, e.clock)
  }

  function OnCancel(s: State, id: Id): State {
    var i := IndexOf(s.inflight, id);
    if i == |s.inflight| then s
    else Notify(Tell(s.(inflight := RemoveAt(s.inflight, i)), Cancelled(id)))
  }

  function OnReturn(s: State): State {
    if s.frames == [] then s
    else
      var s' := s.(frames := s.frames[..|s.frames| - 1]);
      if s.frames[|s.frames| - 1] == Completion then Notify(s') else s'
  }

  predicate WindowsFit(windows: seq<nat>, limit: Option<nat>) {
    limit.Some? ==> forall i :: 0 <= i < |windows| ==> windows[i] <= limit.value
  }

  ghost predicate Submittable(s: State, e: Event)
    requires e.Submit?
  {
    && WindowsFit(e.windows, s.windowLimit)
    && s.servers != []
    && LegalPolicy(s.policy, s.quota)
    && e.start <= U64_MAX - Ttl(s.policy)
    && e.framed.Ok?
  }

  ghost function NewRequest(s: State, e: Event): Request
    requires e.Submit? && e.framed.Ok?
  {
    Request(
      e.id, e.framed.value, s.servers, AllowedIds(s.servers),
      e.start, e.start + Ttl(s.policy), Round, 0, 0, 0, 0, 0, [], [], false, None)
  }

  function TicketFor(r: Request, accepted: bool): Ticket {
    Ticket(r.packet, r.dedupDeadline, r.targets, accepted)
  }

  ghost function FirstLaunch(s: State, e: Event): Launch
    requires e.Submit? && Submittable(s, e)
  {
    StartRound(s.policy, NewRequest(s, e), 0, e.clock, e.up)
  }

  ghost predicate Admitted(s: State, e: Event)
    requires e.Submit?
  {
    Submittable(s, e) && FirstLaunch(s, e).Launched? && !SendFailed(FirstLaunch(s, e))
  }

  ghost function OnSubmit(s: State, e: Event): State
    requires e.Submit?
  {
    if !Submittable(s, e) then s
    else
      var launch := FirstLaunch(s, e);
      var s1 := s.(tickets := s.tickets[e.id := TicketFor(NewRequest(s, e), Admitted(s, e))]);
      var s2 := Transmit(s1, launch, e.clock);
      if Admitted(s, e) then s2.(inflight := [launch.r] + s.inflight) else s2
  }

  ghost function Step(s: State, e: Event): State {
    match e
    case Servers(list) => s.(servers := list)
    case SubmitEmpty => Tell(s, CalledEmpty).(frames := s.frames + [Immediate])
    case Submit(_, _, _, _, _, _) => OnSubmit(s, e)
    case Datagram(_, _, _, _, _) => OnDatagram(s, e)
    case Timeout(_, _, _, _) => OnTimeout(s, e)
    case Cancel(id) => OnCancel(s, id)
    case Return => OnReturn(s)
  }

  /** Request ids are fresh; nothing else is asked of the host. */
  predicate Fresh(s: State, e: Event) {
    e.Submit? ==> e.id !in s.tickets
  }

  ghost function Run(s: State, es: seq<Event>): State {
    if es == [] then s else Step(Run(s, es[..|es| - 1]), es[|es| - 1])
  }

  ghost predicate FreshRun(s: State, es: seq<Event>) {
    es == [] || (FreshRun(s, es[..|es| - 1]) && Fresh(Run(s, es[..|es| - 1]), es[|es| - 1]))
  }
}
