/** The engine and the wire together: one server, one exchange. */
module Service {
  import opened Machine
  import opened Results
  import opened Schedule
  import opened Wire
  import opened Parse
  import opened Responder
  import opened EndToEnd
  import opened Exchange
  import R = Request
  import C = Client
  import CR = ClientRuns
  import CT = ClientTheorems
  import CO = ClientOrder
  import CC = ClientCalls
  import CF = ClientFates

  /** The request in flight under `t.id`, still waiting for its only server. */
  ghost predicate Awaits(c: C.State, t: Tenant, s: Server, r: R.Request) {
    && r in c.inflight && r.id == t.id
    && r.allowed == [s.serverId] && r.best.None?
  }

  /** The oldest server of one is that one, so its response ends the wait at once. */
  lemma OnlyServerEnds(r: R.Request, resp: Response, from: R.Addr, clock: nat)
    requires r.allowed == [resp.serverId] && r.best.None?
    ensures R.Receive(r, resp, from, clock).Done?
    ensures R.Receive(r, resp, from, clock).status == R.StatusOk
    ensures R.Receive(r, resp, from, clock).result == Some(resp)
    ensures R.Receive(r, resp, from, clock).r.id == r.id
  {
    R.OldestIsLeast(r.allowed, resp.serverId);
  }

  /**
   In any run of the client, let a framed request wait for a single server. Whatever copy of the
   packet reaches the responder, its answer, delivered by the deduplication deadline, ends the wait
   there and then: the callback reports OK with one result per request entry, and under the allow
   scenario it reports success exactly when every threshold is positive.
   */
  lemma OneExchange(
    c: C.State, policy: Policy, quota: Option<u32>, windowLimit: Option<nat>, hook: bool, es: seq<C.Event>,
    aead: Aead, s: Server, t: Tenant, n1: nonce12, n2: nonce12, ttl: word32,
    gs: seq<Guard>, rs: seq<Resource>, text: seq<byte>,
    r: R.Request, from: R.Addr, arrival: nat, clock: nat, sendClock: nat)
    requires CT.Reached(c, policy, quota, windowLimit, hook, es)
    requires Awaits(c, t, s, r) && arrival <= r.dedupDeadline
    requires Ideal(aead) && t.keyId == s.tenantKey && |Sent(text)| <= LABEL_CAP
    requires r.packet == RequestPacket(aead, s.auth, t, n1, ttl, gs, rs, text) && |r.packet| <= MAX_PACKET
    ensures var reply := Respond(aead, s, n2, r.packet);
      && reply.Ok? && reply.value.Some?
      && var c' := C.Step(c, C.Datagram(Ingest(aead, s.auth, reply.value.value), from, arrival, clock, sendClock));
      && !C.InFlight(c'.inflight, r.id)
      && exists resp: Response, rebind: bool ::
           && C.Called(r.id, R.StatusOk, Some(resp), rebind) in c'.log
           && Answers(s.scenario, gs, rs, Parsed(resp.guards, resp.resources, resp.success))
           && (s.scenario.Allow? ==> (resp.success <==> forall g :: g in gs ==> g.threshold > 0))
  {
    CT.ReachedOk(c, policy, quota, windowLimit, hook, es);
    RequestAnswered(aead, s, t, n1, n2, ttl, gs, rs, text);
    var ingress := Ingest(aead, s.auth, Respond(aead, s, n2, r.packet).value.value);
    ReplyEnds(c, s, t, gs, rs, r, ingress, from, arrival, clock, sendClock);
  }

  lemma ReplyEnds(c: C.State, s: Server, t: Tenant, gs: seq<Guard>, rs: seq<Resource>, r: R.Request,
                  ingress: C.Ingress, from: R.Addr, arrival: nat, clock: nat, sendClock: nat)
    requires CR.Distinct(c.inflight) && Awaits(c, t, s, r) && arrival <= r.dedupDeadline
    requires ToldBy(s, t, gs, rs, ingress)
    ensures var c' := C.Step(c, C.Datagram(ingress, from, arrival, clock, sendClock));
      && !C.InFlight(c'.inflight, r.id)
      && exists resp: Response, rebind: bool ::
           && C.Called(r.id, R.StatusOk, Some(resp), rebind) in c'.log
           && Answers(s.scenario, gs, rs, Parsed(resp.guards, resp.resources, resp.success))
           && (s.scenario.Allow? ==> (resp.success <==> forall g :: g in gs ==> g.threshold > 0))
  {
    var e := C.Datagram(ingress, from, arrival, clock, sendClock);
    var resp := ingress.answer.value;
    var i := C.IndexOf(c.inflight, r.id);
    CT.FoundRequest(c.inflight, r);
    OnlyServerEnds(r, resp, from, clock);
    var v := R.Receive(r, resp, from, clock);
    CT.ConcludeEffect(C.Tell(c, C.Heard(r.id, resp, from)), i, v, sendClock);
    assert C.Step(c, e) == C.Conclude(C.Tell(c, C.Heard(r.id, resp, from)), i, v, sendClock);
    assert C.Called(r.id, R.StatusOk, Some(resp), v.r.rebind) in C.Step(c, e).log;
  }

  // ---------- the window the server is told ----------

  /** Every server that holds the credential and goes by the packet's key takes it as `a`. */
  ghost predicate Tells(aead: Aead, auth: Auth, packet: seq<byte>, a: Authentic) {
    forall s: Server :: s.auth == auth && s.tenantKey == a.tenant.keyId ==> Authenticate(aead, s, packet) == Ok(a)
  }

  /** The deduplication time in a PDU's header. */
  function Window(a: Authentic): Option<nat> {
    if |a.pdu| < PDU_HEADER_LEN then None else Some(Field(a.pdu, 4, 4))
  }

  /** The packet is a request for `id` that announces the policy's deduplication window. */
  ghost predicate Announces(aead: Aead, auth: Auth, policy: Policy, id: R.Id, packet: seq<byte>) {
    exists t: Tenant, nonce: nonce12, ttl: word32, gs: seq<Guard>, rs: seq<Resource>, text: seq<byte> ::
      && packet == RequestPacket(aead, auth, t, nonce, ttl, gs, rs, text)
      && t.id == id && ttl == Ttl(policy) && |packet| <= MAX_PACKET
  }

  /** Every submission is framed with the policy's own window, as the client does it. */
  ghost predicate FramedByPolicy(aead: Aead, auth: Auth, policy: Policy, es: seq<C.Event>) {
    forall i :: 0 <= i < |es| && es[i].Submit? && es[i].framed.Ok? ==>
      Announces(aead, auth, policy, es[i].id, es[i].framed.value)
  }

  lemma StepTickets(s: C.State, e: C.Event, id: R.Id)
    requires CR.Inv(s) && C.Fresh(s, e) && id in C.Step(s, e).tickets && id !in s.tickets
    ensures e.Submit? && e.id == id && e.framed.Ok? && C.Step(s, e).tickets[id].packet == e.framed.value
  {
    match e
    case Submit(_, _, _, _, _, _) => CC.SubmitCall(s, e);
    case Datagram(_, _, _, _, _) =>
      if C.Accepts(s, e) {
        var i := C.IndexOf(s.inflight, e.ingress.id);
        CO.ConcludeConstants(C.Tell(s, C.Heard(e.ingress.id, CT.Answer(e), e.from)), i,
                             R.Receive(s.inflight[i], CT.Answer(e), e.from, e.clock), e.sendClock);
      }
    case Timeout(_, _, _, _) =>
      var i := C.IndexOf(s.inflight, e.id);
      if i < |s.inflight| {
        var x := R.Expire(s.policy, s.inflight[i], e.now, e.clock, e.up);
        CO.ConcludeConstants(if x.launch.Some? then C.Transmit(s, x.launch.value, e.clock) else s, i, x.verdict, e.clock);
      }
    case _ =>
  }

  lemma {:induction false} TicketsAnnounce(s: C.State, aead: Aead, auth: Auth, policy: Policy, es: seq<C.Event>,
                      id: R.Id)
    requires CR.Inv(s) && C.FreshRun(s, es) && s.tickets == map[] && FramedByPolicy(aead, auth, policy, es)
    requires id in C.Run(s, es).tickets
    ensures Announces(aead, auth, policy, id, C.Run(s, es).tickets[id].packet)
  {
    if es != [] {
      var front, e := es[..|es| - 1], es[|es| - 1];
      var s1 := C.Run(s, front);
      CR.RunKeeps(s, front);
      if id in s1.tickets {
        TicketsAnnounce(s, aead, auth, policy, front, id);
        CF.TicketStays(s1, e, id);
      } else {
        StepTickets(s1, e, id);
      }
    }
  }

  /**
   In every run of a client that frames its requests with its policy's window, any server with the
   credential that sees any packet the client sent finds the request's id in it, and the window that
   the client itself keeps to.
   */
  lemma WindowIsAnnounced(c: C.State, policy: Policy, quota: Option<u32>, windowLimit: Option<nat>, hook: bool,
                      es: seq<C.Event>,
                          aead: Aead, auth: Auth, o: C.Output)
    requires CT.Reached(c, policy, quota, windowLimit, hook, es)
    requires Ideal(aead) && FramedByPolicy(aead, auth, policy, es) && o in c.log && o.Sent?
    ensures exists a :: Tells(aead, auth, o.bytes, a) && a.tenant.id == o.id && Window(a) == Some(Ttl(policy))
  {
    CT.InitOk(policy, quota, windowLimit, hook);
    CT.TransmissionDiscipline(c, policy, quota, windowLimit, hook, es, o);
    TicketsAnnounce(C.Init(policy, quota, windowLimit, hook), aead, auth, policy, es, o.id);
    PacketAnnounces(aead, auth, policy, o.id, o.bytes);
  }

  lemma PacketAnnounces(aead: Aead, auth: Auth, policy: Policy, id: R.Id, packet: seq<byte>)
    requires Ideal(aead) && Announces(aead, auth, policy, id, packet)
    ensures exists a :: Tells(aead, auth, packet, a) && a.tenant.id == id && Window(a) == Some(Ttl(policy))
  {
    var t: Tenant, nonce: nonce12, ttl: word32, gs: seq<Guard>, rs: seq<Resource>, text: seq<byte> :|
      && packet == RequestPacket(aead, auth, t, nonce, ttl, gs, rs, text)
      && t.id == id && ttl == Ttl(policy) && |packet| <= MAX_PACKET;
    RequestTells(aead, auth, t, nonce, ttl, gs, rs, text);
  }

  lemma RequestTells(aead: Aead, auth: Auth, t: Tenant, nonce: nonce12, ttl: word32,
                     gs: seq<Guard>, rs: seq<Resource>, text: seq<byte>)
    requires Ideal(aead) && |RequestPacket(aead, auth, t, nonce, ttl, gs, rs, text)| <= MAX_PACKET
    ensures var a := Authentic(t, Pdu(PDU_REQUEST, ttl, RequestBody(gs, rs, text)));
      Tells(aead, auth, RequestPacket(aead, auth, t, nonce, ttl, gs, rs, text), a) && Window(a) == Some(ttl)
  {
    RequestSizes(aead, auth, t, nonce, ttl, gs, rs, text);
    PacketOpens(aead, auth, t, nonce, Pdu(PDU_REQUEST, ttl, RequestBody(gs, rs, text)));
    PduRead(PDU_REQUEST, ttl, RequestBody(gs, rs, text));
  }
}
