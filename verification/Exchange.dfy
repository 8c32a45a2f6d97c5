/** One request and its answer, from the client's submission back to the client's receive path. */
module Exchange {
  import opened Machine
  import opened Results
  import opened Wire
  import opened Parse
  import opened Responder
  import opened EndToEnd
  import Client
  import Request

  /** How the client's receive path reads a datagram. */
  function Ingest(aead: Aead, auth: Auth, buf: seq<byte>): Client.Ingress {
    match ParseTenant(buf)
    case Err(code) => Client.Garbled(code)
    case Ok(o) =>
      var answer :=
        match ExtractPdu(aead, auth, buf, o.pos)
        case Err(code) => Err(code)
        case Ok(pdu) =>
          match ParseResponse(pdu)
          case Err(code) => Err(code)
          case Ok(p) => Ok(Response(o.tenant.keyId, o.tenant.feedback != 0, p.success, p.guards, p.resources));
      Client.Framed(o.tenant.id, o.tenant.keyId, answer)
  }

  // ---------- the responder understands every framed request ----------

  /** The blocks of a request say exactly what its entries say. */
  lemma BlocksSay(gs: seq<Guard>, rs: seq<Resource>)
    ensures forall i :: 0 <= i < |gs| ==> GuardOf(GuardBlocks(gs)[i]) == gs[i]
    ensures forall i :: 0 <= i < |rs| ==> ResourceOf(ResourceBlocks(rs)[i]) == rs[i]
  {
    forall i | 0 <= i < |gs| ensures GuardOf(GuardBlocks(gs)[i]) == gs[i] {
      GuardRead(gs[i], 0);
    }
    forall i | 0 <= i < |rs| ensures ResourceOf(ResourceBlocks(rs)[i]) == rs[i] {
      ResourceRead(rs[i], rs[i].tokens);
    }
  }

  lemma RequestSizes(aead: Aead, auth: Auth, t: Tenant, nonce: nonce12, ttl: word32,
                     gs: seq<Guard>, rs: seq<Resource>, text: seq<byte>)
    requires Ideal(aead) && |RequestPacket(aead, auth, t, nonce, ttl, gs, rs, text)| <= MAX_PACKET
    ensures |RequestPacket(aead, auth, t, nonce, ttl, gs, rs, text)|
         == TENANT_LEN + (if auth.Cookie? then 36 else 32) + PDU_HEADER_LEN + |RequestBody(gs, rs, text)|
    ensures |RequestBody(gs, rs, text)| >= 4 + GUARD_LEN * |gs| + RESOURCE_LEN * |rs|
  {
    BodyLength(gs, rs, text);
    PacketLength(aead, auth, t, nonce, Pdu(PDU_REQUEST, ttl, RequestBody(gs, rs, text)));
  }

  /** The responder authenticates every framed request, down to its PDU. */
  lemma RequestOpens(aead: Aead, s: Server, t: Tenant, nonce: nonce12, ttl: word32,
                     gs: seq<Guard>, rs: seq<Resource>, text: seq<byte>)
    requires Ideal(aead) && t.keyId == s.tenantKey
    requires |RequestPacket(aead, s.auth, t, nonce, ttl, gs, rs, text)| <= MAX_PACKET
    ensures Authenticate(aead, s, RequestPacket(aead, s.auth, t, nonce, ttl, gs, rs, text))
         == Ok(Authentic(t, Pdu(PDU_REQUEST, ttl, RequestBody(gs, rs, text))))
  {
    RequestSizes(aead, s.auth, t, nonce, ttl, gs, rs, text);
    PacketOpens(aead, s.auth, t, nonce, Pdu(PDU_REQUEST, ttl, RequestBody(gs, rs, text)));
  }

  /** A framed request is recovered exactly, entry by entry, with its label. */
  lemma RequestRecovered(aead: Aead, s: Server, t: Tenant, nonce: nonce12, ttl: word32,
                         gs: seq<Guard>, rs: seq<Resource>, text: seq<byte>)
    requires Ideal(aead) && t.keyId == s.tenantKey && |Sent(text)| <= LABEL_CAP
    requires |RequestPacket(aead, s.auth, t, nonce, ttl, gs, rs, text)| <= MAX_PACKET
    ensures var a := Authenticate(aead, s, RequestPacket(aead, s.auth, t, nonce, ttl, gs, rs, text));
      && a.Ok? && a.value.tenant == t
      && |a.value.pdu| >= PDU_HEADER_LEN && Field(a.value.pdu, 4, 4) == ttl
      && ParseInquiry(a.value.pdu) == Ok(Inquiry(GuardBlocks(gs), ResourceBlocks(rs), Sent(text)))
    ensures forall i :: 0 <= i < |gs| ==> GuardOf(GuardBlocks(gs)[i]) == gs[i]
    ensures forall i :: 0 <= i < |rs| ==> ResourceOf(ResourceBlocks(rs)[i]) == rs[i]
  {
    RequestSizes(aead, s.auth, t, nonce, ttl, gs, rs, text);
    RequestOpens(aead, s, t, nonce, ttl, gs, rs, text);
    RequestPduRead(ttl, gs, rs, text);
    BlocksSay(gs, rs);
  }

  /** A label over the responder's limit is refused: the limit is exact. */
  lemma LongLabelRefused(aead: Aead, s: Server, t: Tenant, n1: nonce12, n2: nonce12, ttl: word32,
                         gs: seq<Guard>, rs: seq<Resource>, text: seq<byte>)
    requires Ideal(aead) && t.keyId == s.tenantKey && |Sent(text)| > LABEL_CAP
    requires |RequestPacket(aead, s.auth, t, n1, ttl, gs, rs, text)| <= MAX_PACKET
    ensures Respond(aead, s, n2, RequestPacket(aead, s.auth, t, n1, ttl, gs, rs, text)) == Err(ErrProtocol)
  {
    RequestSizes(aead, s.auth, t, n1, ttl, gs, rs, text);
    RequestOpens(aead, s, t, n1, ttl, gs, rs, text);
    LongLabelPdu(ttl, gs, rs, text);
  }

  lemma CountsOf(gs: seq<Guard>, rs: seq<Resource>, text: seq<byte>)
    requires |RequestBody(gs, rs, text)| <= MAX_PACKET
    ensures |RequestBody(gs, rs, text)| >= 4
    ensures Word16(RequestBody(gs, rs, text), 0) == |gs| && Word16(RequestBody(gs, rs, text), 2) == |rs|
  {
    BodyLength(gs, rs, text);
    BlocksRead(GuardBlocks(gs), ResourceBlocks(rs), if Labelled(text) then LabelTlv(text) else []);
  }

  lemma LongLabelCut(gs: seq<Guard>, rs: seq<Resource>, text: seq<byte>)
    requires |Sent(text)| > LABEL_CAP && |RequestBody(gs, rs, text)| <= MAX_PACKET
    ensures |gs| <= U16_MAX && |rs| <= U16_MAX && |RequestBody(gs, rs, text)| >= 4
    ensures CutRequest(RequestBody(gs, rs, text), |gs|, |rs|) == Err(ErrProtocol)
  {
    BodyLength(gs, rs, text);
    var front := Counts(|gs|, |rs|) + Flat(GuardBlocks(gs)) + Flat(ResourceBlocks(rs));
    LongLabelRefuses(front, text, |gs|, |rs|);
  }

  lemma LongLabelRefuses(front: seq<byte>, text: seq<byte>, g: word16, r: word16)
    requires |front| == 4 + GUARD_LEN * g + RESOURCE_LEN * r && LABEL_CAP < |text| <= MAX_PACKET
    ensures CutRequest(front + LabelTlv(text), g, r) == Err(ErrProtocol)
  {
    LongLabel(front, text);
    BadLabelCut(front + LabelTlv(text), g, r);
  }

  lemma LongLabelBody(gs: seq<Guard>, rs: seq<Resource>, text: seq<byte>)
    requires |Sent(text)| > LABEL_CAP && |RequestBody(gs, rs, text)| <= MAX_PACKET
    ensures |RequestBody(gs, rs, text)| >= 4 && ParseRequestBody(RequestBody(gs, rs, text)) == Err(ErrProtocol)
  {
    CountsOf(gs, rs, text);
    LongLabelCut(gs, rs, text);
  }

  lemma LongLabelPdu(ttl: word32, gs: seq<Guard>, rs: seq<Resource>, text: seq<byte>)
    requires |Sent(text)| > LABEL_CAP && |RequestBody(gs, rs, text)| + PDU_HEADER_LEN <= MAX_PACKET
    ensures ParseInquiry(Pdu(PDU_REQUEST, ttl, RequestBody(gs, rs, text))) == Err(ErrProtocol)
  {
    LongLabelBody(gs, rs, text);
    PduRead(PDU_REQUEST, ttl, RequestBody(gs, rs, text));
  }

  lemma LongLabel(front: seq<byte>, text: seq<byte>)
    requires LABEL_CAP < |text| <= MAX_PACKET
    ensures ParseLabel(front + LabelTlv(text), |front|) == Err(ErrProtocol)
  {
    LabelFields(front, text);
  }

  lemma BadLabelCut(body: seq<byte>, g: word16, r: word16)
    requires 4 + GUARD_LEN * g + RESOURCE_LEN * r <= |body|
    requires ParseLabel(body, 4 + GUARD_LEN * g + RESOURCE_LEN * r) == Err(ErrProtocol)
    ensures CutRequest(body, g, r) == Err(ErrProtocol)
  {
  }

  // ---------- and the client understands the answer ----------

  /** The client took a datagram as this server's answer to these entries. */
  ghost predicate ToldBy(s: Server, t: Tenant, gs: seq<Guard>, rs: seq<Resource>, i: Client.Ingress) {
    && i.Framed? && i.id == t.id && i.serverId == s.serverId && i.answer.Ok?
    && var r := i.answer.value;
    && r.serverId == s.serverId && r.keepPort == s.keepPort
    && Answers(s.scenario, gs, rs, Parsed(r.guards, r.resources, r.success))
    && (s.scenario.Allow? ==> (r.success <==> forall g :: g in gs ==> g.threshold > 0))
  }

  lemma ReplyOpens(aead: Aead, s: Server, t: Tenant, nonce: nonce12, body: seq<byte>, gs: seq<Guard>, rs: seq<Resource>)
    requires Ideal(aead) && 4 <= |body| <= MAX_PACKET - PDU_HEADER_LEN
    requires var p := ParseResponse(Pdu(PDU_RESPONSE, 0, body)); p.Ok? && Answers(s.scenario, gs, rs, p.value)
    ensures var packet := Packet(aead, s.auth, ReplyTenant(s, t), nonce, Pdu(PDU_RESPONSE, 0, body));
      && |packet| == TENANT_LEN + (if s.auth.Cookie? then 36 else 32) + PDU_HEADER_LEN + |body|
      && ToldBy(s, t, gs, rs, Ingest(aead, s.auth, packet))
  {
    var tenant, pdu := ReplyTenant(s, t), Pdu(PDU_RESPONSE, 0, body);
    PacketLength(aead, s.auth, tenant, nonce, pdu);
    PacketHeads(aead, s.auth, tenant, nonce, pdu);
    PacketOpens(aead, s.auth, tenant, nonce, pdu);
    SuccessMeans(s.scenario, gs, rs, ParseResponse(pdu).value);
  }

  lemma RespondIs(aead: Aead, s: Server, nonce: nonce12, input: seq<byte>, a: Authentic, q: Inquiry)
    requires Authenticate(aead, s, input) == Ok(a) && ParseInquiry(a.pdu) == Ok(q) && q.Inquiry?
    requires PDU_HEADER_LEN + |AnswerBody(s.scenario, q)| <= MAX_PACKET
    ensures var packet := Packet(aead, s.auth, ReplyTenant(s, a.tenant), nonce, Pdu(PDU_RESPONSE, 0, AnswerBody(s.scenario, q)));
      |packet| <= MAX_PACKET ==> Respond(aead, s, nonce, input) == Ok(Some(packet))
  {
    ReplyIsPacket(aead, s, a.tenant, nonce, Pdu(PDU_RESPONSE, 0, AnswerBody(s.scenario, q)));
  }

  /**
   A framed request whose label the responder takes comes back to the client as an authentic
   response to that request: no longer than the request, from this server, with one entry per
   request entry in order, and a success exactly as the scenario and the thresholds decide.
   */
  lemma RequestAnswered(aead: Aead, s: Server, t: Tenant, n1: nonce12, n2: nonce12, ttl: word32,
                 gs: seq<Guard>, rs: seq<Resource>, text: seq<byte>)
    requires Ideal(aead) && t.keyId == s.tenantKey && |Sent(text)| <= LABEL_CAP
    requires |RequestPacket(aead, s.auth, t, n1, ttl, gs, rs, text)| <= MAX_PACKET
    ensures var request := RequestPacket(aead, s.auth, t, n1, ttl, gs, rs, text);
            var reply := Respond(aead, s, n2, request);
      && reply.Ok? && reply.value.Some?
      && |reply.value.value| <= |request|
      && ToldBy(s, t, gs, rs, Ingest(aead, s.auth, reply.value.value))
      && ParseTenant(reply.value.value)
        == Ok(Opened(Tenant(s.serverId, t.id, t.timeStamp, if s.keepPort then 1 else 0), TENANT_LEN))
  {
    var request := RequestPacket(aead, s.auth, t, n1, ttl, gs, rs, text);
    var q := Inquiry(GuardBlocks(gs), ResourceBlocks(rs), Sent(text));
    RequestSizes(aead, s.auth, t, n1, ttl, gs, rs, text);
    RequestRecovered(aead, s, t, n1, ttl, gs, rs, text);
    AnswerLength(s.scenario, q);
    ReplyToldBy(aead, s, t, n2, gs, rs, Sent(text));
    RespondIs(aead, s, n2, request, Authenticate(aead, s, request).value, q);
    PacketHeads(aead, s.auth, ReplyTenant(s, t), n2, Pdu(PDU_RESPONSE, 0, AnswerBody(s.scenario, q)));
  }

  lemma ReplyToldBy(aead: Aead, s: Server, t: Tenant, nonce: nonce12, gs: seq<Guard>, rs: seq<Resource>,
                    text: seq<byte>)
    requires Ideal(aead) && PDU_HEADER_LEN + 4 + GUARD_LEN * |gs| + RESOURCE_LEN * |rs| <= MAX_PACKET
    ensures var body := AnswerBody(s.scenario, Inquiry(GuardBlocks(gs), ResourceBlocks(rs), text));
            var packet := Packet(aead, s.auth, ReplyTenant(s, t), nonce, Pdu(PDU_RESPONSE, 0, body));
      && |packet| == TENANT_LEN + (if s.auth.Cookie? then 36 else 32) + PDU_HEADER_LEN + |body|
      && ToldBy(s, t, gs, rs, Ingest(aead, s.auth, packet))
  {
    var q := Inquiry(GuardBlocks(gs), ResourceBlocks(rs), text);
    AnswerLength(s.scenario, q);
    AnswerRead(s.scenario, gs, rs, text);
    ReplyOpens(aead, s, t, nonce, AnswerBody(s.scenario, q), gs, rs);
  }

  /** The reply is one the client acts on, while the request is in flight and its server allowed. */
  lemma ReplyCounts(aead: Aead, s: Server, t: Tenant, gs: seq<Guard>, rs: seq<Resource>, reply: seq<byte>,
                    c: Client.State, i: nat, from: Request.Addr, arrival: nat, clock: nat, sendClock: nat)
    requires ToldBy(s, t, gs, rs, Ingest(aead, s.auth, reply))
    requires i < |c.inflight| && c.inflight[i].id == t.id && forall k :: 0 <= k < i ==> c.inflight[k].id != t.id
    requires arrival <= c.inflight[i].dedupDeadline && Request.Allowed(c.inflight[i].allowed, s.serverId)
    ensures Client.Accepts(c, Client.Datagram(Ingest(aead, s.auth, reply), from, arrival, clock, sendClock))
  {
    assert Client.IndexOf(c.inflight, t.id) == i;
  }

  // ---------- noise ----------

  /** A tenant header of at least its size, then this credential's proof: what the packet carries. */
  ghost predicate Carries(aead: Aead, auth: Auth, buf: seq<byte>, pdu: seq<byte>) {
    && TENANT_LEN <= |buf|
    && Field(buf, 0, 2) == TLV_TENANT
    && var pos := Field(buf, 2, 2);
    && TENANT_LEN <= pos
    && pos + (if auth.Cookie? then 36 else 32) <= |buf|
    && Field(buf, pos, 2) == (if auth.Cookie? then TLV_COOKIE else TLV_AES)
    && Field(buf, pos + 2, 2) == (if auth.Cookie? then 36 else 32)
    && (if auth.Cookie? then buf[pos + 4..pos + 36] == auth.secret && pdu == buf[pos + 36..]
        else
          && pos + 32 < |buf| <= pos + 32 + MAX_PACKET
          && aead.open(auth.secret, buf[pos + 4..pos + 16], buf[pos + 16..pos + 32], buf[..pos + 16], buf[pos + 32..]) == Some(pdu))
  }

  /** An authentic, well-formed response. */
  ghost predicate Genuine(aead: Aead, auth: Auth, buf: seq<byte>) {
    exists pdu :: Carries(aead, auth, buf, pdu) && WellFormed(pdu)
  }

  /** What a packet carries is what either side extracts. */
  lemma CarriedIsExtracted(aead: Aead, auth: Auth, buf: seq<byte>, pdu: seq<byte>)
    ensures Carries(aead, auth, buf, pdu)
      <==> ParseTenant(buf).Ok? && ExtractPdu(aead, auth, buf, ParseTenant(buf).value.pos) == Ok(pdu)
  {
  }

  /** The responder takes a packet exactly if it carries this credential's proof and names its key. */
  lemma AuthenticIsCarried(aead: Aead, s: Server, buf: seq<byte>, pdu: seq<byte>)
    ensures (exists t :: Authenticate(aead, s, buf) == Ok(Authentic(t, pdu)))
       <==> Carries(aead, s.auth, buf, pdu) && Field(buf, 4, 8) == s.tenantKey
    ensures Authenticate(aead, s, buf).Ok? ==>
              Authenticate(aead, s, buf).value.tenant == Tenant(Word64(buf, 4), buf[12..28], Word64(buf, 28), buf[36])
  {
    if Carries(aead, s.auth, buf, pdu) && Field(buf, 4, 8) == s.tenantKey {
      assert Authenticate(aead, s, buf) == Ok(Authentic(ParseTenant(buf).value.tenant, pdu));
    }
  }

  /** A latency report is taken, and answered with nothing. */
  lemma ReportObserved(aead: Aead, s: Server, t: Tenant, n1: nonce12, n2: nonce12, rs: seq<Report>)
    requires Ideal(aead) && t.keyId == s.tenantKey && |ReportBody(rs)| + PDU_HEADER_LEN <= MAX_PACKET
    ensures Respond(aead, s, n2, Packet(aead, s.auth, t, n1, Pdu(PDU_REPORT, 0, ReportBody(rs)))) == Ok(None)
  {
    ReportPduRead(rs);
    PacketOpens(aead, s.auth, t, n1, Pdu(PDU_REPORT, 0, ReportBody(rs)));
  }

  /** What may follow the blocks of a request: nothing, or one label that fits. */
  ghost predicate LabelFollows(pdu: seq<byte>, at: nat)
    requires at <= |pdu|
  {
    || at == |pdu|
    || (&& at + 6 <= |pdu| && Field(pdu, at, 2) == TLV_LABEL && at + Field(pdu, at + 2, 2) == |pdu|
        && at + 6 + Field(pdu, at + 4, 2) <= |pdu| && Field(pdu, at + 4, 2) <= LABEL_CAP)
  }

  /** A request or report whose declared sizes are exactly its own. */
  ghost predicate Inquires(pdu: seq<byte>) {
    && 12 <= |pdu| && Field(pdu, 2, 2) == |pdu|
    && if Field(pdu, 0, 2) == PDU_REQUEST then
         var end := 12 + GUARD_LEN * Field(pdu, 8, 2) + RESOURCE_LEN * Field(pdu, 10, 2);
         end <= |pdu| && LabelFollows(pdu, end)
       else Field(pdu, 0, 2) == PDU_REPORT && |pdu| == 12 + REPORT_LEN * Field(pdu, 8, 2)
  }

  lemma LabelInside(pdu: seq<byte>, body: seq<byte>, at: nat)
    requires |pdu| == 8 + |body| && pdu[8..] == body && at <= |body|
    ensures ParseLabel(body, at).Ok? <==> LabelFollows(pdu, 8 + at)
  {
    if at + 6 <= |body| {
      assert body[at..at + 2] == pdu[8 + at..8 + at + 2];
      assert body[at + 2..at + 4] == pdu[8 + at + 2..8 + at + 4];
      assert body[at + 4..at + 6] == pdu[8 + at + 4..8 + at + 6];
    }
  }

  /** The responder's parser takes exactly those. */
  lemma InquiriesAreTaken(pdu: seq<byte>)
    ensures ParseInquiry(pdu).Ok? <==> Inquires(pdu)
  {
    if 12 <= |pdu| {
      var body := pdu[8..];
      CountsInside(pdu, body);
      var end := 4 + GUARD_LEN * Field(pdu, 8, 2) + RESOURCE_LEN * Field(pdu, 10, 2);
      if end <= |body| {
        LabelInside(pdu, body, end);
      }
    }
  }

  /**
   Why the client refuses a datagram: it reports an authentication failure exactly if the proof is of
   the other kind or a cookie differs, and a protocol error for anything else it cannot read.
   */
  lemma RefusalsTellWhy(aead: Aead, auth: Auth, buf: seq<byte>)
    ensures Ingest(aead, auth, buf).Garbled? ==> Ingest(aead, auth, buf).code == ErrProtocol
    ensures Ingest(aead, auth, buf).Framed? && Ingest(aead, auth, buf).answer.Err? ==>
      var pos, code := ParseTenant(buf).value.pos, Ingest(aead, auth, buf).answer.code;
      && (code == ErrAuth || code == ErrProtocol)
      && (code == ErrAuth <==>
            && pos + 4 <= |buf| && 4 <= Field(buf, pos + 2, 2) <= |buf| - pos
            && (|| Field(buf, pos, 2) != (if auth.Cookie? then TLV_COOKIE else TLV_AES)
                || (auth.Cookie? && Field(buf, pos + 2, 2) == 36 && buf[pos + 4..pos + 36] != auth.secret)))
  {
  }

  lemma GenuineIsRead(aead: Aead, auth: Auth, buf: seq<byte>)
    ensures Genuine(aead, auth, buf) <==> Ingest(aead, auth, buf).Framed? && Ingest(aead, auth, buf).answer.Ok?
  {
    forall pdu ensures Carries(aead, auth, buf, pdu) <==>
        ParseTenant(buf).Ok? && ExtractPdu(aead, auth, buf, ParseTenant(buf).value.pos) == Ok(pdu)
    {
      CarriedIsExtracted(aead, auth, buf, pdu);
    }
    if Ingest(aead, auth, buf).Framed? && Ingest(aead, auth, buf).answer.Ok? {
      var pdu := ExtractPdu(aead, auth, buf, ParseTenant(buf).value.pos).value;
      assert Carries(aead, auth, buf, pdu) && WellFormed(pdu);
    }
  }

  /**
   A datagram changes the client exactly if it is genuine and answers, in time, a request in
   flight that allows its sender; every other datagram leaves state and callbacks alone.
   */
  lemma OnlyGenuineCounts(aead: Aead, auth: Auth, s: Client.State, buf: seq<byte>, from: Request.Addr,
                          arrival: nat, clock: nat, sendClock: nat)
    ensures var e := Client.Datagram(Ingest(aead, auth, buf), from, arrival, clock, sendClock);
      && (Client.Accepts(s, e) <==>
            && Genuine(aead, auth, buf)
            && exists i :: 0 <= i < |s.inflight| && s.inflight[i].id == buf[12..28]
                 && (forall k :: 0 <= k < i ==> s.inflight[k].id != buf[12..28])
                 && arrival <= s.inflight[i].dedupDeadline
                 && Request.Allowed(s.inflight[i].allowed, Field(buf, 4, 8)))
      && (!Client.Accepts(s, e) ==> Client.Step(s, e) == s)
  {
    GenuineIsRead(aead, auth, buf);
  }
}
