/** The test responder: the server's side of the wire, written independently of the client's. */
module Responder {
  import opened Machine
  import opened Bytes
  import opened Wire
  import opened Parse

  const LABEL_CAP: nat := 256

  /** What the responder decides: let everything through, or deny by tokens or by latency. */
  datatype Scenario = Allow | Deny | GuardDeny

  datatype Server = Server(auth: Auth, tenantKey: word64, serverId: word64, keepPort: bool, scenario: Scenario)

  datatype Authentic = Authentic(tenant: Tenant, pdu: seq<byte>)

  /** Blocks as they arrived, and the label. */
  datatype Inquiry =
    | Inquiry(guards: seq<seq<byte>>, resources: seq<seq<byte>>, text: seq<byte>)
    | Reports(reports: seq<seq<byte>>)

  function Authenticate(aead: Aead, s: Server, input: seq<byte>): (r: Result<Authentic>) {
    match ParseTenant(input)
    case Err(_) => Err(ErrAuth)
    case Ok(o) =>
      if o.tenant.keyId != s.tenantKey then Err(ErrAuth)
      else
        match ParseAuthHead(input, o.pos)
        case Err(code) => Err(code)
        case Ok(tlv) =>
          if s.auth.Cookie? then
            if tlv.kind != TLV_COOKIE || tlv.size != 36 || input[o.pos + 4..o.pos + 36] != s.auth.secret
            then Err(ErrAuth)
            else Ok(Authentic(o.tenant, input[o.pos + 36..]))
          else if tlv.kind != TLV_AES || tlv.size != 32 || |input| <= o.pos + 32 then Err(ErrAuth)
          else
            match Decrypt(aead, s.auth.secret, input, o.pos)
            case None => Err(ErrAuth)
            case Some(pdu) => Ok(Authentic(o.tenant, pdu))
  }

  function ParseLabel(body: seq<byte>, pos: nat): (r: Result<seq<byte>>)
    requires pos <= |body|
  {
    if pos == |body| then Ok([])
    else if |body| - pos < 6 || Word16(body, pos) != TLV_LABEL then Err(ErrProtocol)
    else
      var size, n := Word16(body, pos + 2), Word16(body, pos + 4);
      if size < 6 || pos + size != |body| || n > size - 6 || n > LABEL_CAP then Err(ErrProtocol)
      else Ok(body[pos + 6..pos + 6 + n])
  }

  /** `count` consecutive pieces of `n` bytes from `at` on. */
  function Pieces(b: seq<byte>, at: nat, n: nat, count: nat): (p: seq<seq<byte>>)
    requires at + n * count <= |b|
    ensures |p| == count
    ensures Sized(p, n)
    decreases count
  {
    if count == 0 then []
    else
      PieceFits(n, count - 1, count);
      Pieces(b, at, n, count - 1) + [b[at + n * (count - 1)..at + n * (count - 1) + n]]
  }

  /** The blocks and label of a body that declares `g` guards and `r` resources. */
  function CutRequest(body: seq<byte>, g: word16, r: word16): (q: Result<Inquiry>)
    requires 4 <= |body|
    ensures q.Ok? ==> q.value.Inquiry? && Blocks(q.value)
  {
    var guardBytes, resourceBytes := GUARD_LEN * g, RESOURCE_LEN * r;
    if guardBytes > |body| - 4 || resourceBytes > |body| - 4 - guardBytes then Err(ErrProtocol)
    else
      match ParseLabel(body, 4 + guardBytes + resourceBytes)
      case Err(code) => Err(code)
      case Ok(text) =>
        Ok(Inquiry(Pieces(body, 4, GUARD_LEN, g), Pieces(body, 4 + guardBytes, RESOURCE_LEN, r), text))
  }

  function ParseRequestBody(body: seq<byte>): (r: Result<Inquiry>)
    requires 4 <= |body|
    ensures r.Ok? ==> r.value.Inquiry? && Blocks(r.value)
  {
    CutRequest(body, Word16(body, 0), Word16(body, 2))
  }

  function ParseInquiry(pdu: seq<byte>): (r: Result<Inquiry>)
    ensures r.Ok? && r.value.Inquiry? ==> Blocks(r.value)
  {
    if |pdu| < PDU_HEADER_LEN || Word16(pdu, 2) != |pdu| then Err(ErrProtocol)
    else
      var body := pdu[PDU_HEADER_LEN..];
      if |body| < 4 then Err(ErrProtocol)
      else if Word16(pdu, 0) == PDU_REQUEST then ParseRequestBody(body)
      else if Word16(pdu, 0) != PDU_REPORT || REPORT_LEN * Word16(body, 0) != |body| - 4 then Err(ErrProtocol)
      else Ok(Reports(Pieces(body, 4, REPORT_LEN, Word16(body, 0))))
  }

  // ---------- the answer ----------

  function Latency(scenario: Scenario, threshold: word32): word32 {
    if scenario.GuardDeny? then threshold else if threshold > 0 then threshold - 1 else 0
  }

  function Shortfall(scenario: Scenario, tokens: word16): word16 {
    if !scenario.Deny? then 0 else if tokens == 0 then 1 else tokens
  }

  function AnswerGuard(scenario: Scenario, block: seq<byte>): (b: seq<byte>)
    requires |block| == GUARD_LEN
    ensures |b| == GUARD_LEN
  {
    block[..32] + LeBytes(Latency(scenario, Word32(block, 28)), 4)
  }

  function AnswerResource(scenario: Scenario, block: seq<byte>): (b: seq<byte>)
    requires |block| == RESOURCE_LEN
    ensures |b| == RESOURCE_LEN
  {
    block[..24] + LeBytes(Shortfall(scenario, Word16(block, 24)), 2) + LeBytes(0, 2)
  }

  function AnswerGuards(scenario: Scenario, blocks: seq<seq<byte>>): (b: seq<seq<byte>>)
    requires Sized(blocks, GUARD_LEN)
    ensures |b| == |blocks| && forall i :: 0 <= i < |b| ==> b[i] == AnswerGuard(scenario, blocks[i])
  {
    seq(|blocks|, i requires 0 <= i < |blocks| => AnswerGuard(scenario, blocks[i]))
  }

  function AnswerResources(scenario: Scenario, blocks: seq<seq<byte>>): (b: seq<seq<byte>>)
    requires Sized(blocks, RESOURCE_LEN)
    ensures |b| == |blocks| && forall i :: 0 <= i < |b| ==> b[i] == AnswerResource(scenario, blocks[i])
  {
    seq(|blocks|, i requires 0 <= i < |blocks| => AnswerResource(scenario, blocks[i]))
  }

  ghost predicate Blocks(q: Inquiry)
    requires q.Inquiry?
  {
    Sized(q.guards, GUARD_LEN) && Sized(q.resources, RESOURCE_LEN) && |q.guards| <= 0xFFFF && |q.resources| <= 0xFFFF
  }

  function AnswerBody(scenario: Scenario, q: Inquiry): seq<byte>
    requires q.Inquiry? && Blocks(q)
  {
    Counts(|q.guards|, |q.resources|) + Flat(AnswerGuards(scenario, q.guards))
    + Flat(AnswerResources(scenario, q.resources))
  }

  lemma AnswerLength(scenario: Scenario, q: Inquiry)
    requires q.Inquiry? && Blocks(q)
    ensures |Flat(AnswerGuards(scenario, q.guards))| == GUARD_LEN * |q.guards|
    ensures |Flat(AnswerResources(scenario, q.resources))| == RESOURCE_LEN * |q.resources|
    ensures |AnswerBody(scenario, q)| == 4 + GUARD_LEN * |q.guards| + RESOURCE_LEN * |q.resources|
  {
    FlatLength(AnswerGuards(scenario, q.guards), GUARD_LEN);
    FlatLength(AnswerResources(scenario, q.resources), RESOURCE_LEN);
  }

  method WriteGuards(scenario: Scenario, out: seq<byte>, blocks: seq<seq<byte>>) returns (r: seq<byte>)
    requires Sized(blocks, GUARD_LEN)
    ensures r == out + Flat(AnswerGuards(scenario, blocks))
  {
    r := out;
    ghost var answers := AnswerGuards(scenario, blocks);
    for i := 0 to |blocks|
      invariant r == out + Flat(answers[..i])
    {
      var threshold := Word32(blocks[i], 28);
      var current := if threshold > 0 then threshold - 1 else 0;
      if scenario.GuardDeny? {
        current := threshold;
      }
      r := r + (blocks[i][..32] + LeBytes(current, 4));
      FlatGrows(out, answers, i);
    }
    assert answers[..|blocks|] == answers;
  }

  method WriteResources(scenario: Scenario, out: seq<byte>, blocks: seq<seq<byte>>) returns (r: seq<byte>)
    requires Sized(blocks, RESOURCE_LEN)
    ensures r == out + Flat(AnswerResources(scenario, blocks))
  {
    r := out;
    ghost var answers := AnswerResources(scenario, blocks);
    for i := 0 to |blocks|
      invariant r == out + Flat(answers[..i])
    {
      var deficit: word16 := 0;
      if scenario.Deny? {
        deficit := Word16(blocks[i], 24);
        if deficit == 0 {
          deficit := 1;
        }
      }
      r := r + (blocks[i][..24] + LeBytes(deficit, 2) + LeBytes(0, 2));
      FlatGrows(out, answers, i);
    }
    assert answers[..|blocks|] == answers;
  }

  method BuildAnswer(scenario: Scenario, q: Inquiry, cap: nat) returns (r: Result<seq<byte>>)
    requires q.Inquiry? && Blocks(q) && cap <= MAX_PACKET
    ensures r.Ok? <==> PDU_HEADER_LEN + |AnswerBody(scenario, q)| <= cap
    ensures r.Ok? ==> r.value == Pdu(PDU_RESPONSE, 0, AnswerBody(scenario, q))
    ensures r.Err? ==> r.code == ErrProtocol
  {
    AnswerLength(scenario, q);
    var size := 4 + |q.guards| * GUARD_LEN + |q.resources| * RESOURCE_LEN;
    if size > MAX_PACKET || size + PDU_HEADER_LEN > cap {
      return Err(ErrProtocol);
    }
    var body := Counts(|q.guards|, |q.resources|);
    body := WriteGuards(scenario, body, q.guards);
    body := WriteResources(scenario, body, q.resources);
    r := BuildPdu(PDU_RESPONSE, 0, body, cap);
  }

  /** The header of a reply: the responder's id and port advice, the request's id and time. */
  function ReplyTenant(s: Server, request: Tenant): Tenant {
    Tenant(s.serverId, request.id, request.timeStamp, if s.keepPort then 1 else 0)
  }

  /** A reply packet, laid out as the responder writes it. */
  function Reply(aead: Aead, s: Server, request: Tenant, nonce: nonce12, pdu: seq<byte>): seq<byte> {
    var header := TenantTlv(ReplyTenant(s, request));
    match s.auth
    case Cookie(secret) => header + (LeBytes(TLV_COOKIE, 2) + (LeBytes(36, 2) + (secret + pdu)))
    case AesGcm(secret) =>
      var tlv := LeBytes(TLV_AES, 2) + LeBytes(32, 2);
      var sealed := aead.seal(secret, nonce, (header + tlv) + nonce, pdu);
      header + (tlv + (nonce + (sealed.tag + sealed.cipher)))
  }

  /** The two sides, written apart, lay packets out alike. */
  lemma ReplyIsPacket(aead: Aead, s: Server, request: Tenant, nonce: nonce12, pdu: seq<byte>)
    ensures Reply(aead, s, request, nonce, pdu) == Packet(aead, s.auth, ReplyTenant(s, request), nonce, pdu)
  {
    var header := TenantTlv(ReplyTenant(s, request));
    match s.auth
    case Cookie(secret) => FiveAssoc(header, LeBytes(TLV_COOKIE, 2), LeBytes(36, 2), secret, pdu);
    case AesGcm(secret) =>
      var tlv := LeBytes(TLV_AES, 2) + LeBytes(32, 2);
      var sealed := aead.seal(secret, nonce, (header + tlv) + nonce, pdu);
      assert AuthHead(s.auth) == tlv;
      FourAssoc(header, tlv, nonce, sealed.tag, sealed.cipher);
  }

  lemma FiveAssoc(a: seq<byte>, b: seq<byte>, c: seq<byte>, d: seq<byte>, e: seq<byte>)
    ensures a + (b + (c + (d + e))) == (a + (b + c)) + d + e
  {
  }

  lemma FourAssoc(a: seq<byte>, b: seq<byte>, c: seq<byte>, d: seq<byte>, e: seq<byte>)
    ensures a + (b + (c + (d + e))) == ((a + b) + c) + d + e
  {
  }

  /** The responder's own packet writer. */
  method BuildReply(aead: Aead, s: Server, request: Tenant, nonce: nonce12, pdu: seq<byte>, cap: nat)
    returns (r: Result<seq<byte>>)
    requires Ideal(aead)
    ensures r.Ok? <==> |Reply(aead, s, request, nonce, pdu)| <= cap
    ensures r.Ok? ==> r.value == Reply(aead, s, request, nonce, pdu)
    ensures r.Err? ==> r.code == ErrProtocol
  {
    ReplyIsPacket(aead, s, request, nonce, pdu);
    PacketLength(aead, s.auth, ReplyTenant(s, request), nonce, pdu);
    if cap < TENANT_LEN {
      return Err(ErrProtocol);
    }
    var header := TenantTlv(ReplyTenant(s, request));
    match s.auth
    case Cookie(secret) =>
      if |header| + 36 + |pdu| > cap {
        return Err(ErrProtocol);
      }
      var out := header + LeBytes(TLV_COOKIE, 2);
      out := out + LeBytes(36, 2);
      out := out + secret;
      out := out + pdu;
      CookieWritten(header, LeBytes(TLV_COOKIE, 2), LeBytes(36, 2), secret, pdu);
      r := Ok(out);
    case AesGcm(secret) =>
      if |header| + 32 + |pdu| > cap {
        return Err(ErrProtocol);
      }
      var tlv := LeBytes(TLV_AES, 2) + LeBytes(32, 2);
      var out := header + tlv;
      var sealed := aead.seal(secret, nonce, out + nonce, pdu);
      out := out + nonce;
      out := out + sealed.tag;
      out := out + sealed.cipher;
      FourAssoc(header, tlv, nonce, sealed.tag, sealed.cipher);
      r := Ok(out);
  }

  lemma CookieWritten(a: seq<byte>, b: seq<byte>, c: seq<byte>, d: seq<byte>, e: seq<byte>)
    ensures a + b + c + d + e == a + (b + (c + (d + e)))
  {
  }

  /** The answer to one packet; a latency report is only observed. */
  function Respond(aead: Aead, s: Server, nonce: nonce12, input: seq<byte>): (r: Result<Option<seq<byte>>>) {
    match Authenticate(aead, s, input)
    case Err(code) => Err(code)
    case Ok(a) =>
      match ParseInquiry(a.pdu)
      case Err(code) => Err(code)
      case Ok(Reports(_)) => Ok(None)
      case Ok(q) =>
        var body := AnswerBody(s.scenario, q);
        var packet := Reply(aead, s, a.tenant, nonce, Pdu(PDU_RESPONSE, 0, body));
        if PDU_HEADER_LEN + |body| > MAX_PACKET || |packet| > MAX_PACKET then Err(ErrProtocol) else Ok(Some(packet))
  }

  method Process(aead: Aead, s: Server, nonce: nonce12, input: seq<byte>) returns (r: Result<Option<seq<byte>>>)
    requires Ideal(aead)
    ensures r == Respond(aead, s, nonce, input)
  {
    var a := Authenticate(aead, s, input);
    if a.Err? {
      return Err(a.code);
    }
    var q := ParseInquiry(a.value.pdu);
    if q.Err? {
      return Err(q.code);
    }
    if q.value.Reports? {
      return Ok(None);
    }
    var pdu := BuildAnswer(s.scenario, q.value, MAX_PACKET);
    if pdu.Err? {
      return Err(pdu.code);
    }
    var packet := BuildReply(aead, s, a.value.tenant, nonce, pdu.value, MAX_PACKET);
    if packet.Err? {
      return Err(packet.code);
    }
    r := Ok(Some(packet.value));
  }
}
