/** The client's side of reading a packet. */
module Parse {
  import opened Machine
  import opened Bytes
  import opened Wire
  import opened Results

  /** The little-endian number in `n` bytes at `at`. */
  function Field(b: seq<byte>, at: nat, n: nat): (v: nat)
    requires at + n <= |b|
  {
    LeValue(b[at..at + n])
  }

  lemma FieldFits(b: seq<byte>, at: nat, n: nat)
    requires at + n <= |b| && (n == 2 || n == 4 || n == 8)
    ensures Field(b, at, n) <= (if n == 2 then U16_MAX else if n == 4 then U32_MAX else U64_MAX)
  {
    WriteRead(b[at..at + n]);
    Spans();
  }

  /** What was written between `pre` and `post` is what is read there. */
  lemma FieldWritten(pre: seq<byte>, v: nat, n: nat, post: seq<byte>)
    requires (n == 2 && v <= U16_MAX) || (n == 4 && v <= U32_MAX) || (n == 8 && v <= U64_MAX)
    ensures Field(pre + LeBytes(v, n) + post, |pre|, n) == v
  {
    assert (pre + LeBytes(v, n) + post)[|pre|..|pre| + n] == LeBytes(v, n);
    Spans();
    ReadWritten(v, n);
  }

  function Word16(b: seq<byte>, at: nat): word16
    requires at + 2 <= |b|
  {
    FieldFits(b, at, 2);
    Field(b, at, 2)
  }

  function Word32(b: seq<byte>, at: nat): word32
    requires at + 4 <= |b|
  {
    FieldFits(b, at, 4);
    Field(b, at, 4)
  }

  function Word64(b: seq<byte>, at: nat): word64
    requires at + 8 <= |b|
  {
    FieldFits(b, at, 8);
    Field(b, at, 8)
  }

  // ---------- headers ----------

  datatype Opened = Opened(tenant: Tenant, pos: nat)

  /** The tenant header at the front of every packet, and where the rest starts. */
  function ParseTenant(buf: seq<byte>): (r: Result<Opened>)
    ensures r.Ok? ==> TENANT_LEN <= r.value.pos <= |buf|
  {
    if |buf| < 4 || Word16(buf, 0) != TLV_TENANT then Err(ErrProtocol)
    else if Word16(buf, 2) < TENANT_LEN || |buf| < Word16(buf, 2) then Err(ErrProtocol)
    else
      Ok(Opened(Tenant(Word64(buf, 4), buf[12..28], Word64(buf, 28), buf[36]), Word16(buf, 2)))
  }

  datatype AuthTlv = AuthTlv(kind: nat, size: nat)

  function ParseAuthHead(buf: seq<byte>, pos: nat): (r: Result<AuthTlv>)
    ensures r.Ok? ==> 4 <= r.value.size && pos + r.value.size <= |buf|
  {
    if |buf| < pos + 4 then Err(ErrProtocol)
    else if Word16(buf, pos + 2) < 4 || |buf| < pos + Word16(buf, pos + 2) then Err(ErrProtocol)
    else Ok(AuthTlv(Word16(buf, pos), Word16(buf, pos + 2)))
  }

  function Decrypt(aead: Aead, secret: key32, buf: seq<byte>, pos: nat): (r: Option<seq<byte>>)
    requires pos + 32 <= |buf|
  {
    if |buf| - (pos + 32) > MAX_PACKET then None
    else aead.open(secret, buf[pos + 4..pos + 16], buf[pos + 16..pos + 32], buf[..pos + 16], buf[pos + 32..])
  }

  /** Authenticates a packet from `pos` on and yields its PDU. */
  function ExtractPdu(aead: Aead, auth: Auth, buf: seq<byte>, pos: nat): (r: Result<seq<byte>>) {
    match ParseAuthHead(buf, pos)
    case Err(code) => Err(code)
    case Ok(tlv) =>
      if tlv.kind != (if auth.Cookie? then TLV_COOKIE else TLV_AES) then Err(ErrAuth)
      else if auth.Cookie? then
        if tlv.size != 36 then Err(ErrProtocol)
        else if buf[pos + 4..pos + 36] != auth.secret then Err(ErrAuth)
        else Ok(buf[pos + 36..])
      else if tlv.size != 32 || |buf| == pos + 32 then Err(ErrProtocol)
      else
        match Decrypt(aead, auth.secret, buf, pos)
        case None => Err(ErrProtocol)
        case Some(pdu) => Ok(pdu)
  }

  // ---------- the response PDU ----------

  datatype Parsed = Parsed(guards: seq<GuardResult>, resources: seq<ResourceResult>, success: bool)

  predicate HeaderOk(pdu: seq<byte>) {
    && PDU_HEADER_LEN <= |pdu|
    && Field(pdu, 0, 2) == PDU_RESPONSE
    && PDU_HEADER_LEN + 4 <= Field(pdu, 2, 2) <= |pdu|
  }

  function GuardCount(pdu: seq<byte>): nat
    requires HeaderOk(pdu)
  {
    Word16(pdu, 8)
  }

  function ResourceCount(pdu: seq<byte>): nat
    requires HeaderOk(pdu)
  {
    Word16(pdu, 10)
  }

  function GuardsEnd(pdu: seq<byte>): nat
    requires HeaderOk(pdu)
  {
    12 + GUARD_LEN * GuardCount(pdu)
  }

  /** Type and sizes are right, and the declared size holds every declared block. */
  predicate WellFormed(pdu: seq<byte>) {
    HeaderOk(pdu) && GuardsEnd(pdu) + RESOURCE_LEN * ResourceCount(pdu) <= Field(pdu, 2, 2)
  }

  function GuardAt(pdu: seq<byte>, at: nat): GuardResult
    requires at + GUARD_LEN <= |pdu|
  {
    GuardResult(pdu[at..at + 16], Field(pdu, at + 28, 4), Field(pdu, at + 32, 4),
                Field(pdu, at + 32, 4) < Field(pdu, at + 28, 4))
  }

  function ResourceAt(pdu: seq<byte>, at: nat): ResourceResult
    requires at + RESOURCE_LEN <= |pdu|
  {
    ResourceResult(pdu[at..at + 16], Field(pdu, at + 24, 2), Field(pdu, at + 20, 4))
  }

  predicate AllPass(gs: seq<GuardResult>) { forall g :: g in gs ==> g.passed }

  predicate NoDeficit(rs: seq<ResourceResult>) { forall r :: r in rs ==> r.deficit == 0 }

  function ParsedGuards(pdu: seq<byte>, n: nat): (gs: seq<GuardResult>)
    requires 12 + GUARD_LEN * n <= |pdu|
    ensures |gs| == n && forall i :: 0 <= i < n ==> gs[i] == GuardAt(pdu, 12 + GUARD_LEN * i)
  {
    seq(n, i requires 0 <= i < n => GuardAt(pdu, 12 + GUARD_LEN * i))
  }

  function ParsedResources(pdu: seq<byte>, start: nat, n: nat): (rs: seq<ResourceResult>)
    requires start + RESOURCE_LEN * n <= |pdu|
    ensures |rs| == n && forall i :: 0 <= i < n ==> rs[i] == ResourceAt(pdu, start + RESOURCE_LEN * i)
  {
    seq(n, i requires 0 <= i < n => ResourceAt(pdu, start + RESOURCE_LEN * i))
  }

  function ParseResponse(pdu: seq<byte>): (r: Result<Parsed>)
    ensures r.Ok? <==> WellFormed(pdu)
  {
    if !WellFormed(pdu) then Err(ErrProtocol)
    else
      var gs := ParsedGuards(pdu, GuardCount(pdu));
      var rs := ParsedResources(pdu, GuardsEnd(pdu), ResourceCount(pdu));
      Ok(Parsed(gs, rs, AllPass(gs) && NoDeficit(rs)))
  }

  // ---------- the parser ----------

  method ReadGuards(pdu: seq<byte>, size: nat, count: nat) returns (r: Option<seq<GuardResult>>, pass: bool)
    requires 12 <= size <= |pdu|
    ensures r.Some? <==> 12 + GUARD_LEN * count <= size
    ensures r.Some? ==> r.value == ParsedGuards(pdu, count) && (pass <==> AllPass(r.value))
  {
    var pos, gs := 12, [];
    pass := true;
    for i := 0 to count
      invariant pos == 12 + GUARD_LEN * i <= size
      invariant gs == ParsedGuards(pdu, i)
      invariant pass <==> AllPass(gs)
    {
      if size < pos + GUARD_LEN {
        return None, pass;
      }
      var g := GuardAt(pdu, pos);
      gs := gs + [g];
      if !g.passed {
        pass := false;
      }
      pos := pos + GUARD_LEN;
    }
    r := Some(gs);
  }

  method ReadResources(pdu: seq<byte>, size: nat, start: nat, count: nat)
    returns (r: Option<seq<ResourceResult>>, full: bool)
    requires start <= size <= |pdu|
    ensures r.Some? <==> start + RESOURCE_LEN * count <= size
    ensures r.Some? ==> r.value == ParsedResources(pdu, start, count) && (full <==> NoDeficit(r.value))
  {
    var pos, rs := start, [];
    full := true;
    for i := 0 to count
      invariant pos == start + RESOURCE_LEN * i <= size
      invariant rs == ParsedResources(pdu, start, i)
      invariant full <==> NoDeficit(rs)
    {
      if size < pos + RESOURCE_LEN {
        return None, full;
      }
      var x := ResourceAt(pdu, pos);
      rs := rs + [x];
      if x.deficit != 0 {
        full := false;
      }
      pos := pos + RESOURCE_LEN;
    }
    r := Some(rs);
  }

  /** The parser with the caller's capacities: it accepts exactly the well-formed responses that fit them. */
  method ParseRateResponse(pdu: seq<byte>, guardCap: nat, resourceCap: nat) returns (r: Result<Parsed>)
    ensures r.Ok? <==> WellFormed(pdu) && GuardCount(pdu) <= guardCap && ResourceCount(pdu) <= resourceCap
    ensures r.Ok? ==> r == ParseResponse(pdu)
    ensures r.Err? ==> r.code == ErrProtocol
  {
    if |pdu| < PDU_HEADER_LEN || Word16(pdu, 0) != PDU_RESPONSE {
      return Err(ErrProtocol);
    }
    var size := Word16(pdu, 2);
    if size < PDU_HEADER_LEN || |pdu| < size || size - PDU_HEADER_LEN < 4 {
      return Err(ErrProtocol);
    }
    var guardCount, resourceCount := Word16(pdu, 8), Word16(pdu, 10);
    if guardCount > guardCap || resourceCount > resourceCap {
      return Err(ErrProtocol);
    }
    var gs, pass := ReadGuards(pdu, size, guardCount);
    if gs.None? {
      return Err(ErrProtocol);
    }
    var rs, full := ReadResources(pdu, size, 12 + GUARD_LEN * guardCount, resourceCount);
    if rs.None? {
      return Err(ErrProtocol);
    }
    r := Ok(Parsed(gs.value, rs.value, pass && full));
  }
}
