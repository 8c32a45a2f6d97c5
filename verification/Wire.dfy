/** The wire formats, and the builders that fill bounded buffers with them. */
module Wire {
  import opened Machine
  import opened Bytes
  import opened Products

  const TENANT_LEN: nat := 40
  const PDU_HEADER_LEN: nat := 8
  const MAX_PACKET: nat := 1200
  const GUARD_LEN: nat := 36
  const RESOURCE_LEN: nat := 28
  const REPORT_LEN: nat := 32

  const TLV_TENANT: nat := 0x4C52
  const TLV_COOKIE: nat := 0x4143
  const TLV_AES: nat := 0x4541
  const TLV_LABEL: nat := 0x4C4D
  const PDU_REQUEST: nat := 0x5452
  const PDU_RESPONSE: nat := 0x5252
  const PDU_REPORT: nat := 0x524C

  type id16 = s: seq<byte> | |s| == 16 witness seq(16, _ => 0)
  type key32 = s: seq<byte> | |s| == 32 witness seq(32, _ => 0)
  type nonce12 = s: seq<byte> | |s| == 12 witness seq(12, _ => 0)

  datatype Guard = Guard(id: id16, ttl: word32, maxSamples: word32, minSamples: word32, threshold: word32)

  datatype Resource = Resource(id: id16, window: word32, rate: word32, tokens: word16)

  datatype Report = Report(id: id16, ttl: word32, maxSamples: word32, minSamples: word32, observed: word32)

  datatype Auth = Cookie(secret: key32) | AesGcm(secret: key32)

  datatype Tenant = Tenant(keyId: word64, id: id16, timeStamp: word64, feedback: byte)

  datatype Sealed = Sealed(cipher: seq<byte>, tag: id16)

  /** Authenticated encryption, as an ideal pair of functions. */
  datatype Aead = Aead(
    seal: (key32, nonce12, seq<byte>, seq<byte>) -> Sealed,
    open: (key32, nonce12, id16, seq<byte>, seq<byte>) -> Option<seq<byte>>)

  /** Opening what was sealed under the same key, nonce and associated bytes gives the text back. */
  ghost predicate Ideal(a: Aead) {
    forall k: key32, n: nonce12, aad: seq<byte>, plain: seq<byte> ::
      var s := a.seal(k, n, aad, plain);
      |s.cipher| == |plain| && a.open(k, n, s.tag, aad, s.cipher) == Some(plain)
  }

  // ---------- blocks ----------

  function Flat(blocks: seq<seq<byte>>): seq<byte> {
    if blocks == [] then [] else Flat(blocks[..|blocks| - 1]) + blocks[|blocks| - 1]
  }

  function GuardBlock(g: Guard, current: word32): (b: seq<byte>)
    ensures |b| == GUARD_LEN
  {
    g.id + LeBytes(g.ttl, 4) + LeBytes(g.maxSamples, 4) + LeBytes(g.minSamples, 4) + LeBytes(g.threshold, 4)
    + LeBytes(current, 4)
  }

  function ResourceBlock(r: Resource, last: word16): (b: seq<byte>)
    ensures |b| == RESOURCE_LEN
  {
    r.id + LeBytes(r.window, 4) + LeBytes(r.rate, 4) + LeBytes(last, 2) + LeBytes(0, 2)
  }

  function GuardBlocks(gs: seq<Guard>): (b: seq<seq<byte>>)
    ensures |b| == |gs| && forall i :: 0 <= i < |b| ==> b[i] == GuardBlock(gs[i], 0)
  {
    seq(|gs|, i requires 0 <= i < |gs| => GuardBlock(gs[i], 0))
  }

  function ResourceBlocks(rs: seq<Resource>): (b: seq<seq<byte>>)
    ensures |b| == |rs| && forall i :: 0 <= i < |b| ==> b[i] == ResourceBlock(rs[i], rs[i].tokens)
  {
    seq(|rs|, i requires 0 <= i < |rs| => ResourceBlock(rs[i], rs[i].tokens))
  }

  function ReportBlock(r: Report): (b: seq<byte>)
    ensures |b| == REPORT_LEN
  {
    r.id + LeBytes(r.ttl, 4) + LeBytes(r.maxSamples, 4) + LeBytes(r.minSamples, 4) + LeBytes(r.observed, 4)
  }

  function ReportBlocks(rs: seq<Report>): (b: seq<seq<byte>>)
    ensures |b| == |rs| && forall i :: 0 <= i < |b| ==> b[i] == ReportBlock(rs[i])
  {
    seq(|rs|, i requires 0 <= i < |rs| => ReportBlock(rs[i]))
  }

  function Padding(n: nat): nat { (4 - (2 + n) % 4) % 4 }

  function Zeros(n: nat): seq<byte> { seq(n, _ => 0) }

  function LabelSize(n: nat): nat { 6 + n + Padding(n) }

  function LabelTlv(text: seq<byte>): seq<byte> {
    LeBytes(TLV_LABEL, 2) + LeBytes(LabelSize(|text|), 2) + LeBytes(|text|, 2) + text + Zeros(Padding(|text|))
  }

  lemma PaddingAligns(n: nat)
    ensures LabelSize(n) % 4 == 0 && n + 6 <= LabelSize(n) < n + 10
  {
  }

  lemma Padded(x: seq<byte>, text: seq<byte>, n: nat)
    requires |x| == 6
    ensures |x + text + Zeros(n)| == 6 + |text| + n
    ensures forall i :: |text| + 6 <= i < 6 + |text| + n ==> (x + text + Zeros(n))[i] == 0
  {
  }

  /** The label TLV is padded with zeros to the next multiple of four bytes, and no further. */
  lemma LabelAligned(text: seq<byte>)
    ensures |LabelTlv(text)| % 4 == 0 && |text| + 6 <= |LabelTlv(text)| < |text| + 10
    ensures forall i :: |text| + 6 <= i < |LabelTlv(text)| ==> LabelTlv(text)[i] == 0
  {
    PaddingAligns(|text|);
    Padded(LeBytes(TLV_LABEL, 2) + LeBytes(LabelSize(|text|), 2) + LeBytes(|text|, 2), text, Padding(|text|));
  }

  /** A label is sent when it is there and does not start with a terminator. */
  predicate Labelled(text: seq<byte>) { text != [] && text[0] != 0 }

  function Counts(guards: nat, resources: nat): seq<byte> { LeBytes(guards, 2) + LeBytes(resources, 2) }

  function RequestBody(gs: seq<Guard>, rs: seq<Resource>, text: seq<byte>): seq<byte> {
    Counts(|gs|, |rs|) + Flat(GuardBlocks(gs)) + Flat(ResourceBlocks(rs))
    + (if Labelled(text) then LabelTlv(text) else [])
  }

  function ReportBody(rs: seq<Report>): seq<byte> {
    Counts(|rs|, 0) + Flat(ReportBlocks(rs))
  }

  function Pdu(kind: nat, extra: word32, body: seq<byte>): seq<byte> {
    LeBytes(kind, 2) + LeBytes(PDU_HEADER_LEN + |body|, 2) + LeBytes(extra, 4) + body
  }

  function TenantTlv(t: Tenant): (b: seq<byte>)
    ensures |b| == TENANT_LEN
  {
    LeBytes(TLV_TENANT, 2) + LeBytes(TENANT_LEN, 2) + LeBytes(t.keyId, 8) + t.id + LeBytes(t.timeStamp, 8)
    + [t.feedback, 0, 0, 0]
  }

  function AuthHead(auth: Auth): (b: seq<byte>)
    ensures |b| == 4
  {
    match auth
    case Cookie(_) => LeBytes(TLV_COOKIE, 2) + LeBytes(36, 2)
    case AesGcm(_) => LeBytes(TLV_AES, 2) + LeBytes(32, 2)
  }

  /** A whole packet. Under AES-GCM the associated bytes are everything before the tag. */
  function Packet(aead: Aead, auth: Auth, t: Tenant, nonce: nonce12, pdu: seq<byte>): seq<byte> {
    var head := TenantTlv(t) + AuthHead(auth);
    match auth
    case Cookie(secret) => head + secret + pdu
    case AesGcm(secret) =>
      var sealed := aead.seal(secret, nonce, head + nonce, pdu);
      head + nonce + sealed.tag + sealed.cipher
  }

  // ---------- sizes ----------

  ghost predicate Sized(blocks: seq<seq<byte>>, n: nat) {
    forall i :: 0 <= i < |blocks| ==> |blocks[i]| == n
  }

  lemma {:induction false} FlatLength(blocks: seq<seq<byte>>, n: nat)
    requires Sized(blocks, n)
    ensures |Flat(blocks)| == n * |blocks|
  {
    if blocks != [] {
      var k := |blocks| - 1;
      FlatLength(blocks[..k], n);
      assert n * |blocks| == n * k + n;
    }
  }

  lemma FlatGrows(out: seq<byte>, blocks: seq<seq<byte>>, i: nat)
    requires i < |blocks|
    ensures out + Flat(blocks[..i]) + blocks[i] == out + Flat(blocks[..i + 1])
  {
    assert blocks[..i + 1][..i] == blocks[..i];
  }

  /** Piece `i` of `k` pieces of `n` bytes ends inside them. */
  lemma PieceFits(n: nat, i: nat, k: nat)
    requires i < k
    ensures n * i + n <= n * k
  {
    MulStrict(i, k, n);
    Swap(n, i);
    Swap(n, k);
  }

  /** Block `i` starts at `n * i`. */
  lemma {:induction false} FlatAt(blocks: seq<seq<byte>>, n: nat, i: nat)
    requires Sized(blocks, n) && i < |blocks|
    ensures n * i + n <= |Flat(blocks)|
    ensures Flat(blocks)[n * i..n * i + n] == blocks[i]
  {
    var k := |blocks| - 1;
    FlatLength(blocks, n);
    FlatLength(blocks[..k], n);
    PieceFits(n, i, |blocks|);
    if i < k {
      FlatAt(blocks[..k], n, i);
      var f := Flat(blocks[..k]);
      assert (f + blocks[k])[n * i..n * i + n] == f[n * i..n * i + n];
    }
  }

  lemma BodyLength(gs: seq<Guard>, rs: seq<Resource>, text: seq<byte>)
    ensures |Flat(GuardBlocks(gs))| == GUARD_LEN * |gs|
    ensures |Flat(ResourceBlocks(rs))| == RESOURCE_LEN * |rs|
    ensures |RequestBody(gs, rs, text)|
         == 4 + GUARD_LEN * |gs| + RESOURCE_LEN * |rs| + (if Labelled(text) then LabelSize(|text|) else 0)
  {
    FlatLength(GuardBlocks(gs), GUARD_LEN);
    FlatLength(ResourceBlocks(rs), RESOURCE_LEN);
  }

  lemma PacketLength(aead: Aead, auth: Auth, t: Tenant, nonce: nonce12, pdu: seq<byte>)
    requires Ideal(aead)
    ensures |Packet(aead, auth, t, nonce, pdu)| == TENANT_LEN + (if auth.Cookie? then 36 else 32) + |pdu|
  {
    if auth.AesGcm? {
      var head := TenantTlv(t) + AuthHead(auth);
      assert |aead.seal(auth.secret, nonce, head + nonce, pdu).cipher| == |pdu|;
    }
  }

  // ---------- builders ----------

  method AppendLabel(out: seq<byte>, cap: nat, text: seq<byte>) returns (r: Result<seq<byte>>)
    requires cap <= 0xFFFF
    ensures r.Ok? <==> |out| + LabelSize(|text|) <= cap
    ensures r.Ok? ==> r.value == out + LabelTlv(text)
    ensures r.Err? ==> r.code == ErrProtocol
  {
    if |text| > 0xFFFF {
      return Err(ErrProtocol);
    }
    var bodyLen := 2 + |text|;
    var padding := (4 - bodyLen % 4) % 4;
    var size := 4 + bodyLen + padding;
    if size > 0xFFFF || |out| + size > cap {
      return Err(ErrProtocol);
    }
    var buf := out + LeBytes(TLV_LABEL, 2);
    buf := buf + LeBytes(size, 2);
    buf := buf + LeBytes(|text|, 2);
    buf := buf + text;
    if padding > 0 {
      buf := buf + Zeros(padding);
    }
    LabelAppended(out, LeBytes(TLV_LABEL, 2), LeBytes(size, 2), LeBytes(|text|, 2), text, Zeros(padding));
    r := Ok(buf);
  }

  lemma LabelAppended(out: seq<byte>, x: seq<byte>, y: seq<byte>, z: seq<byte>, text: seq<byte>, pad: seq<byte>)
    ensures out + x + y + z + text + pad == out + (x + y + z + text + pad)
    ensures pad == [] ==> out + x + y + z + text == out + (x + y + z + text + pad)
  {
  }

  method AppendGuards(out: seq<byte>, gs: seq<Guard>) returns (r: seq<byte>)
    ensures r == out + Flat(GuardBlocks(gs))
  {
    r := out;
    ghost var blocks := GuardBlocks(gs);
    for i := 0 to |gs|
      invariant r == out + Flat(blocks[..i])
    {
      r := r + GuardBlock(gs[i], 0);
      FlatGrows(out, blocks, i);
    }
    assert blocks[..|gs|] == blocks;
  }

  method AppendResources(out: seq<byte>, rs: seq<Resource>) returns (r: seq<byte>)
    ensures r == out + Flat(ResourceBlocks(rs))
  {
    r := out;
    ghost var blocks := ResourceBlocks(rs);
    for i := 0 to |rs|
      invariant r == out + Flat(blocks[..i])
    {
      r := r + ResourceBlock(rs[i], rs[i].tokens);
      FlatGrows(out, blocks, i);
    }
    assert blocks[..|rs|] == blocks;
  }

  /** Builds a request body exactly when the whole body fits. */
  method BuildBody(gs: seq<Guard>, rs: seq<Resource>, text: seq<byte>, cap: nat) returns (r: Result<seq<byte>>)
    requires cap <= 0xFFFF
    ensures r.Ok? <==> |RequestBody(gs, rs, text)| <= cap
    ensures r.Ok? ==> r.value == RequestBody(gs, rs, text)
    ensures r.Err? ==> r.code == ErrProtocol
  {
    BodyLength(gs, rs, text);
    if |rs| > 0xFFFF || |gs| > 0xFFFF {
      return Err(ErrProtocol);
    }
    if 4 + |gs| * GUARD_LEN + |rs| * RESOURCE_LEN > cap {
      return Err(ErrProtocol);
    }
    var out := Counts(|gs|, |rs|);
    out := AppendGuards(out, gs);
    out := AppendResources(out, rs);
    if Labelled(text) {
      r := AppendLabel(out, cap, text);
    } else {
      r := Ok(out);
      assert RequestBody(gs, rs, text) == out;
    }
  }

  /** Builds a latency report's body exactly when the whole body fits. */
  method BuildReportBody(rs: seq<Report>, cap: nat) returns (r: Result<seq<byte>>)
    requires cap <= 0xFFFF
    ensures r.Ok? <==> |ReportBody(rs)| <= cap
    ensures r.Ok? ==> r.value == ReportBody(rs)
    ensures r.Err? ==> r.code == ErrProtocol
  {
    ghost var blocks := ReportBlocks(rs);
    FlatLength(blocks, REPORT_LEN);
    if |rs| > 0xFFFF || 4 + |rs| * REPORT_LEN > cap {
      return Err(ErrProtocol);
    }
    var head := Counts(|rs|, 0);
    var out := head;
    for i := 0 to |rs|
      invariant out == head + Flat(blocks[..i])
    {
      out := out + ReportBlock(rs[i]);
      FlatGrows(head, blocks, i);
    }
    assert blocks[..|rs|] == blocks;
    r := Ok(out);
  }

  lemma HeaderParts(a: seq<byte>, b: seq<byte>, c: seq<byte>, body: seq<byte>)
    requires |a| == 2 && |b| == 2 && |c| == 4
    ensures var p := a + b + c + body; p[..2] == a && p[2..4] == b && p[4..8] == c && p[8..] == body
  {
  }

  method BuildPdu(kind: nat, extra: word32, body: seq<byte>, cap: nat) returns (r: Result<seq<byte>>)
    requires cap <= 0xFFFF
    ensures r.Ok? <==> |Pdu(kind, extra, body)| <= cap
    ensures r.Ok? ==> r.value == Pdu(kind, extra, body)
    ensures r.Ok? ==> LeValue(r.value[2..4]) == |r.value| && LeValue(r.value[4..8]) == extra && r.value[8..] == body
    ensures r.Err? ==> r.code == ErrProtocol
  {
    var size := PDU_HEADER_LEN + |body|;
    if size > 0xFFFF || size > cap {
      return Err(ErrProtocol);
    }
    var out := LeBytes(kind, 2);
    out := out + LeBytes(size, 2);
    out := out + LeBytes(extra, 4);
    out := out + body;
    Spans();
    ReadWritten(size, 2);
    ReadWritten(extra, 4);
    HeaderParts(LeBytes(kind, 2), LeBytes(size, 2), LeBytes(extra, 4), body);
    r := Ok(out);
  }

  /** Tenant header, authentication and PDU, when they fit in `cap` bytes. */
  method BuildPacket(aead: Aead, auth: Auth, t: Tenant, nonce: nonce12, pdu: seq<byte>, cap: nat)
    returns (r: Result<seq<byte>>)
    requires Ideal(aead)
    ensures r.Ok? <==> |Packet(aead, auth, t, nonce, pdu)| <= cap
    ensures r.Ok? ==> r.value == Packet(aead, auth, t, nonce, pdu)
    ensures r.Err? ==> r.code == ErrProtocol
  {
    PacketLength(aead, auth, t, nonce, pdu);
    if cap < TENANT_LEN {
      return Err(ErrProtocol);
    }
    var out := TenantTlv(t);
    match auth
    case Cookie(secret) =>
      if |out| + 4 + 32 + |pdu| > cap {
        return Err(ErrProtocol);
      }
      out := out + AuthHead(auth);
      out := out + secret;
      r := Ok(out + pdu);
    case AesGcm(secret) =>
      if |out| + 4 + 12 + 16 + |pdu| > cap {
        return Err(ErrProtocol);
      }
      out := out + AuthHead(auth);
      var sealed := aead.seal(secret, nonce, out + nonce, pdu);
      out := out + nonce;
      out := out + sealed.tag;
      r := Ok(out + sealed.cipher);
  }

  /** The client's request packet. */
  function RequestPacket(aead: Aead, auth: Auth, t: Tenant, nonce: nonce12, ttl: word32,
                         gs: seq<Guard>, rs: seq<Resource>, text: seq<byte>): seq<byte>
  {
    Packet(aead, auth, t, nonce, Pdu(PDU_REQUEST, ttl, RequestBody(gs, rs, text)))
  }

  /** A request is framed exactly when its whole packet is at most 1200 bytes. */
  method FrameRequest(aead: Aead, auth: Auth, t: Tenant, nonce: nonce12, ttl: word32,
                      gs: seq<Guard>, rs: seq<Resource>, text: seq<byte>) returns (r: Result<seq<byte>>)
    requires Ideal(aead)
    ensures r.Ok? <==> |RequestPacket(aead, auth, t, nonce, ttl, gs, rs, text)| <= MAX_PACKET
    ensures r.Ok? ==> r.value == RequestPacket(aead, auth, t, nonce, ttl, gs, rs, text)
    ensures r.Err? ==> r.code == ErrProtocol
  {
    PacketLength(aead, auth, t, nonce, Pdu(PDU_REQUEST, ttl, RequestBody(gs, rs, text)));
    var body := BuildBody(gs, rs, text, MAX_PACKET);
    if body.Err? {
      return Err(body.code);
    }
    var pdu := BuildPdu(PDU_REQUEST, ttl, body.value, MAX_PACKET);
    if pdu.Err? {
      return Err(pdu.code);
    }
    r := BuildPacket(aead, auth, t, nonce, pdu.value, MAX_PACKET);
  }
}
