/** The client's writer and the responder's reader undo each other, and the other way round. */
module EndToEnd {
  import opened Machine
  import opened Bytes
  import opened Wire
  import opened Parse
  import opened Responder
  import opened Results

  // ---------- reading fields back ----------

  lemma ReadField(whole: seq<byte>, pre: seq<byte>, v: nat, n: nat, post: seq<byte>)
    requires (n == 2 && v <= U16_MAX) || (n == 4 && v <= U32_MAX) || (n == 8 && v <= U64_MAX)
    requires whole == pre + LeBytes(v, n) + post
    ensures |pre| + n <= |whole| && Field(whole, |pre|, n) == v
  {
    FieldWritten(pre, v, n, post);
  }

  lemma SliceBefore(a: seq<byte>, b: seq<byte>, i: nat, j: nat)
    requires i <= j <= |a|
    ensures (a + b)[i..j] == a[i..j]
  {
  }

  lemma TenantRead(t: Tenant, rest: seq<byte>)
    ensures ParseTenant(TenantTlv(t) + rest) == Ok(Opened(t, TENANT_LEN))
  {
    var h := TenantTlv(t);
    TenantFields(t);
    forall i, j | 0 <= i <= j <= TENANT_LEN ensures (h + rest)[i..j] == h[i..j] {
      SliceBefore(h, rest, i, j);
    }
  }

  lemma TenantFields(t: Tenant)
    ensures var h := TenantTlv(t);
      && Field(h, 0, 2) == TLV_TENANT && Field(h, 2, 2) == TENANT_LEN && Field(h, 4, 8) == t.keyId
      && h[12..28] == t.id && Field(h, 28, 8) == t.timeStamp && h[36] == t.feedback && h[37..] == [0, 0, 0]
  {
    var h := TenantTlv(t);
    var a, b, c, d := LeBytes(TLV_TENANT, 2), LeBytes(TENANT_LEN, 2), LeBytes(t.keyId, 8), LeBytes(t.timeStamp, 8);
    var tail := [t.feedback, 0, 0, 0];
    assert tail[1..] == [0, 0, 0];
    TenantSplit(a, b, c, t.id, d, tail);
    ReadField(h, [], TLV_TENANT, 2, b + c + t.id + d + tail);
    ReadField(h, a, TENANT_LEN, 2, c + t.id + d + tail);
    ReadField(h, a + b, t.keyId, 8, t.id + d + tail);
    ReadField(h, a + b + c + t.id, t.timeStamp, 8, tail);
  }

  lemma TenantSplit(a: seq<byte>, b: seq<byte>, c: seq<byte>, id: seq<byte>, d: seq<byte>, tail: seq<byte>)
    requires |a| == 2 && |b| == 2 && |c| == 8 && |id| == 16 && |d| == 8 && |tail| == 4
    ensures var h := a + b + c + id + d + tail;
      && h == [] + a + (b + c + id + d + tail)
      && h == a + b + (c + id + d + tail)
      && h == (a + b) + c + (id + d + tail)
      && h == (a + b + c + id) + d + tail
      && h[12..28] == id && h[36] == tail[0] && h[37..] == tail[1..]
  {
  }

  // ---------- packets ----------

  lemma AuthHeadRead(auth: Auth, pre: seq<byte>, rest: seq<byte>)
    requires |rest| >= (if auth.Cookie? then 32 else 28)
    ensures ParseAuthHead(pre + AuthHead(auth) + rest, |pre|)
         == Ok(if auth.Cookie? then AuthTlv(TLV_COOKIE, 36) else AuthTlv(TLV_AES, 32))
  {
    var kind, size := if auth.Cookie? then TLV_COOKIE else TLV_AES, if auth.Cookie? then 36 else 32;
    var a, b := LeBytes(kind, 2), LeBytes(size, 2);
    var whole := pre + AuthHead(auth) + rest;
    assert AuthHead(auth) == a + b;
    TwoFields(pre, a, b, rest);
    ReadField(whole, pre, kind, 2, b + rest);
    ReadField(whole, pre + a, size, 2, rest);
  }

  lemma TwoFields(pre: seq<byte>, a: seq<byte>, b: seq<byte>, rest: seq<byte>)
    ensures pre + (a + b) + rest == pre + a + (b + rest)
    ensures pre + (a + b) + rest == pre + a + b + rest
  {
  }

  /** Where everything lies in an AES-GCM packet. */
  lemma SealedLayout(head: seq<byte>, nonce: seq<byte>, tag: seq<byte>, cipher: seq<byte>)
    requires |head| == 44 && |nonce| == 12 && |tag| == 16
    ensures var p := head + nonce + tag + cipher;
      p[44..56] == nonce && p[56..72] == tag && p[..56] == head + nonce && p[72..] == cipher
      && |p| == 72 + |cipher|
  {
  }

  lemma CookieLayout(head: seq<byte>, secret: seq<byte>, pdu: seq<byte>)
    requires |head| == 44 && |secret| == 32
    ensures var p := head + secret + pdu;
      p[44..76] == secret && p[76..] == pdu && |p| == 76 + |pdu|
  {
  }

  /** The bytes the writer authenticates are the bytes the reader authenticates. */
  lemma SameAssociatedBytes(aead: Aead, secret: key32, t: Tenant, nonce: nonce12, pdu: seq<byte>)
    requires Ideal(aead)
    ensures var p := Packet(aead, AesGcm(secret), t, nonce, pdu);
            var aad := TenantTlv(t) + AuthHead(AesGcm(secret)) + nonce;
            && |p| == 72 + |pdu|
            && p[..TENANT_LEN + 16] == aad
            && p[TENANT_LEN + 4..TENANT_LEN + 16] == nonce
            && p[TENANT_LEN + 16..TENANT_LEN + 32] == aead.seal(secret, nonce, aad, pdu).tag
            && p[TENANT_LEN + 32..] == aead.seal(secret, nonce, aad, pdu).cipher
  {
    var head := TenantTlv(t) + AuthHead(AesGcm(secret));
    var sealed := aead.seal(secret, nonce, head + nonce, pdu);
    SealedLayout(head, nonce, sealed.tag, sealed.cipher);
    PacketLength(aead, AesGcm(secret), t, nonce, pdu);
  }

  lemma DecryptsBack(aead: Aead, secret: key32, t: Tenant, nonce: nonce12, pdu: seq<byte>)
    requires Ideal(aead) && |pdu| <= MAX_PACKET
    ensures var p := Packet(aead, AesGcm(secret), t, nonce, pdu);
            |p| == 72 + |pdu| && Decrypt(aead, secret, p, TENANT_LEN) == Some(pdu)
  {
    SameAssociatedBytes(aead, secret, t, nonce, pdu);
    var aad := TenantTlv(t) + AuthHead(AesGcm(secret)) + nonce;
    var sealed := aead.seal(secret, nonce, aad, pdu);
    assert aead.open(secret, nonce, sealed.tag, aad, sealed.cipher) == Some(pdu);
  }

  lemma PacketHeads(aead: Aead, auth: Auth, t: Tenant, nonce: nonce12, pdu: seq<byte>)
    requires Ideal(aead)
    ensures var p := Packet(aead, auth, t, nonce, pdu);
      && ParseTenant(p) == Ok(Opened(t, TENANT_LEN))
      && ParseAuthHead(p, TENANT_LEN) == Ok(if auth.Cookie? then AuthTlv(TLV_COOKIE, 36) else AuthTlv(TLV_AES, 32))
  {
    var h, a := TenantTlv(t), AuthHead(auth);
    var rest := if auth.Cookie? then auth.secret + pdu
                else var s := aead.seal(auth.secret, nonce, h + a + nonce, pdu); nonce + s.tag + s.cipher;
    PacketAssoc(aead, auth, t, nonce, pdu, rest);
    TenantRead(t, a + rest);
    AuthHeadRead(auth, h, rest);
  }

  lemma PacketAssoc(aead: Aead, auth: Auth, t: Tenant, nonce: nonce12, pdu: seq<byte>, rest: seq<byte>)
    requires rest == if auth.Cookie? then auth.secret + pdu
                     else var s := aead.seal(auth.secret, nonce, TenantTlv(t) + AuthHead(auth) + nonce, pdu);
                          nonce + s.tag + s.cipher
    ensures Packet(aead, auth, t, nonce, pdu) == TenantTlv(t) + AuthHead(auth) + rest
    ensures Packet(aead, auth, t, nonce, pdu) == TenantTlv(t) + (AuthHead(auth) + rest)
  {
  }

  /** Either side recovers the PDU of a packet the other side built under the same key. */
  lemma PacketOpens(aead: Aead, auth: Auth, t: Tenant, nonce: nonce12, pdu: seq<byte>)
    requires Ideal(aead) && 0 < |pdu| <= MAX_PACKET
    ensures ExtractPdu(aead, auth, Packet(aead, auth, t, nonce, pdu), TENANT_LEN) == Ok(pdu)
    ensures forall s: Server :: s.auth == auth && s.tenantKey == t.keyId ==>
              Authenticate(aead, s, Packet(aead, auth, t, nonce, pdu)) == Ok(Authentic(t, pdu))
  {
    PacketHeads(aead, auth, t, nonce, pdu);
    match auth
    case Cookie(secret) => CookieLayout(TenantTlv(t) + AuthHead(auth), secret, pdu);
    case AesGcm(secret) => DecryptsBack(aead, secret, t, nonce, pdu);
  }

  // ---------- blocks ----------

  /** The guard a block describes. */
  function GuardOf(block: seq<byte>): Guard
    requires |block| == GUARD_LEN
  {
    Guard(block[..16], Word32(block, 16), Word32(block, 20), Word32(block, 24), Word32(block, 28))
  }

  function ResourceOf(block: seq<byte>): Resource
    requires |block| == RESOURCE_LEN
  {
    Resource(block[..16], Word32(block, 16), Word32(block, 20), Word16(block, 24))
  }

  function ReportOf(block: seq<byte>): Report
    requires |block| == REPORT_LEN
  {
    Report(block[..16], Word32(block, 16), Word32(block, 20), Word32(block, 24), Word32(block, 28))
  }

  lemma FiveFields(id: seq<byte>, a: seq<byte>, b: seq<byte>, c: seq<byte>, d: seq<byte>, e: seq<byte>)
    requires |id| == 16 && |a| == 4 && |b| == 4
    ensures var w := id + a + b + c + d + e;
      && w[..16] == id
      && w == id + a + (b + c + d + e)
      && w == (id + a) + b + (c + d + e)
      && w == (id + a + b) + c + (d + e)
      && w == (id + a + b + c) + d + e
      && w == (id + a + b + c + d) + e + []
  {
  }

  lemma GuardRead(g: Guard, current: word32)
    ensures GuardOf(GuardBlock(g, current)) == g
    ensures Field(GuardBlock(g, current), 32, 4) == current
  {
    var w := GuardBlock(g, current);
    var a, b, c, d, e := LeBytes(g.ttl, 4), LeBytes(g.maxSamples, 4), LeBytes(g.minSamples, 4),
                         LeBytes(g.threshold, 4), LeBytes(current, 4);
    FiveFields(g.id, a, b, c, d, e);
    ReadField(w, g.id, g.ttl, 4, b + c + d + e);
    ReadField(w, g.id + a, g.maxSamples, 4, c + d + e);
    ReadField(w, g.id + a + b, g.minSamples, 4, d + e);
    ReadField(w, g.id + a + b + c, g.threshold, 4, e);
    ReadField(w, g.id + a + b + c + d, current, 4, []);
  }

  lemma ResourceRead(r: Resource, last: word16)
    ensures ResourceOf(ResourceBlock(r, last)) == r.(tokens := last)
    ensures Field(ResourceBlock(r, last), 26, 2) == 0
  {
    var w := ResourceBlock(r, last);
    var a, b, c, d := LeBytes(r.window, 4), LeBytes(r.rate, 4), LeBytes(last, 2), LeBytes(0, 2);
    FiveFields(r.id, a, b, c, d, []);
    assert w == w + [];
    ReadField(w, r.id, r.window, 4, b + c + d + []);
    ReadField(w, r.id + a, r.rate, 4, c + d + []);
    ReadField(w, r.id + a + b, last, 2, d + []);
    ReadField(w, r.id + a + b + c, 0, 2, []);
  }

  lemma ReportRead(r: Report)
    ensures ReportOf(ReportBlock(r)) == r
  {
    var w := ReportBlock(r);
    var a, b, c, d := LeBytes(r.ttl, 4), LeBytes(r.maxSamples, 4), LeBytes(r.minSamples, 4), LeBytes(r.observed, 4);
    FiveFields(r.id, a, b, c, d, []);
    assert w == w + [];
    ReadField(w, r.id, r.ttl, 4, b + c + d + []);
    ReadField(w, r.id + a, r.maxSamples, 4, c + d + []);
    ReadField(w, r.id + a + b, r.minSamples, 4, d + []);
    ReadField(w, r.id + a + b + c, r.observed, 4, []);
  }

  // ---------- bodies ----------

  lemma PduRead(kind: nat, extra: word32, body: seq<byte>)
    requires kind <= U16_MAX && PDU_HEADER_LEN + |body| <= U16_MAX
    ensures var p := Pdu(kind, extra, body);
      && |p| == PDU_HEADER_LEN + |body| && Field(p, 0, 2) == kind && Field(p, 2, 2) == |p|
      && Field(p, 4, 4) == extra && p[PDU_HEADER_LEN..] == body
  {
    var p := Pdu(kind, extra, body);
    var size := PDU_HEADER_LEN + |body|;
    var a, b, c := LeBytes(kind, 2), LeBytes(size, 2), LeBytes(extra, 4);
    PduSplit(a, b, c, body);
    ReadField(p, [], kind, 2, b + c + body);
    ReadField(p, a, size, 2, c + body);
    ReadField(p, a + b, extra, 4, body);
  }

  lemma PduSplit(a: seq<byte>, b: seq<byte>, c: seq<byte>, body: seq<byte>)
    requires |a| == 2 && |b| == 2 && |c| == 4
    ensures var p := a + b + c + body;
      p == [] + a + (b + c + body) && p == a + b + (c + body) && p == (a + b) + c + body && p[8..] == body
  {
  }

  lemma CountsRead(g: nat, r: nat, rest: seq<byte>)
    requires g <= U16_MAX && r <= U16_MAX
    ensures var b := Counts(g, r) + rest; Field(b, 0, 2) == g && Field(b, 2, 2) == r && |b| == 4 + |rest|
  {
    var x, y := LeBytes(g, 2), LeBytes(r, 2);
    var b := Counts(g, r) + rest;
    assert b == [] + x + (y + rest);
    assert b == x + y + rest;
    ReadField(b, [], g, 2, y + rest);
    ReadField(b, x, r, 2, rest);
  }

  lemma {:induction false} PieceAt(b: seq<byte>, at: nat, n: nat, count: nat, i: nat)
    requires at + n * count <= |b| && i < count
    ensures at + n * i + n <= |b|
    ensures Pieces(b, at, n, count)[i] == b[at + n * i..at + n * i + n]
    decreases count
  {
    PieceFits(n, i, count);
    PieceFits(n, count - 1, count);
    if i < count - 1 {
      PieceAt(b, at, n, count - 1, i);
    }
  }

  /** Cutting a run of equal-sized blocks gives the blocks back. */
  lemma PiecesAreBlocks(pre: seq<byte>, blocks: seq<seq<byte>>, n: nat, post: seq<byte>)
    requires Sized(blocks, n)
    ensures var b := pre + Flat(blocks) + post;
      |pre| + n * |blocks| <= |b| && Pieces(b, |pre|, n, |blocks|) == blocks
  {
    var b := pre + Flat(blocks) + post;
    FlatLength(blocks, n);
    forall i | 0 <= i < |blocks| ensures Pieces(b, |pre|, n, |blocks|)[i] == blocks[i] {
      PieceAt(b, |pre|, n, |blocks|, i);
      FlatAt(blocks, n, i);
      BlockInside(pre, Flat(blocks), post, n * i, n);
    }
  }

  lemma BlockInside(pre: seq<byte>, flat: seq<byte>, post: seq<byte>, k: nat, n: nat)
    requires k + n <= |flat|
    ensures (pre + flat + post)[|pre| + k..|pre| + k + n] == flat[k..k + n]
  {
  }

  lemma LabelFields(pre: seq<byte>, text: seq<byte>)
    requires |text| <= MAX_PACKET
    ensures var b := pre + LabelTlv(text);
      && |b| == |pre| + LabelSize(|text|)
      && Field(b, |pre|, 2) == TLV_LABEL && Field(b, |pre| + 2, 2) == LabelSize(|text|)
      && Field(b, |pre| + 4, 2) == |text| && b[|pre| + 6..|pre| + 6 + |text|] == text
  {
    var b := pre + LabelTlv(text);
    var size, pad := LabelSize(|text|), Zeros(Padding(|text|));
    var x, y, z := LeBytes(TLV_LABEL, 2), LeBytes(size, 2), LeBytes(|text|, 2);
    LabelSplit(pre, x, y, z, text, pad);
    ReadField(b, pre, TLV_LABEL, 2, y + z + text + pad);
    ReadField(b, pre + x, size, 2, z + text + pad);
    ReadField(b, pre + x + y, |text|, 2, text + pad);
  }

  lemma LabelRead(pre: seq<byte>, text: seq<byte>)
    requires |text| <= LABEL_CAP
    ensures ParseLabel(pre + LabelTlv(text), |pre|) == Ok(text)
  {
    LabelFields(pre, text);
  }

  lemma LabelSplit(pre: seq<byte>, x: seq<byte>, y: seq<byte>, z: seq<byte>, text: seq<byte>, pad: seq<byte>)
    requires |x| == 2 && |y| == 2 && |z| == 2
    ensures var b := pre + (x + y + z + text + pad);
      && b == pre + x + (y + z + text + pad)
      && b == pre + x + y + (z + text + pad)
      && b == pre + x + y + z + (text + pad)
      && b[|pre| + 6..|pre| + 6 + |text|] == text
  {
  }

  function Sent(text: seq<byte>): seq<byte> { if Labelled(text) then text else [] }

  /** Blocks behind their counts are read back as those blocks, whatever follows. */
  lemma BlocksRead(gb: seq<seq<byte>>, rb: seq<seq<byte>>, tail: seq<byte>)
    requires Sized(gb, GUARD_LEN) && Sized(rb, RESOURCE_LEN) && |gb| <= U16_MAX && |rb| <= U16_MAX
    ensures var body := Counts(|gb|, |rb|) + Flat(gb) + Flat(rb) + tail;
      && |body| == 4 + GUARD_LEN * |gb| + RESOURCE_LEN * |rb| + |tail|
      && Word16(body, 0) == |gb| && Word16(body, 2) == |rb|
      && Pieces(body, 4, GUARD_LEN, |gb|) == gb
      && Pieces(body, 4 + GUARD_LEN * |gb|, RESOURCE_LEN, |rb|) == rb
  {
    FlatLength(gb, GUARD_LEN);
    FlatLength(rb, RESOURCE_LEN);
    BodySplit(Counts(|gb|, |rb|), Flat(gb), Flat(rb), tail);
    CountsRead(|gb|, |rb|, Flat(gb) + Flat(rb) + tail);
    GuardPieces(gb, rb, tail);
    ResourcePieces(gb, rb, tail);
  }

  lemma GuardPieces(gb: seq<seq<byte>>, rb: seq<seq<byte>>, tail: seq<byte>)
    requires Sized(gb, GUARD_LEN)
    ensures var body := Counts(|gb|, |rb|) + Flat(gb) + Flat(rb) + tail;
      4 + GUARD_LEN * |gb| <= |body| && Pieces(body, 4, GUARD_LEN, |gb|) == gb
  {
    BodySplit(Counts(|gb|, |rb|), Flat(gb), Flat(rb), tail);
    PiecesAreBlocks(Counts(|gb|, |rb|), gb, GUARD_LEN, Flat(rb) + tail);
  }

  lemma ResourcePieces(gb: seq<seq<byte>>, rb: seq<seq<byte>>, tail: seq<byte>)
    requires Sized(gb, GUARD_LEN) && Sized(rb, RESOURCE_LEN)
    ensures var body := Counts(|gb|, |rb|) + Flat(gb) + Flat(rb) + tail;
      && 4 + GUARD_LEN * |gb| + RESOURCE_LEN * |rb| <= |body|
      && Pieces(body, 4 + GUARD_LEN * |gb|, RESOURCE_LEN, |rb|) == rb
  {
    FlatLength(gb, GUARD_LEN);
    PiecesAreBlocks(Counts(|gb|, |rb|) + Flat(gb), rb, RESOURCE_LEN, tail);
  }

  ghost predicate LabelTail(tail: seq<byte>, text: seq<byte>) {
    (tail == [] && text == []) || (tail == LabelTlv(text) && |text| <= LABEL_CAP)
  }

  lemma LabelAfter(front: seq<byte>, tail: seq<byte>, text: seq<byte>)
    requires LabelTail(tail, text)
    ensures ParseLabel(front + tail, |front|) == Ok(text)
  {
    if tail != [] {
      LabelRead(front, text);
    }
  }

  lemma LabelBehind(front: seq<byte>, end: nat, tail: seq<byte>, text: seq<byte>)
    requires LabelTail(tail, text) && |front| == end
    ensures end <= |front + tail| && ParseLabel(front + tail, end) == Ok(text)
  {
    LabelAfter(front, tail, text);
  }

  lemma LabelAfterBlocks(gb: seq<seq<byte>>, rb: seq<seq<byte>>, tail: seq<byte>, text: seq<byte>)
    requires Sized(gb, GUARD_LEN) && Sized(rb, RESOURCE_LEN) && LabelTail(tail, text)
    ensures var body := Counts(|gb|, |rb|) + Flat(gb) + Flat(rb) + tail;
      var end := 4 + GUARD_LEN * |gb| + RESOURCE_LEN * |rb|;
      end <= |body| && ParseLabel(body, end) == Ok(text)
  {
    FlatLength(gb, GUARD_LEN);
    FlatLength(rb, RESOURCE_LEN);
    LabelBehind(Counts(|gb|, |rb|) + Flat(gb) + Flat(rb), 4 + GUARD_LEN * |gb| + RESOURCE_LEN * |rb|, tail, text);
  }

  lemma InquiryFrom(body: seq<byte>, gb: seq<seq<byte>>, rb: seq<seq<byte>>, text: seq<byte>)
    requires 4 + GUARD_LEN * |gb| + RESOURCE_LEN * |rb| <= |body|
    requires Word16(body, 0) == |gb| && Word16(body, 2) == |rb|
    requires Pieces(body, 4, GUARD_LEN, |gb|) == gb
    requires Pieces(body, 4 + GUARD_LEN * |gb|, RESOURCE_LEN, |rb|) == rb
    requires ParseLabel(body, 4 + GUARD_LEN * |gb| + RESOURCE_LEN * |rb|) == Ok(text)
    ensures ParseRequestBody(body) == Ok(Inquiry(gb, rb, text))
  {
  }

  lemma InquiryRead(gb: seq<seq<byte>>, rb: seq<seq<byte>>, tail: seq<byte>, text: seq<byte>)
    requires Sized(gb, GUARD_LEN) && Sized(rb, RESOURCE_LEN) && |gb| <= U16_MAX && |rb| <= U16_MAX
    requires LabelTail(tail, text)
    ensures ParseRequestBody(Counts(|gb|, |rb|) + Flat(gb) + Flat(rb) + tail) == Ok(Inquiry(gb, rb, text))
  {
    BlocksRead(gb, rb, tail);
    LabelAfterBlocks(gb, rb, tail, text);
    InquiryFrom(Counts(|gb|, |rb|) + Flat(gb) + Flat(rb) + tail, gb, rb, text);
  }

  lemma RequestBodyRead(gs: seq<Guard>, rs: seq<Resource>, text: seq<byte>)
    requires |RequestBody(gs, rs, text)| <= MAX_PACKET && |Sent(text)| <= LABEL_CAP
    ensures ParseRequestBody(RequestBody(gs, rs, text)) == Ok(Inquiry(GuardBlocks(gs), ResourceBlocks(rs), Sent(text)))
  {
    BodyLength(gs, rs, text);
    InquiryRead(GuardBlocks(gs), ResourceBlocks(rs), if Labelled(text) then LabelTlv(text) else [], Sent(text));
  }

  lemma BodySplit(c: seq<byte>, g: seq<byte>, r: seq<byte>, tail: seq<byte>)
    ensures c + g + r + tail == c + (g + r + tail)
    ensures c + g + r + tail == c + g + (r + tail)
    ensures c + g + r + tail == (c + g) + r + tail
  {
  }

  lemma RequestPduRead(ttl: word32, gs: seq<Guard>, rs: seq<Resource>, text: seq<byte>)
    requires |RequestBody(gs, rs, text)| + PDU_HEADER_LEN <= MAX_PACKET && |Sent(text)| <= LABEL_CAP
    ensures ParseInquiry(Pdu(PDU_REQUEST, ttl, RequestBody(gs, rs, text)))
         == Ok(Inquiry(GuardBlocks(gs), ResourceBlocks(rs), Sent(text)))
    ensures Field(Pdu(PDU_REQUEST, ttl, RequestBody(gs, rs, text)), 4, 4) == ttl
  {
    BodyLength(gs, rs, text);
    PduRead(PDU_REQUEST, ttl, RequestBody(gs, rs, text));
    RequestBodyRead(gs, rs, text);
  }

  lemma ReportsRead(blocks: seq<seq<byte>>)
    requires Sized(blocks, REPORT_LEN) && |blocks| <= U16_MAX
    ensures var body := Counts(|blocks|, 0) + Flat(blocks);
      && |body| == 4 + REPORT_LEN * |blocks| && Word16(body, 0) == |blocks| && Word16(body, 2) == 0
      && Pieces(body, 4, REPORT_LEN, |blocks|) == blocks
  {
    var c, f := Counts(|blocks|, 0), Flat(blocks);
    FlatLength(blocks, REPORT_LEN);
    CountsRead(|blocks|, 0, f);
    PiecesAreBlocks(c, blocks, REPORT_LEN, []);
    NothingMore(c + f);
  }

  lemma NothingMore(b: seq<byte>)
    ensures b + [] == b
  {
  }

  lemma ReportPduRead(rs: seq<Report>)
    requires |ReportBody(rs)| + PDU_HEADER_LEN <= MAX_PACKET
    ensures ParseInquiry(Pdu(PDU_REPORT, 0, ReportBody(rs))) == Ok(Reports(ReportBlocks(rs)))
    ensures Field(Pdu(PDU_REPORT, 0, ReportBody(rs)), 4, 4) == 0 && Field(ReportBody(rs), 2, 2) == 0
    ensures forall i :: 0 <= i < |rs| ==> ReportOf(ReportBlocks(rs)[i]) == rs[i]
  {
    FlatLength(ReportBlocks(rs), REPORT_LEN);
    PduRead(PDU_REPORT, 0, ReportBody(rs));
    ReportsRead(ReportBlocks(rs));
    ReportsFrom(Pdu(PDU_REPORT, 0, ReportBody(rs)), ReportBlocks(rs));
    forall i | 0 <= i < |rs| ensures ReportOf(ReportBlocks(rs)[i]) == rs[i] {
      ReportRead(rs[i]);
    }
  }

  lemma ReportsFrom(pdu: seq<byte>, blocks: seq<seq<byte>>)
    requires |pdu| >= PDU_HEADER_LEN + 4 && Word16(pdu, 0) == PDU_REPORT && Word16(pdu, 2) == |pdu|
    requires var body := pdu[PDU_HEADER_LEN..];
      && |body| == 4 + REPORT_LEN * |blocks|
      && Word16(body, 0) == |blocks|
      && Pieces(body, 4, REPORT_LEN, |blocks|) == blocks
    ensures ParseInquiry(pdu) == Ok(Reports(blocks))
  {
  }

  // ---------- the answer ----------

  lemma AnswerGuardIs(scenario: Scenario, g: Guard)
    ensures AnswerGuard(scenario, GuardBlock(g, 0)) == GuardBlock(g, Latency(scenario, g.threshold))
  {
    GuardRead(g, 0);
    var a, b, c, d := LeBytes(g.ttl, 4), LeBytes(g.maxSamples, 4), LeBytes(g.minSamples, 4), LeBytes(g.threshold, 4);
    Front(g.id + a + b + c + d, LeBytes(0, 4));
  }

  lemma AnswerResourceIs(scenario: Scenario, r: Resource)
    ensures AnswerResource(scenario, ResourceBlock(r, r.tokens)) == ResourceBlock(r, Shortfall(scenario, r.tokens))
  {
    ResourceRead(r, r.tokens);
    var x := r.id + LeBytes(r.window, 4) + LeBytes(r.rate, 4);
    Front(x, LeBytes(r.tokens, 2) + LeBytes(0, 2));
    assert ResourceBlock(r, r.tokens) == x + (LeBytes(r.tokens, 2) + LeBytes(0, 2));
  }

  lemma Front(a: seq<byte>, b: seq<byte>)
    ensures (a + b)[..|a|] == a
  {
  }

  lemma SliceInside(b: seq<byte>, at: nat, w: seq<byte>, i: nat, j: nat)
    requires at + |w| <= |b| && b[at..at + |w|] == w && i <= j <= |w|
    ensures b[at + i..at + j] == w[i..j]
  {
    forall k | 0 <= k < j - i ensures b[at + i..at + j][k] == w[i..j][k] {
      assert b[at..at + |w|][i + k] == b[at + i + k];
    }
  }

  /** Reading a block inside a PDU is reading the block. */
  lemma GuardInside(pdu: seq<byte>, at: nat, g: Guard, current: word32)
    requires at + GUARD_LEN <= |pdu| && pdu[at..at + GUARD_LEN] == GuardBlock(g, current)
    ensures GuardAt(pdu, at) == GuardResult(g.id, g.threshold, current, current < g.threshold)
  {
    var w := GuardBlock(g, current);
    GuardRead(g, current);
    assert w[0..16] == w[..16];
    SliceInside(pdu, at, w, 0, 16);
    SliceInside(pdu, at, w, 28, 32);
    SliceInside(pdu, at, w, 32, 36);
  }

  lemma ResourceInside(pdu: seq<byte>, at: nat, r: Resource, last: word16)
    requires at + RESOURCE_LEN <= |pdu| && pdu[at..at + RESOURCE_LEN] == ResourceBlock(r, last)
    ensures ResourceAt(pdu, at) == ResourceResult(r.id, last, r.rate)
  {
    var w := ResourceBlock(r, last);
    ResourceRead(r, last);
    assert w[0..16] == w[..16];
    SliceInside(pdu, at, w, 0, 16);
    SliceInside(pdu, at, w, 20, 24);
    SliceInside(pdu, at, w, 24, 26);
  }

  // ---------- the whole exchange ----------

  /**
   What the client is told about a guard and a resource: a latency just below its threshold unless
   latency is denied, and a deficit of the tokens asked for, at least one, if tokens are denied.
   */
  function GuardTold(scenario: Scenario, g: Guard): GuardResult {
    if scenario.GuardDeny? then GuardResult(g.id, g.threshold, g.threshold, false)
    else if g.threshold == 0 then GuardResult(g.id, 0, 0, false)
    else GuardResult(g.id, g.threshold, g.threshold - 1, true)
  }

  function ResourceTold(scenario: Scenario, r: Resource): ResourceResult {
    ResourceResult(r.id, if scenario.Deny? then (if r.tokens > 1 then r.tokens else 1) else 0, r.rate)
  }

  ghost predicate Answers(scenario: Scenario, gs: seq<Guard>, rs: seq<Resource>, p: Parsed) {
    && |p.guards| == |gs| && (forall i :: 0 <= i < |gs| ==> p.guards[i] == GuardTold(scenario, gs[i]))
    && |p.resources| == |rs| && (forall i :: 0 <= i < |rs| ==> p.resources[i] == ResourceTold(scenario, rs[i]))
    && (p.success <==> AllPass(p.guards) && NoDeficit(p.resources))
  }

  /** The responder's answer blocks, as the client's blocks with new last fields. */
  lemma AnswerBlocks(scenario: Scenario, gs: seq<Guard>, rs: seq<Resource>)
    ensures forall i :: 0 <= i < |gs| ==>
      AnswerGuards(scenario, GuardBlocks(gs))[i] == GuardBlock(gs[i], Latency(scenario, gs[i].threshold))
    ensures forall i :: 0 <= i < |rs| ==>
      AnswerResources(scenario, ResourceBlocks(rs))[i] == ResourceBlock(rs[i], Shortfall(scenario, rs[i].tokens))
  {
    forall i | 0 <= i < |gs|
      ensures AnswerGuards(scenario, GuardBlocks(gs))[i] == GuardBlock(gs[i], Latency(scenario, gs[i].threshold))
    {
      AnswerGuardIs(scenario, gs[i]);
    }
    forall i | 0 <= i < |rs|
      ensures AnswerResources(scenario, ResourceBlocks(rs))[i]
        == ResourceBlock(rs[i], Shortfall(scenario, rs[i].tokens))
    {
      AnswerResourceIs(scenario, rs[i]);
    }
  }

  lemma PieceIsSlice(pdu: seq<byte>, head: nat, at: nat, n: nat, blocks: seq<seq<byte>>, i: nat)
    requires head <= |pdu| && at + n * |blocks| <= |pdu| - head && i < |blocks|
    requires Pieces(pdu[head..], at, n, |blocks|) == blocks
    ensures head + at + n * i + n <= |pdu|
    ensures pdu[head + at + n * i..head + at + n * i + n] == blocks[i]
  {
    PieceAt(pdu[head..], at, n, |blocks|, i);
    var k := at + n * i;
    assert pdu[head..][k..k + n] == pdu[head + k..head + k + n];
  }

  /** Guard blocks from byte 12 on, resource blocks right after them. */
  ghost predicate Laid(pdu: seq<byte>, gb: seq<seq<byte>>, rb: seq<seq<byte>>) {
    && Sized(gb, GUARD_LEN) && Sized(rb, RESOURCE_LEN)
    && |pdu| == 12 + GUARD_LEN * |gb| + RESOURCE_LEN * |rb|
    && (forall i :: 0 <= i < |gb| ==> pdu[12 + GUARD_LEN * i..12 + GUARD_LEN * i + GUARD_LEN] == gb[i])
    && (forall i :: 0 <= i < |rb| ==>
          pdu[12 + GUARD_LEN * |gb| + RESOURCE_LEN * i..12 + GUARD_LEN * |gb| + RESOURCE_LEN * i + RESOURCE_LEN]
            == rb[i])
  }

  lemma GuardsLaid(pdu: seq<byte>, gb: seq<seq<byte>>)
    requires 12 + GUARD_LEN * |gb| <= |pdu| && Pieces(pdu[8..], 4, GUARD_LEN, |gb|) == gb
    ensures forall i :: 0 <= i < |gb| ==> pdu[12 + GUARD_LEN * i..12 + GUARD_LEN * i + GUARD_LEN] == gb[i]
  {
    forall i | 0 <= i < |gb| ensures pdu[12 + GUARD_LEN * i..12 + GUARD_LEN * i + GUARD_LEN] == gb[i] {
      PieceIsSlice(pdu, 8, 4, GUARD_LEN, gb, i);
    }
  }

  lemma ResourcesLaid(pdu: seq<byte>, at: nat, rb: seq<seq<byte>>)
    requires 8 + at + RESOURCE_LEN * |rb| <= |pdu| && Pieces(pdu[8..], at, RESOURCE_LEN, |rb|) == rb
    ensures forall i :: 0 <= i < |rb| ==>
      pdu[8 + at + RESOURCE_LEN * i..8 + at + RESOURCE_LEN * i + RESOURCE_LEN] == rb[i]
  {
    forall i | 0 <= i < |rb| ensures pdu[8 + at + RESOURCE_LEN * i..8 + at + RESOURCE_LEN * i + RESOURCE_LEN] == rb[i] {
      PieceIsSlice(pdu, 8, at, RESOURCE_LEN, rb, i);
    }
  }

  lemma LaidBehindHeader(pdu: seq<byte>, gb: seq<seq<byte>>, rb: seq<seq<byte>>)
    requires Sized(gb, GUARD_LEN) && Sized(rb, RESOURCE_LEN)
    requires |pdu| == 12 + GUARD_LEN * |gb| + RESOURCE_LEN * |rb|
    requires Pieces(pdu[8..], 4, GUARD_LEN, |gb|) == gb
    requires Pieces(pdu[8..], 4 + GUARD_LEN * |gb|, RESOURCE_LEN, |rb|) == rb
    ensures Laid(pdu, gb, rb)
  {
    GuardsLaid(pdu, gb);
    ResourcesLaid(pdu, 4 + GUARD_LEN * |gb|, rb);
  }

  lemma HeaderRead(pdu: seq<byte>, body: seq<byte>, g: nat, r: nat)
    requires 4 <= |body| && |pdu| == 8 + |body| && pdu[8..] == body
    requires Field(pdu, 0, 2) == PDU_RESPONSE && Field(pdu, 2, 2) == |pdu|
    requires Word16(body, 0) == g && Word16(body, 2) == r && |body| == 4 + GUARD_LEN * g + RESOURCE_LEN * r
    ensures WellFormed(pdu) && GuardCount(pdu) == g && ResourceCount(pdu) == r
  {
    CountsInside(pdu, body);
  }

  /** The client's parser finds the blocks behind a response header. */
  lemma ResponseRead(gb: seq<seq<byte>>, rb: seq<seq<byte>>)
    requires Sized(gb, GUARD_LEN) && Sized(rb, RESOURCE_LEN)
    requires 4 + GUARD_LEN * |gb| + RESOURCE_LEN * |rb| <= MAX_PACKET
    ensures var pdu := Pdu(PDU_RESPONSE, 0, Counts(|gb|, |rb|) + Flat(gb) + Flat(rb));
      && WellFormed(pdu) && GuardCount(pdu) == |gb| && ResourceCount(pdu) == |rb| && Laid(pdu, gb, rb)
      && Field(pdu, 4, 4) == 0
  {
    var body := Counts(|gb|, |rb|) + Flat(gb) + Flat(rb);
    BlocksRead(gb, rb, []);
    NothingMore(body);
    PduRead(PDU_RESPONSE, 0, body);
    HeaderRead(Pdu(PDU_RESPONSE, 0, body), body, |gb|, |rb|);
    LaidBehindHeader(Pdu(PDU_RESPONSE, 0, body), gb, rb);
  }

  lemma CountsInside(pdu: seq<byte>, body: seq<byte>)
    requires |pdu| == 8 + |body| && pdu[8..] == body && 4 <= |body|
    ensures Word16(pdu, 8) == Word16(body, 0) && Word16(pdu, 10) == Word16(body, 2)
  {
    assert pdu[8..10] == body[0..2] && pdu[10..12] == body[2..4];
  }

  lemma GuardsRead(pdu: seq<byte>, scenario: Scenario, gs: seq<Guard>, gb: seq<seq<byte>>, rb: seq<seq<byte>>)
    requires Laid(pdu, gb, rb) && |gb| == |gs|
    requires forall i :: 0 <= i < |gs| ==> gb[i] == GuardBlock(gs[i], Latency(scenario, gs[i].threshold))
    ensures forall i :: 0 <= i < |gs| ==> ParsedGuards(pdu, |gs|)[i] == GuardTold(scenario, gs[i])
  {
    forall i | 0 <= i < |gs| ensures ParsedGuards(pdu, |gs|)[i] == GuardTold(scenario, gs[i]) {
      GuardInside(pdu, 12 + GUARD_LEN * i, gs[i], Latency(scenario, gs[i].threshold));
    }
  }

  lemma ResourcesRead(pdu: seq<byte>, scenario: Scenario, rs: seq<Resource>, gb: seq<seq<byte>>, rb: seq<seq<byte>>)
    requires Laid(pdu, gb, rb) && |rb| == |rs|
    requires forall i :: 0 <= i < |rs| ==> rb[i] == ResourceBlock(rs[i], Shortfall(scenario, rs[i].tokens))
    ensures forall i :: 0 <= i < |rs| ==>
      ParsedResources(pdu, 12 + GUARD_LEN * |gb|, |rs|)[i] == ResourceTold(scenario, rs[i])
  {
    forall i | 0 <= i < |rs|
      ensures ParsedResources(pdu, 12 + GUARD_LEN * |gb|, |rs|)[i] == ResourceTold(scenario, rs[i])
    {
      ResourceInside(pdu, 12 + GUARD_LEN * |gb| + RESOURCE_LEN * i, rs[i], Shortfall(scenario, rs[i].tokens));
    }
  }

  lemma ToldRead(pdu: seq<byte>, scenario: Scenario, gs: seq<Guard>, rs: seq<Resource>,
                 gb: seq<seq<byte>>, rb: seq<seq<byte>>)
    requires WellFormed(pdu) && GuardCount(pdu) == |gb| == |gs| && ResourceCount(pdu) == |rb| == |rs|
    requires Laid(pdu, gb, rb)
    requires forall i :: 0 <= i < |gs| ==> gb[i] == GuardBlock(gs[i], Latency(scenario, gs[i].threshold))
    requires forall i :: 0 <= i < |rs| ==> rb[i] == ResourceBlock(rs[i], Shortfall(scenario, rs[i].tokens))
    ensures ParseResponse(pdu).Ok? && Answers(scenario, gs, rs, ParseResponse(pdu).value)
  {
    GuardsRead(pdu, scenario, gs, gb, rb);
    ResourcesRead(pdu, scenario, rs, gb, rb);
  }

  /** The client reads the answer to its own blocks as one entry per request entry, in order. */
  lemma AnswerRead(scenario: Scenario, gs: seq<Guard>, rs: seq<Resource>, text: seq<byte>)
    requires 4 + GUARD_LEN * |gs| + RESOURCE_LEN * |rs| <= MAX_PACKET
    ensures var q := Inquiry(GuardBlocks(gs), ResourceBlocks(rs), text);
            var r := ParseResponse(Pdu(PDU_RESPONSE, 0, AnswerBody(scenario, q)));
            && r.Ok? && Answers(scenario, gs, rs, r.value)
            && Field(Pdu(PDU_RESPONSE, 0, AnswerBody(scenario, q)), 4, 4) == 0
  {
    var gb, rb := AnswerGuards(scenario, GuardBlocks(gs)), AnswerResources(scenario, ResourceBlocks(rs));
    var body := AnswerBody(scenario, Inquiry(GuardBlocks(gs), ResourceBlocks(rs), text));
    ResponseRead(gb, rb);
    AnswerBlocks(scenario, gs, rs);
    ToldRead(Pdu(PDU_RESPONSE, 0, body), scenario, gs, rs, gb, rb);
  }

  /** A success is exactly what the scenario and the thresholds say. */
  lemma SuccessMeans(scenario: Scenario, gs: seq<Guard>, rs: seq<Resource>, p: Parsed)
    requires Answers(scenario, gs, rs, p)
    ensures scenario.Allow? ==> (p.success <==> forall g :: g in gs ==> g.threshold > 0)
    ensures scenario.Deny? ==> (p.success <==> rs == [] && forall g :: g in gs ==> g.threshold > 0)
    ensures scenario.GuardDeny? ==> (p.success <==> gs == [])
  {
    PassMeans(scenario, gs, p.guards);
    DeficitMeans(scenario, rs, p.resources);
  }

  lemma PassMeans(scenario: Scenario, gs: seq<Guard>, told: seq<GuardResult>)
    requires |told| == |gs| && forall i :: 0 <= i < |gs| ==> told[i] == GuardTold(scenario, gs[i])
    ensures AllPass(told) <==> (if scenario.GuardDeny? then gs == [] else forall g :: g in gs ==> g.threshold > 0)
  {
    if AllPass(told) {
      forall g | g in gs ensures !scenario.GuardDeny? && g.threshold > 0 {
        var i :| 0 <= i < |gs| && gs[i] == g;
        assert told[i] in told;
      }
      assert gs != [] ==> gs[0] in gs;
    } else {
      var t :| t in told && !t.passed;
      var i :| 0 <= i < |told| && told[i] == t;
      assert gs[i] in gs;
    }
  }

  lemma DeficitMeans(scenario: Scenario, rs: seq<Resource>, told: seq<ResourceResult>)
    requires |told| == |rs| && forall i :: 0 <= i < |rs| ==> told[i] == ResourceTold(scenario, rs[i])
    ensures NoDeficit(told) <==> (scenario.Deny? ==> rs == [])
  {
    assert rs != [] ==> told[0] in told;
    if !NoDeficit(told) {
      var t :| t in told && t.deficit != 0;
    }
  }
}
