/** Encoded keys and credentials correspond one to one, up to letter case. */
module CredentialTheorems {
  import opened Machine
  import opened Bytes
  import opened Bech32
  import opened Regroup
  import opened Quota
  import opened Credential

  // ---------- bytes of regular symbols ----------

  lemma {:induction false} SymbolValBound(symbols: seq<five>)
    ensures 0 <= Val(32, symbols) < Pow2(5 * |symbols|)
  {
    if symbols != [] {
      var front := symbols[..|symbols| - 1];
      SymbolValBound(front);
      PlaceIsPow2(5);
      Pow2Adds(5 * |front|, 5);
      BelowScaled(Val(32, front), Pow2(5 * |front|), 32, symbols[|symbols| - 1]);
    }
  }

  lemma {:induction false} ByteDigitsVal(value: nat, n: nat)
    requires value < Pow2(8 * n)
    ensures Val(256, Digits(256, value, n)) == value
    decreases n
  {
    if n > 0 {
      assert value / 256 < Pow2(8 * (n - 1)) by {
        PlaceSteps(8);
        Pow2Adds(8 * (n - 1), 8);
      }
      ByteDigitsVal(value / 256, n - 1);
      ValSnoc(256, Digits(256, value / 256, n - 1), value % 256);
    }
  }

  lemma Cancel(d: int, q: int, p: nat)
    requires p > 0 && d * p < q * p
    ensures d < q
  {
  }

  lemma QuotientBelow(v: nat, p: nat, q: nat)
    requires p > 0 && v < q * p && v % p == 0
    ensures v / p < q && v == (v / p) * p
  {
    Cancel(v / p, q, p);
  }

  lemma BytesOfRegroups(symbols: seq<five>)
    requires Regular(symbols)
    ensures Regroups(symbols, BytesOf(symbols))
  {
    var spare, len := (5 * |symbols|) % 8, 5 * |symbols| / 8;
    SymbolValBound(symbols);
    PlaceIsPow2(spare);
    Pow2Adds(8 * len, spare);
    assert 5 * |symbols| == 8 * len + spare;
    QuotientBelow(Val(32, symbols), Place(spare), Pow2(8 * len));
    ByteDigitsVal(Val(32, symbols) / Place(spare), len);
  }

  // ---------- payloads ----------

  function Layout(keyId: nat, secret: seq<byte>, word: nat): seq<byte> {
    [1] + LeBytes(keyId, 8) + secret + LeBytes(word, 4)
  }

  lemma PayloadCut(b: seq<byte>)
    requires |b| == PAYLOAD_LEN && b[0] == 1
    ensures b == [1] + b[1..9] + b[9..41] + b[41..45]
  {
  }

  lemma FieldWritten(b: seq<byte>)
    requires |b| == 4 || |b| == 8
    ensures 0 <= LeValue(b) <= (if |b| == 4 then U32_MAX else U64_MAX)
    ensures LeBytes(LeValue(b), |b|) == b
  {
    Spans();
    WriteRead(b);
  }

  /** A readable payload is the layout of its key id, secret and one quota word. */
  lemma PayloadAnatomy(kind: Kind, b: seq<byte>) returns (word: nat)
    requires ReadPayload(kind, b).Some?
    ensures word <= U32_MAX
    ensures
      var c := ReadPayload(kind, b).value;
      && c.kind == kind && c.keyId <= U64_MAX && |c.secret| == 32
      && b == Layout(c.keyId, c.secret, word)
      && DecodeQuota(word) == Some(c.quotas)
  {
    word := LeValue(b[41..45]);
    FieldWritten(b[1..9]);
    FieldWritten(b[41..45]);
    PayloadCut(b);
  }

  lemma LayoutSlices(key: seq<byte>, secret: seq<byte>, word: seq<byte>)
    requires |key| == 8 && |secret| == 32 && |word| == 4
    ensures
      var b: seq<byte> := [1] + key + secret + word;
      |b| == PAYLOAD_LEN && b[0] == 1 && b[1..9] == key && b[9..41] == secret && b[41..45] == word
  {
  }

  lemma ReadLayout(kind: Kind, keyId: nat, secret: seq<byte>, word: nat, q: Quotas)
    requires keyId <= U64_MAX && |secret| == 32 && word <= U32_MAX && DecodeQuota(word) == Some(q)
    ensures ReadPayload(kind, Layout(keyId, secret, word)) == Some(Credential(kind, keyId, secret, q))
  {
    Spans();
    LayoutSlices(LeBytes(keyId, 8), secret, LeBytes(word, 4));
    ReadWritten(keyId, 8);
    ReadWritten(word, 4);
  }

  /** Equal credentials have equal payloads. */
  lemma PayloadInjective(kind: Kind, a: seq<byte>, b: seq<byte>)
    requires ReadPayload(kind, a).Some? && ReadPayload(kind, a) == ReadPayload(kind, b)
    ensures a == b
  {
    var v := PayloadAnatomy(kind, a);
    var w := PayloadAnatomy(kind, b);
    QuotaInjective(v, w);
  }

  // ---------- strings ----------

  lemma CharsOfValues(data: string)
    requires AllSymbols(data)
    ensures Chars(Values(data)) == data
  {
    forall i | 0 <= i < |data| ensures Chars(Values(data))[i] == data[i] {
      CharRoundTrip(data[i]);
    }
  }

  /** With one prefix and one payload, the checksum symbols are forced. */
  lemma TailForced(hrp: string, payload: seq<five>, a: seq<five>, b: seq<five>)
    requires Narrow(hrp)
    requires |a| == 6 && |b| == 6
    requires ChecksumOk(hrp, payload + a) && ChecksumOk(hrp, payload + b)
    ensures a == b
  {
    var before := Expand(hrp) + AsSymbols(payload);
    assert Expand(hrp) + AsSymbols(payload + a) == before + AsSymbols(a) + [];
    assert Expand(hrp) + AsSymbols(payload + b) == before + AsSymbols(b) + [];
    BurstDetected(before, AsSymbols(a), AsSymbols(b), []);
    AsSymbolsInjective(a, b);
  }

  /** Prefix, payload symbols and checksum symbols of a key for `c`. */
  ghost predicate Parts(c: Credential, hrp: string, payload: seq<five>, tail: seq<five>) {
    && |tail| == 6
    && Narrow(hrp)
    && KindOf(hrp) == Some(c.kind)
    && ChecksumOk(hrp, payload + tail)
    && Regular(payload)
    && ReadPayload(c.kind, BytesOf(payload)) == Some(c)
  }

  lemma KindRead(kind: Kind, b: seq<byte>)
    ensures ReadPayload(kind, b).Some? ==> ReadPayload(kind, b).value.kind == kind
  {
  }

  lemma DataParts(hrp: string, payload: seq<five>, tail: seq<five>)
    requires Narrow(hrp) && |tail| == 6 && DecodeData(hrp, payload + tail).Some?
    ensures Parts(DecodeData(hrp, payload + tail).value, hrp, payload, tail)
  {
    assert (payload + tail)[..|payload|] == payload;
    KindRead(KindOf(hrp).value, BytesOf(payload));
  }

  lemma LowerAnatomy(t: string) returns (hrp: string, payload: seq<five>, tail: seq<five>)
    requires Narrow(t) && DecodeLower(t).Some?
    ensures t == hrp + "1" + Chars(payload + tail)
    ensures Narrow(hrp) && |tail| == 6 && DecodeLower(t) == DecodeData(hrp, payload + tail)
  {
    var p := LastOne(t);
    var data := Values(t[p + 1..]);
    hrp, payload, tail := t[..p], data[..|data| - 6], data[|data| - 6..];
    CharsOfValues(t[p + 1..]);
    Apart(t, p, data);
  }

  /** An accepted string is a prefix, a separator, payload symbols and checksum symbols. */
  lemma Anatomy(s: string) returns (hrp: string, payload: seq<five>, tail: seq<five>)
    requires Decode(s).Some?
    ensures Lower(s) == hrp + "1" + Chars(payload + tail)
    ensures Parts(Decode(s).value, hrp, payload, tail)
  {
    LowerNarrow(s);
    hrp, payload, tail := LowerAnatomy(Lower(s));
    DataParts(hrp, payload, tail);
  }

  lemma Apart(t: string, p: nat, data: seq<five>)
    requires p < |t| && t[p] == '1' && 6 <= |data|
    ensures t == t[..p] + "1" + t[p + 1..]
    ensures data == data[..|data| - 6] + data[|data| - 6..]
  {
  }

  /** A credential determines prefix, payload symbols and checksum symbols. */
  lemma PartsForced(c: Credential, hrp: string, payload: seq<five>, tail: seq<five>, hrp': string,
                    payload': seq<five>, tail': seq<five>)
    requires Parts(c, hrp, payload, tail) && Parts(c, hrp', payload', tail')
    ensures hrp == hrp' && payload == payload' && tail == tail'
  {
    BytesOfRegroups(payload);
    BytesOfRegroups(payload');
    PayloadInjective(c.kind, BytesOf(payload), BytesOf(payload'));
    SymbolsUnique(payload, payload', BytesOf(payload));
    TailForced(hrp, payload, tail, tail');
  }

  /** Two accepted keys that decode to the same credential are the same key, up to letter case. */
  lemma DecodeInjective(s: string, t: string)
    requires Decode(s).Some? && Decode(s) == Decode(t)
    ensures Lower(s) == Lower(t)
  {
    var hrp, payload, tail := Anatomy(s);
    var hrp', payload', tail' := Anatomy(t);
    PartsForced(Decode(s).value, hrp, payload, tail, hrp', payload', tail');
  }

  // ---------- encoding ----------

  function Prefix(kind: Kind): (p: string)
    ensures Narrow(p)
  {
    if kind == Cookie then "rl-cookie" else "rl-aes"
  }

  function AsFives(s: seq<Symbol>): (v: seq<five>)
    ensures |v| == |s|
  {
    seq(|s|, i requires 0 <= i < |s| => s[i] as int)
  }

  lemma AsFivesBack(s: seq<Symbol>)
    ensures AsSymbols(AsFives(s)) == s
  {
    forall i | 0 <= i < |s| ensures AsSymbols(AsFives(s))[i] == s[i] {
      assert (s[i] as int) as bv5 == s[i];
    }
  }

  function ChecksumFives(kind: Kind, payload: seq<five>): (v: seq<five>)
    ensures |v| == 6
  {
    AsFives(Checksum(Expand(Prefix(kind)) + AsSymbols(payload)))
  }

  function EncodedData(kind: Kind, bytes: seq<byte>): seq<five> {
    Symbols(bytes) + ChecksumFives(kind, Symbols(bytes))
  }

  /** The lower-case key for a credential with this quota word. */
  function Encode(kind: Kind, keyId: nat, secret: seq<byte>, word: nat): string {
    Prefix(kind) + "1" + Chars(EncodedData(kind, Layout(keyId, secret, word)))
  }

  lemma AsSymbolsAppend(a: seq<five>, b: seq<five>)
    ensures AsSymbols(a + b) == AsSymbols(a) + AsSymbols(b)
  {
  }

  lemma EncodedPasses(kind: Kind, bytes: seq<byte>)
    ensures ChecksumOk(Prefix(kind), EncodedData(kind, bytes))
  {
    var payload := Symbols(bytes);
    var hrp := Expand(Prefix(kind));
    var before := hrp + AsSymbols(payload);
    AsFivesBack(Checksum(before));
    AsSymbolsAppend(payload, ChecksumFives(kind, payload));
    assert hrp + (AsSymbols(payload) + Checksum(before)) == before + Checksum(before);
    ChecksumPasses(before);
  }

  lemma ValuesOfChars(v: seq<five>)
    ensures AllSymbols(Chars(v)) && Values(Chars(v)) == v
    ensures Plain(Chars(v)) && forall i :: 0 <= i < |v| ==> Chars(v)[i] != '1'
  {
    forall i | 0 <= i < |v|
      ensures CharValue(Chars(v)[i]) == Some(v[i])
      ensures Chars(v)[i] != '1' && !IsUpper(Chars(v)[i]) && 33 <= Chars(v)[i] as int <= 126
    {
      ValueRoundTrip(v[i]);
      CharPlain(v[i]);
    }
  }

  lemma CharPlain(v: five)
    ensures ValueChar(v) != '1' && !IsUpper(ValueChar(v)) && 33 <= ValueChar(v) as int <= 126
  {
  }

  predicate Plain(s: string) {
    forall i :: 0 <= i < |s| ==> !IsUpper(s[i]) && 33 <= s[i] as int <= 126
  }

  /** A lower-case string is its own lower case, and the last '1' is the separator. */
  lemma JoinedShape(prefix: string, data: string)
    requires Plain(prefix) && Plain(data) && forall i :: 0 <= i < |data| ==> data[i] != '1'
    ensures
      var s := prefix + "1" + data;
      && OneCase(s) && Lower(s) == s && LastOne(s) == |prefix|
      && s[..|prefix|] == prefix && s[|prefix| + 1..] == data
  {
    var s := prefix + "1" + data;
    forall i | 0 <= i < |s| ensures !IsUpper(s[i]) && 33 <= s[i] as int <= 126 {
      assert i < |prefix| ==> s[i] == prefix[i];
      assert i == |prefix| ==> s[i] == '1';
      assert i > |prefix| ==> s[i] == data[i - |prefix| - 1];
    }
    assert s[|prefix|] == '1';
    assert forall i :: |prefix| < i < |s| ==> s[i] == data[i - |prefix| - 1];
  }

  /** What a prefix contributes to the checksum: the high part of each code, a zero, then the low parts. */
  lemma PrefixSpreads(hrp: string, i: nat, high: five, low: five)
    requires Narrow(hrp) && i < |hrp| && hrp[i] as int == 32 * high + low
    ensures |Expand(hrp)| == 2 * |hrp| + 1 && Expand(hrp)[|hrp|] == 0
    ensures Expand(hrp)[i] == high as bv5 && Expand(hrp)[|hrp| + 1 + i] == low as bv5
  {
    assert hrp[i] as int / 32 == high && hrp[i] as int % 32 == low;
  }

  lemma PrefixPlain(kind: Kind)
    ensures Plain(Prefix(kind)) && KindOf(Prefix(kind)) == Some(kind) && |Prefix(kind)| >= 1
  {
  }

  /** A well-formed lower-case key decodes to what its payload says. */
  lemma DecodeJoined(kind: Kind, payload: seq<five>, tail: seq<five>)
    requires |tail| == 6 && Regular(payload) && ChecksumOk(Prefix(kind), payload + tail)
    ensures Decode(Prefix(kind) + "1" + Chars(payload + tail)) == ReadPayload(kind, BytesOf(payload))
  {
    PrefixPlain(kind);
    ValuesOfChars(payload + tail);
    JoinedShape(Prefix(kind), Chars(payload + tail));
    assert (payload + tail)[..|payload|] == payload;
  }

  lemma RegularWhole(symbols: seq<five>, bytes: seq<byte>)
    requires Regroups(symbols, bytes)
    ensures Regular(symbols)
  {
    var p := Place((5 * |symbols|) % 8);
    RemainderIs(Val(32, symbols), Val(256, bytes), 0, p);
  }

  lemma SymbolsBack(bytes: seq<byte>)
    ensures Regular(Symbols(bytes)) && BytesOf(Symbols(bytes)) == bytes
  {
    SymbolsRegroup(bytes);
    RegularWhole(Symbols(bytes), bytes);
    BytesOfRegroups(Symbols(bytes));
    BytesUnique(Symbols(bytes), bytes, BytesOf(Symbols(bytes)));
  }

  /** Every credential with a legal quota word has a key, and the decoder reads it back. */
  lemma DecodeEncode(kind: Kind, keyId: nat, secret: seq<byte>, word: nat, q: Quotas)
    requires keyId <= U64_MAX && |secret| == 32 && word <= U32_MAX && DecodeQuota(word) == Some(q)
    ensures Decode(Encode(kind, keyId, secret, word)) == Some(Credential(kind, keyId, secret, q))
  {
    var bytes := Layout(keyId, secret, word);
    SymbolsBack(bytes);
    EncodedPasses(kind, bytes);
    DecodeJoined(kind, Symbols(bytes), ChecksumFives(kind, Symbols(bytes)));
    ReadLayout(kind, keyId, secret, word, q);
  }

  lemma EncodeIsLower(kind: Kind, bytes: seq<byte>)
    ensures
      var s := Prefix(kind) + "1" + Chars(EncodedData(kind, bytes));
      OneCase(s) && Lower(s) == s
  {
    PrefixPlain(kind);
    ValuesOfChars(EncodedData(kind, bytes));
    JoinedShape(Prefix(kind), Chars(EncodedData(kind, bytes)));
  }

  lemma SameLetters(s: string, t: string)
    requires OneCase(s) && OneCase(t) && Lower(s) == Lower(t)
    ensures Decode(s) == Decode(t)
  {
  }

  /** The same key in capitals. */
  function Capitals(s: string): (t: string)
    ensures |t| == |s|
  {
    seq(|s|, i requires 0 <= i < |s| => if 'a' <= s[i] <= 'z' then s[i] - ' ' else s[i])
  }

  lemma CapitalsFold(e: string)
    requires OneCase(e) && Lower(e) == e
    ensures OneCase(Capitals(e)) && Lower(Capitals(e)) == e
  {
    forall i | 0 <= i < |e| ensures LowerChar(Capitals(e)[i]) == e[i] && !IsLower(Capitals(e)[i]) {
      assert e[i] == LowerChar(e[i]);
    }
  }

  lemma TwoSpellings(s: string, e: string)
    requires OneCase(e) && Lower(e) == e
    ensures OneCase(s) && Lower(s) == e <==> s == e || s == Capitals(e)
  {
    CapitalsFold(e);
    if OneCase(s) && Lower(s) == e {
      forall i | 0 <= i < |s|
        ensures !IsUpper(s[i]) ==> s[i] == e[i]
        ensures !IsLower(s[i]) ==> s[i] == Capitals(e)[i]
      {
        assert e[i] == LowerChar(s[i]);
      }
    }
  }

  lemma WordExact(s: string, kind: Kind, keyId: nat, secret: seq<byte>, word: nat, q: Quotas)
    requires keyId <= U64_MAX && |secret| == 32 && word <= U32_MAX && DecodeQuota(word) == Some(q)
    ensures Decode(s) == Some(Credential(kind, keyId, secret, q))
       <==> s == Encode(kind, keyId, secret, word) || s == Capitals(Encode(kind, keyId, secret, word))
  {
    var e := Encode(kind, keyId, secret, word);
    DecodeEncode(kind, keyId, secret, word, q);
    EncodeIsLower(kind, Layout(keyId, secret, word));
    TwoSpellings(s, e);
    if Decode(s) == Decode(e) {
      DecodeInjective(s, e);
    }
    if OneCase(s) && Lower(s) == e {
      SameLetters(s, e);
    }
  }

  /**
   The keys of a credential are exactly the two spellings, all lower case or all upper case, of its
   one encoding; the quotas are told by their exponents and units, and packed into that encoding.
   */
  lemma DecodeExact(s: string, kind: Kind, keyId: nat, secret: seq<byte>,
                    rate: nat, latency: nat, labels: nat, buffer: nat, dedup: nat, window: nat)
    requires keyId <= U64_MAX && |secret| == 32 && Legal(rate, latency, labels, buffer, dedup, window)
    ensures var e := Encode(kind, keyId, secret, QuotaWord(rate, latency, labels, buffer, dedup, window));
      Decode(s) == Some(Credential(kind, keyId, secret, Granted(rate, latency, labels, buffer, dedup, window)))
      <==> s == e || s == Capitals(e)
  {
    SplitWord(rate, latency, labels, buffer, dedup, window);
    QuotaOfFields(rate, latency, labels, buffer, dedup, window);
    WordExact(s, kind, keyId, secret, QuotaWord(rate, latency, labels, buffer, dedup, window),
              Granted(rate, latency, labels, buffer, dedup, window));
  }

  /** And nothing else decodes: an accepted key is the key of some credential with legal quotas. */
  lemma DecodeComplete(s: string) returns (f: Fields)
    requires Decode(s).Some?
    ensures Legal(f.rate, f.latency, f.labels, f.buffer, f.dedup, f.window)
    ensures Decode(s).value.quotas == Granted(f.rate, f.latency, f.labels, f.buffer, f.dedup, f.window)
    ensures Decode(s).value.keyId <= U64_MAX && |Decode(s).value.secret| == 32
  {
    var hrp, payload, tail := Anatomy(s);
    var word := PayloadAnatomy(Decode(s).value.kind, BytesOf(payload));
    f := WordOfFields(word);
    QuotaOfFields(f.rate, f.latency, f.labels, f.buffer, f.dedup, f.window);
  }
}
