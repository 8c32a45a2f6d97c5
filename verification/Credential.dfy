/**
 Decoding an encoded API key: case check, separator, symbols, checksum,
 regrouping, prefix, payload layout and quotas, in the source's order.
 */
module Credential {
  import opened Machine
  import opened Bytes
  import opened Bech32
  import opened Regroup
  import opened Quota

  datatype Kind = Cookie | Aes

  datatype Credential = Credential(kind: Kind, keyId: nat, secret: seq<byte>, quotas: Quotas)

  // ---------- characters ----------

  function CharValue(c: char): Option<five> {
    match c
    case 'q' => Some(0) case 'p' => Some(1) case 'z' => Some(2) case 'r' => Some(3)
    case 'y' => Some(4) case '9' => Some(5) case 'x' => Some(6) case '8' => Some(7)
    case 'g' => Some(8) case 'f' => Some(9) case '2' => Some(10) case 't' => Some(11)
    case 'v' => Some(12) case 'd' => Some(13) case 'w' => Some(14) case '0' => Some(15)
    case 's' => Some(16) case '3' => Some(17) case 'j' => Some(18) case 'n' => Some(19)
    case '5' => Some(20) case '4' => Some(21) case 'k' => Some(22) case 'h' => Some(23)
    case 'c' => Some(24) case 'e' => Some(25) case '6' => Some(26) case 'm' => Some(27)
    case 'u' => Some(28) case 'a' => Some(29) case '7' => Some(30) case 'l' => Some(31)
    case _ => None
  }

  function ValueChar(v: five): char {
    "qpzry9x8gf2tvdw0s3jn54khce6mua7l"[v]
  }

  lemma CharRoundTrip(c: char)
    ensures CharValue(c).Some? ==> ValueChar(CharValue(c).value) == c
    ensures CharValue('1').None?
  {
  }

  lemma ValueRoundTrip(v: five)
    ensures CharValue(ValueChar(v)) == Some(v)
  {
  }

  predicate IsLower(c: char) { 'a' <= c <= 'z' }

  predicate IsUpper(c: char) { 'A' <= c <= 'Z' }

  function LowerChar(c: char): char {
    if IsUpper(c) then (c as int + 32) as char else c
  }

  function Lower(s: string): (t: string)
    ensures |t| == |s|
  {
    seq(|s|, i requires 0 <= i < |s| => LowerChar(s[i]))
  }

  /** Printable, and not of mixed case. */
  predicate OneCase(s: string) {
    && s != []
    && (forall i :: 0 <= i < |s| ==> 33 <= s[i] as int <= 126)
    && !((exists i :: 0 <= i < |s| && IsLower(s[i])) && (exists i :: 0 <= i < |s| && IsUpper(s[i])))
  }

  /** Index of the last '1', or -1. */
  function LastOne(s: string): (p: int)
    ensures -1 <= p < |s|
    ensures p >= 0 ==> s[p] == '1'
    ensures forall i :: p < i < |s| ==> s[i] != '1'
  {
    if s == [] then -1
    else if s[|s| - 1] == '1' then |s| - 1
    else LastOne(s[..|s| - 1])
  }

  predicate AllSymbols(data: string) {
    forall i :: 0 <= i < |data| ==> CharValue(data[i]).Some?
  }

  function Values(data: string): (v: seq<five>)
    requires AllSymbols(data)
    ensures |v| == |data|
  {
    seq(|data|, i requires 0 <= i < |data| => CharValue(data[i]).value)
  }

  function Chars(v: seq<five>): (s: string)
    ensures |s| == |v|
  {
    seq(|v|, i requires 0 <= i < |v| => ValueChar(v[i]))
  }

  // ---------- checksum ----------

  function AsSymbols(v: seq<five>): (s: seq<Symbol>)
    ensures |s| == |v|
  {
    seq(|v|, i requires 0 <= i < |v| => v[i] as bv5)
  }

  lemma SymbolInjective(a: five, b: five)
    requires a as bv5 == b as bv5
    ensures a == b
  {
    assert (a as bv5) as int == a;
    assert (b as bv5) as int == b;
  }

  lemma AsSymbolsInjective(a: seq<five>, b: seq<five>)
    requires AsSymbols(a) == AsSymbols(b)
    ensures a == b
  {
    forall i | 0 <= i < |a| ensures a[i] == b[i] {
      assert AsSymbols(a)[i] == AsSymbols(b)[i];
      SymbolInjective(a[i], b[i]);
    }
  }

  /** A prefix spread over high bits, a zero, and low bits. */
  function Expand(hrp: string): seq<Symbol>
    requires Narrow(hrp)
  {
    seq(|hrp|, i requires 0 <= i < |hrp| => (hrp[i] as int / 32) as bv5)
    + [0]
    + seq(|hrp|, i requires 0 <= i < |hrp| => (hrp[i] as int % 32) as bv5)
  }

  predicate ChecksumOk(hrp: string, data: seq<five>)
    requires Narrow(hrp)
  {
    Polymod(Expand(hrp) + AsSymbols(data)) == ONE
  }

  // ---------- payload ----------

  /** The whole bytes of regular symbols. */
  function BytesOf(symbols: seq<five>): (b: seq<byte>) {
    ValNonneg(32, symbols);
    Digits(256, Val(32, symbols) / Place((5 * |symbols|) % 8), 5 * |symbols| / 8)
  }

  const PAYLOAD_LEN := 45

  function ReadPayload(kind: Kind, b: seq<byte>): Option<Credential> {
    if |b| != PAYLOAD_LEN || b[0] != 1 then None
    else
      match DecodeQuota(LeValue(b[41..45]))
      case None => None
      case Some(q) => Some(Credential(kind, LeValue(b[1..9]), b[9..41], q))
  }

  function KindOf(hrp: string): Option<Kind> {
    if hrp == "rl-cookie" then Some(Cookie) else if hrp == "rl-aes" then Some(Aes) else None
  }

  predicate Narrow(s: string) { forall i :: 0 <= i < |s| ==> s[i] as int < 256 }

  /** Checksum, regrouping, prefix and payload, once the symbols are known. */
  function DecodeData(hrp: string, data: seq<five>): Option<Credential>
    requires |data| >= 6 && Narrow(hrp)
  {
    var payload := data[..|data| - 6];
    if !ChecksumOk(hrp, data) || !Regular(payload) || KindOf(hrp).None? then None
    else ReadPayload(KindOf(hrp).value, BytesOf(payload))
  }

  /** A key in lower case: the last '1' separates prefix and symbols. */
  function DecodeLower(t: string): Option<Credential>
    requires Narrow(t)
  {
    var p := LastOne(t);
    if p < 1 || |t| - p - 1 < 6 || !AllSymbols(t[p + 1..]) then None
    else DecodeData(t[..p], Values(t[p + 1..]))
  }

  function Decode(s: string): Option<Credential> {
    if !OneCase(s) then None
    else
      LowerNarrow(s);
      DecodeLower(Lower(s))
  }

  lemma LowerNarrow(s: string)
    requires OneCase(s)
    ensures Narrow(Lower(s))
  {
  }
}
