/** The decoder's loops, proved to compute `Decode`. */
module CredentialDecoder {
  import opened Machine
  import opened Bytes
  import opened Bech32
  import opened Regroup
  import opened Quota
  import opened Credential
  import opened CredentialTheorems

  method ScanCase(s: string) returns (ok: bool)
    ensures ok <==> OneCase(s)
  {
    if s == [] {
      return false;
    }
    var lower, upper := false, false;
    for i := 0 to |s|
      invariant forall j :: 0 <= j < i ==> 33 <= s[j] as int <= 126
      invariant lower <==> exists j :: 0 <= j < i && IsLower(s[j])
      invariant upper <==> exists j :: 0 <= j < i && IsUpper(s[j])
    {
      if s[i] as int < 33 || s[i] as int > 126 {
        return false;
      }
      lower := lower || IsLower(s[i]);
      upper := upper || IsUpper(s[i]);
    }
    ok := !(lower && upper);
  }

  method ToLower(s: string) returns (t: string)
    ensures t == Lower(s)
  {
    t := [];
    for i := 0 to |s|
      invariant |t| == i && forall j :: 0 <= j < i ==> t[j] == LowerChar(s[j])
    {
      t := t + [LowerChar(s[i])];
    }
  }

  /** `strrchr(s, '1')`. */
  method FindSeparator(s: string) returns (p: int)
    ensures p == LastOne(s)
  {
    p := -1;
    for i := 0 to |s|
      invariant p == LastOne(s[..i])
    {
      assert s[..i + 1][..i] == s[..i];
      if s[i] == '1' {
        p := i;
      }
    }
    assert s[..|s|] == s;
  }

  method ReadSymbols(data: string) returns (r: Option<seq<five>>)
    ensures r.Some? <==> AllSymbols(data)
    ensures r.Some? ==> r.value == Values(data)
  {
    var v: seq<five> := [];
    for i := 0 to |data|
      invariant |v| == i && forall j :: 0 <= j < i ==> CharValue(data[j]) == Some(v[j])
    {
      var x := CharValue(data[i]);
      if x.None? {
        return None;
      }
      v := v + [x.value];
    }
    return Some(v);
  }

  lemma PackOne(a: bv5, b: bv5, c: bv5, d: bv5, e: bv5, f: bv5)
    requires Pack(a, b, c, d, e, f) == 1
    ensures a == 0 && b == 0 && c == 0 && d == 0 && e == 0 && f == 1
  {
  }

  /** The 32-bit comparison with 1 is the comparison of registers. */
  lemma WordOne(r: Register)
    ensures Word(r) == 1 <==> r == ONE
  {
    if Word(r) == 1 {
      PackOne(r[0], r[1], r[2], r[3], r[4], r[5]);
    }
  }

  method ExpandPrefix(hrp: string) returns (values: seq<Symbol>)
    requires Narrow(hrp)
    ensures values == Expand(hrp)
  {
    values := [];
    for i := 0 to |hrp|
      invariant |values| == i && values == Expand(hrp)[..i]
    {
      values := values + [(hrp[i] as int / 32) as bv5];
    }
    values := values + [0];
    for i := 0 to |hrp|
      invariant |values| == |hrp| + 1 + i && values == Expand(hrp)[..|hrp| + 1 + i]
    {
      values := values + [(hrp[i] as int % 32) as bv5];
    }
    assert values == Expand(hrp);
  }

  method VerifyChecksum(hrp: string, data: seq<five>) returns (ok: bool)
    requires Narrow(hrp)
    ensures ok <==> ChecksumOk(hrp, data)
  {
    var values := ExpandPrefix(hrp);
    values := values + AsSymbols(data);
    var chk := ComputePolymod(values);
    WordOne(Polymod(values));
    ok := chk == 1;
  }

  method ReadKind(hrp: string, payload: seq<byte>) returns (r: Option<Credential>)
    ensures r == if KindOf(hrp).None? then None else ReadPayload(KindOf(hrp).value, payload)
  {
    var kind := KindOf(hrp);
    if kind.None? || |payload| != PAYLOAD_LEN || payload[0] != 1 {
      return None;
    }
    var key, secret := LeValue(payload[1..9]), payload[9..41];
    var quotas := DecodeQuota(LeValue(payload[41..45]));
    if quotas.None? {
      return None;
    }
    return Some(Credential(kind.value, key, secret, quotas.value));
  }

  /** Checksum, regrouping and payload, once the symbols are known. */
  method ReadData(hrp: string, data: seq<five>) returns (r: Option<Credential>)
    requires |data| >= 6 && Narrow(hrp)
    ensures r == DecodeData(hrp, data)
  {
    var ok := VerifyChecksum(hrp, data);
    if !ok {
      return None;
    }
    var payload := data[..|data| - 6];
    var bytes := RegroupBytes(payload, 5 * |payload| / 8 + 2);
    if bytes.None? {
      return None;
    }
    BytesOfRegroups(payload);
    BytesUnique(payload, bytes.value, BytesOf(payload));
    r := ReadKind(hrp, bytes.value);
  }

  method DecodeKey(encoded: string) returns (r: Option<Credential>)
    ensures r == Decode(encoded)
  {
    var ok := ScanCase(encoded);
    if !ok {
      return None;
    }
    var s := ToLower(encoded);
    var sep := FindSeparator(s);
    if sep < 1 || |s| - sep - 1 < 6 {
      return None;
    }
    var data := ReadSymbols(s[sep + 1..]);
    if data.None? {
      return None;
    }
    r := ReadData(s[..sep], data.value);
  }
}
