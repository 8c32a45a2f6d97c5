/** The bytes that bucket and latency-tracker ids are hashed from. */
module ContentId {
  import opened Machine
  import opened Bytes

  /** What an id names: a bucket with its window and limit, or a tracker with its three parameters. */
  datatype Subject =
    | Bucket(window: word32, limit: word32)
    | Tracker(ttl: word32, maxSamples: word32, minSamples: word32)

  function Code(c: char): byte { if c as int < 256 then c as int else 0 }

  function Text(s: string): (b: seq<byte>)
    ensures |b| == |s|
  {
    seq(|s|, i requires 0 <= i < |s| => Code(s[i]))
  }

  /** The domain strings are hashed with their terminator. */
  function Domain(s: Subject): seq<byte> {
    match s
    case Bucket(_, _) => Text("ratelimitly.resource.v1") + [0]
    case Tracker(_, _, _) => Text("ratelimitly.latency-tracker.v2") + [0]
  }

  function Fields(s: Subject): seq<word32> {
    match s
    case Bucket(window, limit) => [window, limit]
    case Tracker(ttl, maxSamples, minSamples) => [ttl, maxSamples, minSamples]
  }

  function FieldBytes(fields: seq<word32>): (b: seq<byte>)
    ensures |b| == 4 * |fields|
  {
    if fields == [] then [] else FieldBytes(fields[..|fields| - 1]) + LeBytes(fields[|fields| - 1], 4)
  }

  function Preimage(s: Subject, name: seq<byte>): seq<byte> {
    Domain(s) + LeBytes(|name|, 4) + name + FieldBytes(Fields(s))
  }

  /** The digest's input, fed piece by piece; a name too long for its length field is refused. */
  method Feed(s: Subject, name: seq<byte>) returns (r: Option<seq<byte>>)
    ensures r.Some? <==> |name| <= U32_MAX
    ensures r.Some? ==> r.value == Preimage(s, name)
  {
    if |name| > U32_MAX {
      return None;
    }
    var head := Domain(s) + LeBytes(|name|, 4) + name;
    var fields, out := Fields(s), head;
    for i := 0 to |fields|
      invariant out == head + FieldBytes(fields[..i])
    {
      out := out + LeBytes(fields[i], 4);
      FieldsGrow(head, fields, i);
    }
    assert fields[..|fields|] == fields;
    r := Some(out);
  }

  lemma FieldsGrow(head: seq<byte>, fields: seq<word32>, i: nat)
    requires i < |fields|
    ensures head + FieldBytes(fields[..i]) + LeBytes(fields[i], 4) == head + FieldBytes(fields[..i + 1])
  {
    assert fields[..i + 1][..i] == fields[..i];
  }

  lemma LastApart(fields: seq<word32>)
    requires fields != []
    ensures FieldBytes(fields) == FieldBytes(fields[..|fields| - 1]) + LeBytes(fields[|fields| - 1], 4)
  {
  }

  lemma SameEnds(a: seq<word32>, b: seq<word32>, n: nat)
    requires |a| == |b| == n + 1 && a[..n] == b[..n] && a[n] == b[n]
    ensures a == b
  {
    assert a == a[..n] + [a[n]] && b == b[..n] + [b[n]];
  }

  lemma {:induction false} FieldsInjective(a: seq<word32>, b: seq<word32>)
    requires |a| == |b| && FieldBytes(a) == FieldBytes(b)
    ensures a == b
  {
    if a != [] {
      var n := |a| - 1;
      LastApart(a);
      LastApart(b);
      LastField(FieldBytes(a[..n]), a[n], FieldBytes(b[..n]), b[n]);
      FieldsInjective(a[..n], b[..n]);
      SameEnds(a, b, n);
    }
  }

  lemma LastField(x: seq<byte>, u: word32, y: seq<byte>, v: word32)
    requires |x| == |y| && x + LeBytes(u, 4) == y + LeBytes(v, 4)
    ensures u == v && x == y
  {
    Halves(x, LeBytes(u, 4), y, LeBytes(v, 4));
    Spans();
    ReadWritten(u, 4);
    ReadWritten(v, 4);
  }

  lemma Halves(x: seq<byte>, u: seq<byte>, y: seq<byte>, v: seq<byte>)
    requires |x| == |y| && x + u == y + v
    ensures x == y && u == v
  {
    assert x == (x + u)[..|x|] && y == (y + v)[..|y|];
    assert u == (x + u)[|x|..] && v == (y + v)[|y|..];
  }

  /** The two domains differ at their thirteenth byte, so neither is a prefix of the other. */
  lemma DomainsDiffer(s: Subject, t: Subject)
    requires |Domain(s)| > 12 && |Domain(t)| > 12 && Domain(s)[12] == Domain(t)[12]
    ensures s.Bucket? <==> t.Bucket?
  {
    assert Text("ratelimitly.resource.v1")[12] == Code('r');
    assert Text("ratelimitly.latency-tracker.v2")[12] == Code('l');
  }

  lemma Peel(d: seq<byte>, n: seq<byte>, name: seq<byte>, f: seq<byte>, p: seq<byte>)
    requires p == d + n + name + f && |n| == 4
    ensures p[..|d|] == d && p[|d|..|d| + 4] == n && p[|d| + 4..|d| + 4 + |name|] == name
    ensures p[|d| + 4 + |name|..] == f
  {
  }

  /** Different subjects or different names never hash the same bytes. */
  lemma PreimageInjective(s: Subject, a: seq<byte>, t: Subject, b: seq<byte>)
    requires |a| <= U32_MAX && |b| <= U32_MAX && Preimage(s, a) == Preimage(t, b)
    ensures s == t && a == b
  {
    var p := Preimage(s, a);
    Peel(Domain(s), LeBytes(|a|, 4), a, FieldBytes(Fields(s)), p);
    Peel(Domain(t), LeBytes(|b|, 4), b, FieldBytes(Fields(t)), p);
    assert Domain(s)[12] == p[12] && Domain(t)[12] == p[12];
    DomainsDiffer(s, t);
    Spans();
    ReadWritten(|a|, 4);
    ReadWritten(|b|, 4);
    FieldsInjective(Fields(s), Fields(t));
  }

  lemma FieldsOfBucket(a: word32, b: word32)
    ensures FieldBytes([a, b]) == LeBytes(a, 4) + LeBytes(b, 4)
  {
    assert [a, b][..1] == [a] && [a][..0] == [];
    assert FieldBytes([a]) == [] + LeBytes(a, 4);
  }

  lemma FieldsOfTracker(a: word32, b: word32, c: word32)
    ensures FieldBytes([a, b, c]) == LeBytes(a, 4) + LeBytes(b, 4) + LeBytes(c, 4)
  {
    LastApart([a, b, c]);
    assert [a, b, c][..2] == [a, b];
    FieldsOfBucket(a, b);
  }

  lemma Slices(p: seq<byte>, at: nat, x: seq<byte>, y: seq<byte>, z: seq<byte>)
    requires at <= |p| && p[at..] == x + y + z && |x| == 4 && |y| == 4
    ensures |p| == at + 8 + |z| && p[at..at + 4] == x && p[at + 4..at + 8] == y && p[at + 8..] == z
  {
    assert p[at..][..4] == x && p[at..][4..8] == y && p[at..][8..] == z;
  }

  lemma DomainLength(s: Subject)
    ensures |Domain(s)| == (if s.Bucket? then 24 else 31) && Domain(s)[|Domain(s)| - 1] == 0
  {
    assert |Text("ratelimitly.resource.v1")| == 23 && |Text("ratelimitly.latency-tracker.v2")| == 30;
  }

  lemma FourBack(v: nat)
    requires v <= U32_MAX
    ensures LeValue(LeBytes(v, 4)) == v
  {
    Spans();
    ReadWritten(v, 4);
  }

  /** Where the name lies in what is hashed: behind the domain with its terminator and the name's length. */
  lemma NameInPreimage(s: Subject, name: seq<byte>)
    requires |name| <= U32_MAX
    ensures
      var p, d, n := Preimage(s, name), (if s.Bucket? then 24 else 31), |name|;
      && |p| == d + 4 + n + (if s.Bucket? then 8 else 12) && p[d - 1] == 0
      && LeValue(p[d..d + 4]) == n && p[d + 4..d + 4 + n] == name && p[d + 4 + n..] == FieldBytes(Fields(s))
  {
    DomainLength(s);
    Peel(Domain(s), LeBytes(|name|, 4), name, FieldBytes(Fields(s)), Preimage(s, name));
    FourBack(|name|);
    assert Preimage(s, name)[|Domain(s)| - 1] == Preimage(s, name)[..|Domain(s)|][|Domain(s)| - 1];
  }

  /** And where the parameters lie: a bucket's window and limit, a tracker's lifetime and sample bounds. */
  lemma FieldsInPreimage(s: Subject, name: seq<byte>)
    requires |name| <= U32_MAX
    ensures
      var p, at := Preimage(s, name), (if s.Bucket? then 28 else 35) + |name|;
      && |p| >= at + 8
      && LeValue(p[at..at + 4]) == (if s.Bucket? then s.window else s.ttl)
      && LeValue(p[at + 4..at + 8]) == (if s.Bucket? then s.limit else s.maxSamples)
      && (s.Tracker? ==> LeValue(p[at + 8..]) == s.minSamples)
  {
    NameInPreimage(s, name);
    var p, at := Preimage(s, name), (if s.Bucket? then 28 else 35) + |name|;
    match s
    case Bucket(window, limit) =>
      FieldsOfBucket(window, limit);
      assert LeBytes(window, 4) + LeBytes(limit, 4) + [] == LeBytes(window, 4) + LeBytes(limit, 4);
      Slices(p, at, LeBytes(window, 4), LeBytes(limit, 4), []);
      FourBack(window);
      FourBack(limit);
    case Tracker(ttl, maxSamples, minSamples) =>
      FieldsOfTracker(ttl, maxSamples, minSamples);
      Slices(p, at, LeBytes(ttl, 4), LeBytes(maxSamples, 4), LeBytes(minSamples, 4));
      FourBack(ttl);
      FourBack(maxSamples);
      FourBack(minSamples);
  }
}
