/** A save from end to end: what the guest encodes and sums, found again in the console,
    decoded, and taken only if it is what was sent. */
module Download {
  import opened Decimals
  import opened Options
  import opened Framing
  import Base64
  import Cksum
  import opened Widths

  function Octets(bytes: seq<Base64.Byte>): (r: seq<Cksum.Byte>)
    ensures |r| == |bytes|
  {
    seq(|bytes|, i requires 0 <= i < |bytes| => bytes[i] as bv8)
  }

  /** What `cksum` prints. */
  function Sum(bytes: seq<Base64.Byte>): nat { Cksum.Checksum(Octets(bytes)) as int }

  /** What the page makes of a capture: the bytes, if they decode and both numbers agree. */
  function Taken(c: Capture): Option<seq<Base64.Byte>> {
    var bin := Base64.Decode(c.text);
    if bin.Some? && ParseDecimal(c.length) == Some(|bin.value|) && ParseDecimal(c.sum) == Some(Sum(bin.value))
    then bin else None
  }

  /** What the guest prints for an archive: its size, its sum, and its encoding, broken into
      lines however the console likes. */
  ghost predicate Tells(k: Console, bytes: seq<Base64.Byte>) {
    k.length == Decimal(|bytes|) && k.sum == Decimal(Sum(bytes)) && Squeezed(k.body) == Base64.Encode(bytes)
  }

  /** Found among whatever else the console shows, the first thing the page's pattern
      captures is the archive, byte for byte, and the page takes it. */
  lemma DownloadArrives(k: Console, n: nat, bytes: seq<Base64.Byte>)
    requires Printed(k) && Tells(k, bytes) && EndAt(k) + |END| <= n <= |Stream(k)|
    ensures var t := Stream(k)[..n];
            && MatchAt(t, |k.before|) && (forall i :: 0 <= i < |k.before| ==> !MatchAt(t, i))
            && forall a, b, c, d, e :: FrameAt(t, |k.before|, a, b, c, d, e) ==>
                 Taken(Captured(t, a, b, c, d, e)) == Some(bytes)
  {
    hide Taken, Captured, FrameAt, MatchAt, Printed, Stream;
    FrameIsFound(k, n);
    TakesWhatWasTold(Capture(k.length, k.sum, Squeezed(k.body)), bytes);
  }

  lemma TakesWhatWasTold(c: Capture, bytes: seq<Base64.Byte>)
    requires c == Capture(Decimal(|bytes|), Decimal(Sum(bytes)), Base64.Encode(bytes))
    ensures Taken(c) == Some(bytes)
  {
    hide Decimal, ParseDecimal, Sum, Base64.Encode, Base64.Decode;
    DecimalParses(|bytes|);
    DecimalParses(Sum(bytes));
    EncodedDecodes(bytes);
  }

  lemma EncodedDecodes(bytes: seq<Base64.Byte>)
    ensures Base64.Decode(Base64.Encode(bytes)) == Some(bytes)
  {
    assert Base64.Decode("") == Some([]);
    hide Base64.Encode, Base64.Decode;
    Base64.EncodeDecodes(bytes, "");
    assert Base64.Encode(bytes) + "" == Base64.Encode(bytes) && bytes + [] == bytes;
  }

  // ---- damage ---------------------------------------------------------------------

  lemma OctetsJoined(a: seq<Base64.Byte>, b: seq<Base64.Byte>)
    ensures Octets(a + b) == Octets(a) + Octets(b)
  {}

  lemma OctetsTell(u: seq<Base64.Byte>, v: seq<Base64.Byte>)
    requires |u| == |v| && Octets(u) == Octets(v)
    ensures u == v
  {
    forall i | 0 <= i < |u| ensures u[i] == v[i] {
      OctetBack(u[i]);
      OctetBack(v[i]);
      assert Octets(u)[i] == Octets(v)[i];
    }
  }

  /** Whatever reached the page instead: if its length is another, or it differs only inside
      four bytes, the page does not take it. */
  lemma DamageIsRefused(c: Capture, sent: seq<Base64.Byte>, got: seq<Base64.Byte>,
                        before: seq<Base64.Byte>, u: seq<Base64.Byte>, v: seq<Base64.Byte>, after: seq<Base64.Byte>)
    requires c.length == Decimal(|sent|) && c.sum == Decimal(Sum(sent)) && Base64.Decode(c.text) == Some(got)
    requires |got| != |sent| || (sent == before + u + after && got == before + v + after && |u| <= 4 && u != v)
    ensures Taken(c).None?
  {
    hide Decimal, ParseDecimal, Sum, Base64.Encode, Base64.Decode;
    DecimalParses(|sent|);
    DecimalParses(Sum(sent));
    if |got| == |sent| {
      SumsDiffer(before, u, v, after);
    }
  }

  lemma SumsDiffer(before: seq<Base64.Byte>, u: seq<Base64.Byte>, v: seq<Base64.Byte>, after: seq<Base64.Byte>)
    requires |u| == |v| <= 4 && u != v
    ensures Sum(before + u + after) != Sum(before + v + after)
  {
    hide Cksum.Checksum, Octets;
    OctetsJoined(before, u);
    OctetsJoined(before + u, after);
    OctetsJoined(before, v);
    OctetsJoined(before + v, after);
    if Octets(u) == Octets(v) {
      OctetsTell(u, v);
    }
    Cksum.WindowDetected(Octets(before), Octets(u), Octets(v), Octets(after));
    WordBack(Cksum.Checksum(Octets(before + u + after)));
    WordBack(Cksum.Checksum(Octets(before + v + after)));
  }
}
