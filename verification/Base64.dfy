/** Base64 as the page sends it: encoded in chunks of 0x8000 bytes, which is not a
    multiple of three, so a long text has padding inside it. */
module Base64 {
  import opened Sequences
  import opened Options

  type Byte = b: int | 0 <= b < 256

  type Sextet = v: int | 0 <= v < 64

  const CHUNK: nat := 0x8000

  /** The alphabet of RFC 4648, section 4. */
  function Symbol(v: Sextet): char {
    if v < 26 then ('A' as int + v) as char
    else if v < 52 then ('a' as int + v - 26) as char
    else if v < 62 then ('0' as int + v - 52) as char
    else if v == 62 then '+' else '/'
  }

  function Value(ch: char): Option<Sextet> {
    if 'A' <= ch <= 'Z' then Some(ch as int - 'A' as int)
    else if 'a' <= ch <= 'z' then Some(ch as int - 'a' as int + 26)
    else if '0' <= ch <= '9' then Some(ch as int - '0' as int + 52)
    else if ch == '+' then Some(62) else if ch == '/' then Some(63) else None
  }

  function Quad(a: Byte, b: Byte, c: Byte): string {
    [Symbol(a / 4), Symbol(a % 4 * 16 + b / 16), Symbol(b % 16 * 4 + c / 64), Symbol(c % 64)]
  }

  /** RFC 4648, section 4: three bytes to four symbols, the last group padded. */
  function Encode(bytes: seq<Byte>): string {
    if |bytes| == 0 then ""
    else if |bytes| == 1 then Quad(bytes[0], 0, 0)[..2] + "=="
    else if |bytes| == 2 then Quad(bytes[0], bytes[1], 0)[..3] + "="
    else Quad(bytes[0], bytes[1], bytes[2]) + Encode(bytes[3..])
  }

  /** Each chunk of `n` bytes encoded on its own. */
  function Chunked(bytes: seq<Byte>, n: nat): string
    requires n > 0
    decreases |bytes|
  {
    if |bytes| <= n then Encode(bytes) else Encode(bytes[..n]) + Chunked(bytes[n..], n)
  }

  /** What the page sends. */
  function PageText(bytes: seq<Byte>): string { Chunked(bytes, CHUNK) }

  /** `s` is the encoding of what comes before `i`. */
  ghost predicate EncodedTo(bytes: seq<Byte>, n: nat, i: nat, s: string)
    requires n > 0
  {
    Chunked(bytes, n) == if i < |bytes| then s + Chunked(bytes[i..], n) else s
  }

  method EncodeInChunks(bytes: seq<Byte>, n: nat) returns (s: string)
    requires n > 0
    ensures s == Chunked(bytes, n)
  {
    s := "";
    var i := 0;
    NothingEncoded(bytes, n);
    while i < |bytes|
      invariant EncodedTo(bytes, n, i, s)
      decreases |bytes| - i
    {
      var end := if i + n < |bytes| then i + n else |bytes|;
      var piece := Encode(bytes[i..end]);
      ChunkStep(bytes, i, end, n, s, piece);
      s := s + piece;
      i := i + n;
    }
  }

  lemma NothingEncoded(bytes: seq<Byte>, n: nat)
    requires n > 0
    ensures EncodedTo(bytes, n, 0, "")
  {
    assert bytes[0..] == bytes;
    assert "" + Chunked(bytes, n) == Chunked(bytes, n);
  }

  lemma ChunkStep(bytes: seq<Byte>, i: nat, end: nat, n: nat, s: string, piece: string)
    requires n > 0 && i < |bytes| && end == (if i + n < |bytes| then i + n else |bytes|)
    requires piece == Encode(bytes[i..end]) && EncodedTo(bytes, n, i, s)
    ensures EncodedTo(bytes, n, i + n, s + piece)
  {
    var rest := bytes[i..];
    assert bytes[i..end] == rest[..end - i];
    if end < |bytes| {
      assert bytes[end..] == rest[n..];
      Regrouped(s, piece, Chunked(bytes[end..], n));
    } else {
      assert rest[..end - i] == rest;
    }
  }

  /** One group of four symbols, padding allowed at its own end. */
  function DecodeQuad(s: string): Option<seq<Byte>>
    requires |s| == 4
  {
    var p, q := Value(s[0]), Value(s[1]);
    if p.None? || q.None? then None
    else if s[2] == '=' then
      if s[3] == '=' then Some([p.value * 4 + q.value / 16]) else None
    else
      var r := Value(s[2]);
      if r.None? then None
      else if s[3] == '=' then Some([p.value * 4 + q.value / 16, q.value % 16 * 16 + r.value / 4])
      else
        var t := Value(s[3]);
        if t.None? then None
        else Some([p.value * 4 + q.value / 16, q.value % 16 * 16 + r.value / 4, r.value % 4 * 64 + t.value])
  }

  /** A decoder that takes each group of four on its own, as the guest's does. */
  function Decode(s: string): Option<seq<Byte>> {
    if s == "" then Some([])
    else if |s| < 4 then None
    else
      var head, rest := DecodeQuad(s[..4]), Decode(s[4..]);
      if head.None? || rest.None? then None else Some(head.value + rest.value)
  }

  lemma SymbolValue(v: Sextet)
    ensures Value(Symbol(v)) == Some(v) && Symbol(v) != '=' && Symbol(v) != '\n'
  {
  }

  lemma ByteParts(a: Byte, b: Byte, c: Byte)
    ensures a / 4 * 4 + (a % 4 * 16 + b / 16) / 16 == a
    ensures (a % 4 * 16 + b / 16) % 16 * 16 + (b % 16 * 4 + c / 64) / 4 == b
    ensures (b % 16 * 4 + c / 64) % 4 * 64 + c % 64 == c
  {
  }

  lemma SextetsDecode(p: Sextet, q: Sextet, r: Sextet, t: Sextet)
    ensures DecodeQuad([Symbol(p), Symbol(q), Symbol(r), Symbol(t)])
         == Some([p * 4 + q / 16, q % 16 * 16 + r / 4, r % 4 * 64 + t])
  {
    SymbolValue(p);
    SymbolValue(q);
    SymbolValue(r);
    SymbolValue(t);
  }

  lemma QuadDecodes(a: Byte, b: Byte, c: Byte)
    ensures DecodeQuad(Quad(a, b, c)) == Some([a, b, c])
  {
    ByteParts(a, b, c);
    SextetsDecode(a / 4, a % 4 * 16 + b / 16, b % 16 * 4 + c / 64, c % 64);
  }

  lemma PairDecodes(a: Byte, b: Byte)
    ensures DecodeQuad(Quad(a, b, 0)[..3] + "=") == Some([a, b])
  {
    ByteParts(a, b, 0);
    SymbolValue(a / 4);
    SymbolValue(a % 4 * 16 + b / 16);
    SymbolValue(b % 16 * 4);
  }

  lemma SingleDecodes(a: Byte)
    ensures DecodeQuad(Quad(a, 0, 0)[..2] + "==") == Some([a])
  {
    ByteParts(a, 0, 0);
    SymbolValue(a / 4);
    SymbolValue(a % 4 * 16);
  }

  lemma DecodeOne(q: string, rest: string)
    requires |q| == 4
    ensures Decode(q + rest) == if DecodeQuad(q).None? || Decode(rest).None? then None
                                else Some(DecodeQuad(q).value + Decode(rest).value)
  {
    assert (q + rest)[..4] == q && (q + rest)[4..] == rest;
  }

  lemma ShortDecodes(bytes: seq<Byte>, rest: string)
    requires 1 <= |bytes| <= 2 && Decode(rest).Some?
    ensures Decode(Encode(bytes) + rest) == Some(bytes + Decode(rest).value)
  {
    if |bytes| == 1 {
      SingleDecodes(bytes[0]);
      DecodeOne(Quad(bytes[0], 0, 0)[..2] + "==", rest);
      assert bytes == [bytes[0]];
    } else {
      PairDecodes(bytes[0], bytes[1]);
      DecodeOne(Quad(bytes[0], bytes[1], 0)[..3] + "=", rest);
      assert bytes == [bytes[0], bytes[1]];
    }
  }

  lemma OneMoreGroup(q: string, code: string, rest: string, head: seq<Byte>, tail: seq<Byte>, more: seq<Byte>)
    requires |q| == 4 && DecodeQuad(q) == Some(head) && Decode(code + rest) == Some(tail + more)
    ensures Decode((q + code) + rest) == Some((head + tail) + more)
  {
    DecodeOne(q, code + rest);
    Regrouped(q, code, rest);
    assert head + (tail + more) == (head + tail) + more;
  }

  /** Each encoding decodes, and decoding carries on past it. */
  lemma {:induction false} EncodeDecodes(bytes: seq<Byte>, rest: string)
    requires Decode(rest).Some?
    ensures Decode(Encode(bytes) + rest) == Some(bytes + Decode(rest).value)
  {
    if |bytes| == 0 {
      assert Encode(bytes) + rest == rest && bytes + Decode(rest).value == Decode(rest).value;
    } else if |bytes| <= 2 {
      ShortDecodes(bytes, rest);
    } else {
      EncodeDecodes(bytes[3..], rest);
      QuadDecodes(bytes[0], bytes[1], bytes[2]);
      var q, head := Quad(bytes[0], bytes[1], bytes[2]), [bytes[0], bytes[1], bytes[2]];
      OneMoreGroup(q, Encode(bytes[3..]), rest, head, bytes[3..], Decode(rest).value);
      assert head + bytes[3..] == bytes;
    }
  }

  /** Decoding group by group gives back the bytes, for every length and chunk size. */
  lemma {:induction false} ChunkedDecodes(bytes: seq<Byte>, n: nat)
    requires n > 0
    ensures Decode(Chunked(bytes, n)) == Some(bytes)
    decreases |bytes|
  {
    if |bytes| <= n {
      EncodeDecodes(bytes, "");
      assert Encode(bytes) + "" == Encode(bytes) && bytes + [] == bytes;
    } else {
      ChunkedDecodes(bytes[n..], n);
      EncodeDecodes(bytes[..n], Chunked(bytes[n..], n));
      assert bytes == bytes[..n] + bytes[n..];
    }
  }

  /** How many bytes of its group a symbol needs to be one, by its place in the group. */
  function Needs(place: nat): nat { if place < 2 then 1 else place }

  /** A symbol whose bytes are there is no padding. */
  lemma {:induction false} NoPaddingInside(bytes: seq<Byte>, i: nat)
    requires i / 4 * 3 + Needs(i % 4) <= |bytes|
    ensures i < |Encode(bytes)| && Encode(bytes)[i] != '='
    decreases |bytes|
  {
    if i < 4 {
      FirstGroup(bytes, i);
    } else {
      NoPaddingInside(bytes[3..], i - 4);
      assert Encode(bytes)[i] == Encode(bytes[3..])[i - 4];
    }
  }

  lemma FirstGroup(bytes: seq<Byte>, i: nat)
    requires i < 4 && Needs(i) <= |bytes|
    ensures i < |Encode(bytes)| && Encode(bytes)[i] != '='
  {
    var b := if |bytes| > 1 then bytes[1] else 0;
    var c := if |bytes| > 2 then bytes[2] else 0;
    assert Encode(bytes)[i] == Quad(bytes[0], b, c)[i];
    SymbolValue(bytes[0] / 4);
    SymbolValue(bytes[0] % 4 * 16 + b / 16);
    SymbolValue(b % 16 * 4 + c / 64);
    SymbolValue(c % 64);
  }

  /** Padding fills the last group up from the bytes that are missing. */
  lemma {:induction false} EndsPadded(bytes: seq<Byte>)
    requires |bytes| % 3 != 0
    ensures var at := |bytes| / 3 * 4 + |bytes| % 3 + 1;
            at < |Encode(bytes)| && Encode(bytes)[at] == '='
  {
    if |bytes| >= 3 {
      EndsPadded(bytes[3..]);
      var at := |bytes| / 3 * 4 + |bytes| % 3 + 1;
      assert Encode(bytes)[at] == Encode(bytes[3..])[at - 4];
    }
  }

  /** Whole groups first: then encoding the pieces is encoding the whole. */
  lemma {:induction false} EncodeConcat(a: seq<Byte>, b: seq<Byte>)
    requires |a| % 3 == 0
    ensures Encode(a + b) == Encode(a) + Encode(b)
  {
    if a == [] {
      assert a + b == b && Encode(a) + Encode(b) == Encode(b);
    } else {
      EncodeConcat(a[3..], b);
      assert (a + b)[3..] == a[3..] + b;
      Regrouped(Quad(a[0], a[1], a[2]), Encode(a[3..]), Encode(b));
    }
  }

  lemma {:induction false} AlignedIsStandard(bytes: seq<Byte>, n: nat)
    requires n > 0 && (|bytes| <= n || n % 3 == 0)
    ensures Chunked(bytes, n) == Encode(bytes)
    decreases |bytes|
  {
    if |bytes| > n {
      AlignedIsStandard(bytes[n..], n);
      EncodeConcat(bytes[..n], bytes[n..]);
      assert bytes == bytes[..n] + bytes[n..];
    }
  }

  lemma PaddedInside(bytes: seq<Byte>, n: nat) returns (at: nat)
    requires n > 0 && |bytes| > n && n % 3 != 0
    ensures at < |Chunked(bytes, n)| && Chunked(bytes, n)[at] == '='
    ensures at / 4 * 3 + Needs(at % 4) <= |bytes|
  {
    EndsPadded(bytes[..n]);
    at := n / 3 * 4 + n % 3 + 1;
    assert Chunked(bytes, n)[at] == Encode(bytes[..n])[at];
    assert at / 4 == n / 3 && at % 4 == n % 3 + 1;
  }

  /** The chunked text is the RFC encoding of the whole exactly when there is one
      chunk, or chunks are whole groups: else the first chunk's padding stands where
      the RFC text has a symbol. */
  lemma ChunkedIsStandard(bytes: seq<Byte>, n: nat)
    requires n > 0
    ensures Chunked(bytes, n) == Encode(bytes) <==> |bytes| <= n || n % 3 == 0
  {
    if |bytes| <= n || n % 3 == 0 {
      AlignedIsStandard(bytes, n);
    } else if Chunked(bytes, n) == Encode(bytes) {
      var at := PaddedInside(bytes, n);
      NoPaddingInside(bytes, at);
    }
  }

  lemma TextIsStandard(bytes: seq<Byte>, n: nat)
    requires n > 0 && n % 3 != 0
    ensures Chunked(bytes, n) == Encode(bytes) <==> |bytes| <= n
    ensures Decode(Chunked(bytes, n)) == Some(bytes)
  {
    ChunkedIsStandard(bytes, n);
    ChunkedDecodes(bytes, n);
  }

  /** So what the page sends is standard up to 0x8000 bytes and no further. */
  lemma PageTextIsStandard(bytes: seq<Byte>)
    ensures PageText(bytes) == Encode(bytes) <==> |bytes| <= CHUNK
    ensures Decode(PageText(bytes)) == Some(bytes)
  {
    TextIsStandard(bytes, CHUNK);
  }

  /** Neither form ever holds a newline. */
  lemma {:induction false} EncodeIsOneLine(bytes: seq<Byte>)
    ensures '\n' !in Encode(bytes)
  {
    if |bytes| > 0 {
      var b := if |bytes| > 1 then bytes[1] else 0;
      var c := if |bytes| > 2 then bytes[2] else 0;
      SymbolValue(bytes[0] / 4);
      SymbolValue(bytes[0] % 4 * 16 + b / 16);
      SymbolValue(b % 16 * 4 + c / 64);
      SymbolValue(c % 64);
      if |bytes| > 2 {
        EncodeIsOneLine(bytes[3..]);
      }
    }
  }

  lemma {:induction false} ChunkedIsOneLine(bytes: seq<Byte>, n: nat)
    requires n > 0
    ensures '\n' !in Chunked(bytes, n)
    decreases |bytes|
  {
    if |bytes| <= n {
      EncodeIsOneLine(bytes);
    } else {
      EncodeIsOneLine(bytes[..n]);
      ChunkedIsOneLine(bytes[n..], n);
    }
  }
}
