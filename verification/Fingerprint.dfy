/** One path's fingerprint, and the length-prefixed bytes its attributes are hashed as. */
module Fingerprint {
  import opened Sequences
  import opened Texts
  import opened Identity

  type Octet = n: int | 0 <= n < 256

  const WORD := 0x1_0000_0000

  /** struct.pack('>I', n). */
  function Word(n: nat): (w: seq<Octet>)
    requires n < WORD
    ensures |w| == 4
  {
    var a: int := n / 0x100_0000;
    var b: int := n / 0x1_0000 % 256;
    var c: int := n / 256 % 256;
    var d: int := n % 256;
    [a, b, c, d]
  }

  lemma WordRead(n: nat)
    requires n < WORD
    ensures var w := Word(n); n == ((w[0] as int * 256 + w[1] as int) * 256 + w[2] as int) * 256 + w[3] as int
  {
    assert n == n / 256 * 256 + n % 256;
    assert n / 256 / 256 == n / 0x1_0000 && n / 0x1_0000 / 256 == n / 0x100_0000;
  }

  lemma WordInjective(n: nat, m: nat)
    requires n < WORD && m < WORD && Word(n) == Word(m)
    ensures n == m
  {
    WordRead(n);
    WordRead(m);
  }

  predicate Packable(parts: seq<seq<Octet>>) { forall p :: p in parts ==> |p| < WORD }

  /** Every part with its length before it. */
  function Packed(parts: seq<seq<Octet>>): seq<Octet>
    requires Packable(parts)
  {
    if parts == [] then [] else
      assert forall p :: p in parts[1..] ==> p in parts;
      Word(|parts[0]|) + parts[0] + Packed(parts[1..])
  }

  lemma PackedFirst(a: seq<Octet>, b: seq<Octet>, r: seq<Octet>, s: seq<Octet>)
    requires |a| < WORD && |b| < WORD
    requires Word(|a|) + a + r == Word(|b|) + b + s
    ensures a == b && r == s
  {
    var x, y := Word(|a|) + a + r, Word(|b|) + b + s;
    assert x[..4] == Word(|a|) && y[..4] == Word(|b|);
    WordInjective(|a|, |b|);
    assert x[4..4 + |a|] == a && y[4..4 + |b|] == b;
    assert x[4 + |a|..] == r && y[4 + |b|..] == s;
  }

  lemma {:induction false} PackedInjective(a: seq<seq<Octet>>, b: seq<seq<Octet>>)
    requires Packable(a) && Packable(b) && Packed(a) == Packed(b)
    ensures a == b
    decreases |a|
  {
    if a != [] && b != [] {
      assert a[0] in a && b[0] in b;
      assert forall p :: p in a[1..] ==> p in a;
      assert forall p :: p in b[1..] ==> p in b;
      PackedFirst(a[0], b[0], Packed(a[1..]), Packed(b[1..]));
      PackedInjective(a[1..], b[1..]);
      assert a == [a[0]] + a[1..] && b == [b[0]] + b[1..];
    }
  }

  datatype Xattr = Xattr(name: seq<Octet>, value: seq<Octet>)

  function PartsOf(attrs: seq<Xattr>): seq<seq<Octet>> {
    if attrs == [] then [] else [attrs[0].name, attrs[0].value] + PartsOf(attrs[1..])
  }

  ghost predicate Fits(attrs: seq<Xattr>) {
    |attrs| < WORD && forall x :: x in attrs ==> |x.name| < WORD && |x.value| < WORD
  }

  lemma {:induction false} PartsPackable(attrs: seq<Xattr>)
    requires forall x :: x in attrs ==> |x.name| < WORD && |x.value| < WORD
    ensures Packable(PartsOf(attrs))
  {
    if attrs != [] {
      assert forall x :: x in attrs[1..] ==> x in attrs;
      PartsPackable(attrs[1..]);
    }
  }

  /** What is hashed for a path's attributes. */
  ghost function XattrBytes(attrs: seq<Xattr>): seq<Octet>
    requires Fits(attrs)
  {
    PartsPackable(attrs);
    Word(|attrs|) + Packed(PartsOf(attrs))
  }

  lemma {:induction false} PackedAppended(parts: seq<seq<Octet>>, p: seq<Octet>)
    requires Packable(parts) && |p| < WORD
    ensures Packable(parts + [p]) && Packed(parts + [p]) == Packed(parts) + Word(|p|) + p
  {
    if parts == [] {
      assert [p][1..] == [];
      assert Packed([p]) == Word(|p|) + p + [];
    } else {
      assert forall q :: q in parts[1..] ==> q in parts;
      PackedAppended(parts[1..], p);
      var more := parts + [p];
      assert more[1..] == parts[1..] + [p] && more[0] == parts[0];
      var h, t, w := Word(|parts[0]|) + parts[0], Packed(parts[1..]), Word(|p|);
      RegroupedFour(h, t, w, p);
    }
  }

  lemma {:induction false} PartsAppended(attrs: seq<Xattr>, x: Xattr)
    ensures PartsOf(attrs + [x]) == PartsOf(attrs) + [x.name] + [x.value]
  {
    if attrs == [] {
      assert (attrs + [x])[1..] == [];
    } else {
      PartsAppended(attrs[1..], x);
      assert (attrs + [x])[1..] == attrs[1..] + [x];
    }
  }

  /** One attribute more, after whatever was fed before. */
  lemma AttrFed(fed: seq<Octet>, count: seq<Octet>, attrs: seq<Xattr>, x: Xattr)
    requires Packable(PartsOf(attrs)) && |x.name| < WORD && |x.value| < WORD
    requires fed == count + Packed(PartsOf(attrs))
    ensures Packable(PartsOf(attrs + [x]))
    ensures fed + (Word(|x.name|) + x.name) + (Word(|x.value|) + x.value) == count + Packed(PartsOf(attrs + [x]))
  {
    PartsAppended(attrs, x);
    PartFed(fed, count, PartsOf(attrs), x.name);
    PartFed(fed + (Word(|x.name|) + x.name), count, PartsOf(attrs) + [x.name], x.value);
  }

  lemma PartFed(fed: seq<Octet>, count: seq<Octet>, parts: seq<seq<Octet>>, p: seq<Octet>)
    requires Packable(parts) && |p| < WORD && fed == count + Packed(parts)
    ensures Packable(parts + [p]) && fed + (Word(|p|) + p) == count + Packed(parts + [p])
  {
    PackedAppended(parts, p);
    var was, w := Packed(parts), Word(|p|);
    assert count + was + (w + p) == count + (was + w + p);
  }

  /** The loop that feeds the hash. */
  method FeedXattrs(attrs: seq<Xattr>) returns (fed: seq<Octet>)
    requires Fits(attrs)
    ensures fed == XattrBytes(attrs)
  {
    PartsPackable(attrs);
    fed := Word(|attrs|);
    assert attrs[..0] == [];
    for i := 0 to |attrs|
      invariant Packable(PartsOf(attrs[..i])) && fed == Word(|attrs|) + Packed(PartsOf(attrs[..i]))
    {
      assert attrs[..i + 1] == attrs[..i] + [attrs[i]];
      assert attrs[i] in attrs;
      AttrFed(fed, Word(|attrs|), attrs[..i], attrs[i]);
      fed := fed + (Word(|attrs[i].name|) + attrs[i].name);
      fed := fed + (Word(|attrs[i].value|) + attrs[i].value);
    }
    assert attrs[..|attrs|] == attrs;
  }

  lemma {:induction false} PartsInjective(a: seq<Xattr>, b: seq<Xattr>)
    requires PartsOf(a) == PartsOf(b)
    ensures a == b
    decreases |a|
  {
    if a != [] && b != [] {
      var x, y := PartsOf(a), PartsOf(b);
      assert x[0] == y[0] && x[1] == y[1];
      assert x[2..] == PartsOf(a[1..]) && y[2..] == PartsOf(b[1..]);
      PartsInjective(a[1..], b[1..]);
      assert a == [a[0]] + a[1..] && b == [b[0]] + b[1..];
    }
  }

  /** No arrangement of attributes passes for another. */
  lemma XattrsInjective(a: seq<Xattr>, b: seq<Xattr>)
    requires Fits(a) && Fits(b) && XattrBytes(a) == XattrBytes(b)
    ensures a == b
  {
    PartsPackable(a);
    PartsPackable(b);
    var x, y := XattrBytes(a), XattrBytes(b);
    assert x[4..] == Packed(PartsOf(a)) && y[4..] == Packed(PartsOf(b));
    PackedInjective(PartsOf(a), PartsOf(b));
    PartsInjective(a, b);
  }

  /** What lstat found at a path, its numbers already in digits. */
  datatype Seal =
    | Gone
    | Sealed(mode: string, uid: string, gid: string, contents: string, attrs: string)

  predicate Digits(s: string) { s != "" && forall c :: c in s ==> '0' <= c <= '9' }

  /** A digest in hex, or `unreadable-` and a number. */
  predicate Spaceless(s: string) { forall c :: c in s ==> c != ' ' && c != '\t' && c != '\n' }

  ghost predicate WellFormed(s: Seal) {
    s.Sealed? ==> Digits(s.mode) && Digits(s.uid) && Digits(s.gid) && Spaceless(s.contents) && Spaceless(s.attrs)
  }

  function Print(s: Seal): string {
    match s
    case Gone => "gone"
    case Sealed(m, u, g, c, a) => Joined([m, u, g, c, a], ' ')
  }

  /** The fingerprint shows all five, and fits in one field of a line. */
  lemma PrintInjective(s: Seal, t: Seal)
    requires WellFormed(s) && WellFormed(t)
    ensures Print(s) == Print(t) ==> s == t
    ensures '\t' !in Print(s) && '\n' !in Print(s)
  {
    if s.Sealed? {
      var f := [s.mode, s.uid, s.gid, s.contents, s.attrs];
      assert Free(f, ' ') && Free(f, '\t') && Free(f, '\n');
      JoinedFree(f, ' ', '\t');
      JoinedFree(f, ' ', '\n');
      HasSpace(s);
      if t.Sealed? && Print(s) == Print(t) {
        var g := [t.mode, t.uid, t.gid, t.contents, t.attrs];
        assert Free(g, ' ');
        JoinedInjective(f, g, ' ');
        assert f[0] == g[0] && f[1] == g[1] && f[2] == g[2] && f[3] == g[3] && f[4] == g[4];
      }
    }
    if t.Sealed? {
      HasSpace(t);
    }
  }

  lemma HasSpace(s: Seal)
    requires s.Sealed?
    ensures ' ' in Print(s) && ' ' !in "gone"
  {
    var f := [s.mode, s.uid, s.gid, s.contents, s.attrs];
    assert Joined(f, ' ') == f[0] + [' '] + Joined(f[1..], ' ');
    assert Print(s)[|f[0]|] == ' ';
  }

  /** Builds hashed from the same text show every path the same: type, owner, contents and
      attributes alike. */
  lemma SameTextSameSeals(a: seq<Row>, sealsA: string -> Seal, diskA: Disk,
                          b: seq<Row>, sealsB: string -> Seal, diskB: Disk, p: Row)
    requires Distinct(a) && Distinct(b)
    requires (forall r :: r in a ==> CleanRow(r)) && (forall r :: r in b ==> CleanRow(r))
    requires forall q :: WellFormed(sealsA(q)) && WellFormed(sealsB(q))
    requires Text(a, q => Print(sealsA(q)), diskA) == Text(b, q => Print(sealsB(q)), diskB)
    requires p in a
    ensures p in b && sealsA(p.path) == sealsB(p.path)
  {
    var printA, printB := q => Print(sealsA(q)), q => Print(sealsB(q));
    forall q ensures Clean(printA(q)) && Clean(printB(q)) {
      PrintInjective(sealsA(q), sealsB(q));
      PrintInjective(sealsB(q), sealsA(q));
    }
    SameTextSameBuild(a, printA, diskA, b, printB, diskB);
    assert p in multiset(b);
    assert printA(p.path) == printB(p.path);
    PrintInjective(sealsA(p.path), sealsB(p.path));
  }
}
