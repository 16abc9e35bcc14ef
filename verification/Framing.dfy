/** The archive on its way out: framed by markers in a console full of other text, and
    found there by a pattern that is tried again each time more arrives. */
module Framing {

  const BEGIN := "BWT-BEGIN"
  const END := "BWT-END"
  const ERR := "BWT-ERR"

  predicate White(c: char) { c in {' ', '\t', '\n', '\r', 0x0b as char, 0x0c as char} }

  predicate Digit(c: char) { '0' <= c <= '9' }

  predicate Letter64(c: char) { 'A' <= c <= 'Z' || 'a' <= c <= 'z' || Digit(c) || c in {'+', '/', '='} }

  predicate Occurs(s: string, i: nat, m: string) { i + |m| <= |s| && s[i..i + |m|] == m }

  predicate AllWhite(s: string, a: nat, b: nat) requires a <= b <= |s| { forall k :: a <= k < b ==> White(s[k]) }

  predicate AllDigits(s: string, a: nat, b: nat) requires a <= b <= |s| { forall k :: a <= k < b ==> Digit(s[k]) }

  /** Base64 however the console has broken it into lines. */
  predicate AllBody(s: string, a: nat, b: nat) requires a <= b <= |s| {
    forall k :: a <= k < b ==> White(s[k]) || Letter64(s[k])
  }

  /** replace(/\s+/g, ''). */
  function Squeezed(s: string): string {
    if s == "" then "" else (if White(s[0]) then "" else [s[0]]) + Squeezed(s[1..])
  }

  /** What the pattern captures, the text squeezed as the page squeezes it. */
  datatype Capture = Capture(length: string, sum: string, text: string)

  /** The pattern matches at `i` with these bounds: the length is s[a..b], the sum s[c..d] -
      as long as it can be, as a greedy \d+ is - and the body runs from d to the END at e. */
  ghost predicate FrameAt(s: string, i: nat, a: nat, b: nat, c: nat, d: nat, e: nat) {
    && i + |BEGIN| < a < b < c < d <= e && e + |END| <= |s|
    && Occurs(s, i, BEGIN) && AllWhite(s, i + |BEGIN|, a) && AllDigits(s, a, b)
    && AllWhite(s, b, c) && AllDigits(s, c, d) && !Digit(s[d])
    && AllBody(s, d, e) && Occurs(s, e, END)
  }

  function Captured(s: string, a: nat, b: nat, c: nat, d: nat, e: nat): Capture
    requires a <= b <= c <= d <= e <= |s|
  {
    Capture(s[a..b], s[c..d], Squeezed(s[d..e]))
  }

  /** Some match begins at `i`, of either alternative. */
  ghost predicate MatchAt(s: string, i: nat) {
    Occurs(s, i, ERR) || exists a, b, c, d, e :: FrameAt(s, i, a, b, c, d, e)
  }

  // ---- what the guest prints ------------------------------------------------

  /** The console: anything with no marker in it, then the frame, then anything. */
  datatype Console = Console(before: string, gap1: string, length: string, gap2: string, sum: string, gap3: string,
                             body: string, after: string)

  function Frame(k: Console): string {
    BEGIN + (k.gap1 + (k.length + (k.gap2 + (k.sum + (k.gap3 + (k.body + (END + k.after)))))))
  }

  function Stream(k: Console): string { k.before + Frame(k) }

  /** Where END begins. */
  function EndAt(k: Console): nat {
    |k.before| + |BEGIN| + |k.gap1| + |k.length| + |k.gap2| + |k.sum| + |k.gap3| + |k.body|
  }

  predicate Marks(s: string, i: nat) { Occurs(s, i, BEGIN) || Occurs(s, i, ERR) }

  ghost predicate Printed(k: Console) {
    && (forall i :: 0 <= i < |k.before| ==> !Marks(k.before, i))
    && k.gap1 != "" && k.gap2 != "" && k.gap3 != "" && k.length != "" && k.sum != ""
    && AllWhite(k.gap1, 0, |k.gap1|) && AllWhite(k.gap2, 0, |k.gap2|) && AllWhite(k.gap3, 0, |k.gap3|)
    && AllDigits(k.length, 0, |k.length|) && AllDigits(k.sum, 0, |k.sum|)
    && AllBody(k.body, 0, |k.body|)
  }

  // ---- where its parts lie ---------------------------------------------------

  /** A stream whose frame begins at p: the length lies in a..b, the sum in c..d, then to e
      nothing but body, then END. No marker before p. */
  ghost predicate Lies(s: string, p: nat, a: nat, b: nat, c: nat, d: nat, e: nat) {
    FrameAt(s, p, a, b, c, d, e) && forall i :: 0 <= i < p ==> !Marks(s, i)
  }

  lemma Next(s: string, at: nat, x: string, rest: string)
    requires at <= |s| && s[at..] == x + rest
    ensures at + |x| <= |s| && s[at..at + |x|] == x && s[at + |x|..] == rest
  {
    assert s[at..][..|x|] == x && s[at..][|x|..] == rest;
  }

  lemma Spans(s: string, at: nat, x: string)
    requires at + |x| <= |s| && s[at..at + |x|] == x
    ensures AllWhite(x, 0, |x|) ==> AllWhite(s, at, at + |x|)
    ensures AllDigits(x, 0, |x|) ==> AllDigits(s, at, at + |x|)
    ensures AllBody(x, 0, |x|) ==> AllBody(s, at, at + |x|)
  {
    assert forall j :: at <= j < at + |x| ==> s[j] == s[at..at + |x|][j - at];
  }

  lemma FourNext(s: string, at: nat, w: string, x: string, y: string, z: string, rest: string)
    requires at <= |s| && s[at..] == w + (x + (y + (z + rest)))
    ensures var b := at + |w|; var c := b + |x|; var d := c + |y|; var e := d + |z|;
            e <= |s| && s[at..b] == w && s[b..c] == x && s[c..d] == y && s[d..e] == z && s[e..] == rest
  {
    var b, c := at + |w|, at + |w| + |x|;
    Next(s, at, w, x + (y + (z + rest)));
    Next(s, b, x, y + (z + rest));
    Next(s, c, y, z + rest);
    Next(s, c + |y|, z, rest);
  }

  /** The frame's eight parts, found one after another. */
  lemma Parts(s: string, p: nat, k: Console)
    requires p <= |s| && s[p..] == Frame(k)
    ensures var a := p + |BEGIN| + |k.gap1|;
            var b := a + |k.length|;
            var c := b + |k.gap2|;
            var d := c + |k.sum|;
            var g := d + |k.gap3|;
            var e := g + |k.body|;
            && e + |END| <= |s| && s[p..p + |BEGIN|] == BEGIN && s[p + |BEGIN|..a] == k.gap1
            && s[a..b] == k.length && s[b..c] == k.gap2 && s[c..d] == k.sum
            && s[d..g] == k.gap3 && s[g..e] == k.body && s[e..e + |END|] == END
  {
    var half := k.sum + (k.gap3 + (k.body + (END + k.after)));
    FourNext(s, p, BEGIN, k.gap1, k.length, k.gap2, half);
    FourNext(s, p + |BEGIN| + |k.gap1| + |k.length| + |k.gap2|, k.sum, k.gap3, k.body, END, k.after);
  }

  /** No marker begins in the text before and runs on into BEGIN. */
  lemma NoMarkBefore(before: string, frame: string, i: nat)
    requires i < |before| && !Marks(before, i) && |frame| >= |BEGIN| && frame[..|BEGIN|] == BEGIN
    ensures !Marks(before + frame, i)
  {
    var s := before + frame;
    assert s[..|before|] == before;
    OccursInPrefix(s, |before|, i, BEGIN);
    OccursInPrefix(s, |before|, i, ERR);
    CharAt(s, i, BEGIN, 8);
    CharAt(s, i, ERR, 6);
    BeginLetters();
    assert forall k :: 0 <= k < |BEGIN| ==> s[|before| + k] == frame[..|BEGIN|][k];
  }

  lemma CharAt(s: string, i: nat, m: string, j: nat)
    requires j < |m|
    ensures Occurs(s, i, m) ==> s[i + j] == m[j]
  {
    if Occurs(s, i, m) {
      assert s[i + j] == s[i..i + |m|][j];
    }
  }

  lemma BeginLetters()
    ensures forall k :: 0 <= k < 8 ==> BEGIN[k] != 'N'
    ensures forall k :: 0 <= k < 9 ==> BEGIN[k] != 'R'
  {}

  /** The frame, then, lies where it was printed. */
  ghost predicate Laid(k: Console, s: string, a: nat, b: nat, c: nat, d: nat, e: nat) {
    && Lies(s, |k.before|, a, b, c, d, e)
    && s[a..b] == k.length && s[c..d] == k.sum && s[d..e] == k.gap3 + k.body && e == EndAt(k)
  }

  lemma StreamLies(k: Console) returns (a: nat, b: nat, c: nat, d: nat, e: nat)
    requires Printed(k)
    ensures Laid(k, Stream(k), a, b, c, d, e)
  {
    var s, p := Stream(k), |k.before|;
    assert s[p..] == Frame(k);
    Parts(s, p, k);
    forall i | 0 <= i < p ensures !Marks(s, i) {
      NoMarkBefore(k.before, Frame(k), i);
    }
    a := p + |BEGIN| + |k.gap1|;
    b := a + |k.length|;
    c := b + |k.gap2|;
    d := c + |k.sum|;
    var g := d + |k.gap3|;
    e := g + |k.body|;
    LaidFrom(k, s, p, a, b, c, d, g, e);
  }

  lemma LaidFrom(k: Console, s: string, p: nat, a: nat, b: nat, c: nat, d: nat, g: nat, e: nat)
    requires p == |k.before| && a == p + |BEGIN| + |k.gap1| && b == a + |k.length| && c == b + |k.gap2|
    requires d == c + |k.sum| && g == d + |k.gap3| && e == g + |k.body| && e + |END| <= |s|
    requires s[p..p + |BEGIN|] == BEGIN && s[p + |BEGIN|..a] == k.gap1 && s[a..b] == k.length && s[b..c] == k.gap2
    requires s[c..d] == k.sum && s[d..g] == k.gap3 && s[g..e] == k.body && s[e..e + |END|] == END
    requires Printed(k) && forall i :: 0 <= i < p ==> !Marks(s, i)
    ensures Laid(k, s, a, b, c, d, e)
  {
    Spans(s, p + |BEGIN|, k.gap1);
    Spans(s, a, k.length);
    Spans(s, b, k.gap2);
    Spans(s, c, k.sum);
    BodySpans(k.gap3, k.body, s, d, g, e);
    assert FrameAt(s, p, a, b, c, d, e);
  }

  lemma BodySpans(gap: string, body: string, s: string, d: nat, g: nat, e: nat)
    requires d < g <= e <= |s| && s[d..g] == gap && s[g..e] == body
    requires AllWhite(gap, 0, |gap|) && AllBody(body, 0, |body|)
    ensures AllBody(s, d, e) && !Digit(s[d]) && s[d..e] == gap + body
  {
    Spans(s, d, gap);
    Spans(s, g, body);
    assert s[d..e] == s[d..g] + s[g..e];
    assert White(s[d]);
  }

  // ---- reading it ------------------------------------------------------------

  /** Every dash from the frame on is BEGIN's, END's, or after END. */
  lemma Dashes(s: string, p: nat, a: nat, b: nat, c: nat, d: nat, e: nat, k: nat)
    requires FrameAt(s, p, a, b, c, d, e) && p <= k < |s| && s[k] == '-'
    ensures k == p + 3 || k == e + 3 || k >= e + |END|
  {
    assert forall j :: p + |BEGIN| <= j < e ==> White(s[j]) || Letter64(s[j]);
    if k < p + 9 {
      assert s[k] == s[p..p + |BEGIN|][k - p] == BEGIN[k - p];
    } else if e <= k < e + 7 {
      assert s[k] == s[e..e + |END|][k - e] == END[k - e];
    }
  }

  lemma MarkerChars(s: string, i: nat)
    ensures Occurs(s, i, BEGIN) ==> s[i + 3] == '-' && s[i + 4] == 'B'
    ensures Occurs(s, i, ERR) ==> s[i + 3] == '-' && s[i + 4] == 'E' && s[i + 5] == 'R'
    ensures Occurs(s, i, END) ==> s[i + 3] == '-' && s[i + 4] == 'E' && s[i + 5] == 'N'
  {
    if Occurs(s, i, BEGIN) { assert s[i..i + 9][3] == BEGIN[3] && s[i..i + 9][4] == BEGIN[4]; }
    if Occurs(s, i, ERR) { assert s[i..i + 7][3] == ERR[3] && s[i..i + 7][4] == ERR[4] && s[i..i + 7][5] == ERR[5]; }
    if Occurs(s, i, END) { assert s[i..i + 7][3] == END[3] && s[i..i + 7][4] == END[4] && s[i..i + 7][5] == END[5]; }
  }

  lemma OccursInPrefix(s: string, n: nat, i: nat, m: string)
    requires n <= |s|
    ensures Occurs(s[..n], i, m) <==> Occurs(s, i, m) && i + |m| <= n
  {
    if i + |m| <= n {
      assert s[..n][i..i + |m|] == s[i..i + |m|];
    }
  }

  /** Up to the end of END no marker begins but the frame's own. */
  lemma OnlyMarker(s: string, p: nat, a: nat, b: nat, c: nat, d: nat, e: nat, i: nat)
    requires Lies(s, p, a, b, c, d, e) && Marks(s, i) && i + 3 < e + |END|
    ensures i == p && Occurs(s, i, BEGIN)
  {
    MarkerChars(s, i);
    MarkerChars(s, p);
    MarkerChars(s, e);
    Dashes(s, p, a, b, c, d, e, i + 3);
  }

  /** Wherever a match's own bounds lie, they are the frame's. */
  lemma SameBounds(s: string, p: nat, a: nat, b: nat, c: nat, d: nat, e: nat, t: string, n: nat,
                   a': nat, b': nat, c': nat, d': nat, e': nat)
    requires Lies(s, p, a, b, c, d, e) && n <= |s| && t == s[..n] && FrameAt(t, p, a', b', c', d', e')
    ensures a' == a && b' == b && c' == c && d' == d && e' == e
  {
    assert forall k :: 0 <= k < n ==> t[k] == s[k];
    SameRun(s, t, n, p, a, b, c, d, a', b', c', d');
    OccursInPrefix(s, n, e', END);
    MarkerChars(s, e');
    MarkerChars(s, e);
    Dashes(s, p, a, b, c, d, e, e' + 3);
    BodyHasNoDash(t, d', e', e + 3);
  }

  lemma BodyHasNoDash(t: string, a: nat, b: nat, k: nat)
    requires a <= b <= |t| && AllBody(t, a, b)
    ensures a <= k < b ==> t[k] != '-'
  {}

  /** Spans of white and of digits end where they end. */
  lemma SameRun(s: string, t: string, n: nat, p: nat, a: nat, b: nat, c: nat, d: nat,
                a': nat, b': nat, c': nat, d': nat)
    requires n <= |s| && t == s[..n]
    requires p + |BEGIN| < a < b < c < d < |s| && p + |BEGIN| < a' < b' < c' < d' < n
    requires AllWhite(s, p + |BEGIN|, a) && AllDigits(s, a, b) && AllWhite(s, b, c) && AllDigits(s, c, d)
    requires AllWhite(t, p + |BEGIN|, a') && AllDigits(t, a', b') && AllWhite(t, b', c') && AllDigits(t, c', d')
    requires !Digit(s[d]) && !Digit(t[d'])
    ensures a' == a && b' == b && c' == c && d' == d
  {
    RunEnds(s, t, n, p + |BEGIN|, a, a', White);
    RunEnds(s, t, n, a, b, b', Digit);
    RunEnds(s, t, n, b, c, c', White);
    RunEnds(s, t, n, c, d, d', Digit);
  }

  lemma RunEnds(s: string, t: string, n: nat, lo: nat, x: nat, y: nat, kind: char -> bool)
    requires n <= |s| && t == s[..n] && lo <= x < |s| && lo <= y < n
    requires (forall k :: lo <= k < x ==> kind(s[k])) && !kind(s[x])
    requires (forall k :: lo <= k < y ==> kind(t[k])) && !kind(t[y])
    ensures x == y
  {
    assert t[y] == s[y];
    assert x < n ==> t[x] == s[x];
  }

  /** While END is still on its way, the pattern matches nowhere in what has arrived. */
  lemma NothingTooSoon(k: Console, n: nat, i: nat)
    requires Printed(k) && n < EndAt(k) + |END|
    ensures n <= |Stream(k)| && !MatchAt(Stream(k)[..n], i)
  {
    var s := Stream(k);
    var a, b, c, d, e := StreamLies(k);
    var t, p := s[..n], |k.before|;
    if MatchAt(t, i) {
      OccursInPrefix(s, n, i, ERR);
      OccursInPrefix(s, n, i, BEGIN);
      assert Marks(s, i);
      OnlyMarker(s, p, a, b, c, d, e, i);
      MarkerChars(s, i);
      assert !Occurs(t, i, ERR);
      var a', b', c', d', e' :| FrameAt(t, i, a', b', c', d', e');
      SameBounds(s, p, a, b, c, d, e, t, n, a', b', c', d', e');
    }
  }

  /** Once it is there, whatever follows: the pattern's leftmost match is the frame, and
      what it captures is the length, the sum, and the text the guest encoded. */
  lemma FrameIsFound(k: Console, n: nat)
    requires Printed(k) && EndAt(k) + |END| <= n <= |Stream(k)|
    ensures var t := Stream(k)[..n];
            && MatchAt(t, |k.before|) && !Occurs(t, |k.before|, ERR)
            && (forall i :: 0 <= i < |k.before| ==> !MatchAt(t, i))
            && forall a, b, c, d, e :: FrameAt(t, |k.before|, a, b, c, d, e) ==>
                 Captured(t, a, b, c, d, e) == Capture(k.length, k.sum, Squeezed(k.body))
  {
    var s := Stream(k);
    var a, b, c, d, e := StreamLies(k);
    FoundIn(k, s, n, a, b, c, d, e);
  }

  lemma FoundIn(k: Console, s: string, n: nat, a: nat, b: nat, c: nat, d: nat, e: nat)
    requires Laid(k, s, a, b, c, d, e) && AllWhite(k.gap3, 0, |k.gap3|) && e + |END| <= n <= |s|
    ensures var t := s[..n];
            && MatchAt(t, |k.before|) && !Occurs(t, |k.before|, ERR)
            && (forall i :: 0 <= i < |k.before| ==> !MatchAt(t, i))
            && forall a, b, c, d, e :: FrameAt(t, |k.before|, a, b, c, d, e) ==>
                 Captured(t, a, b, c, d, e) == Capture(k.length, k.sum, Squeezed(k.body))
  {
    var t, p := s[..n], |k.before|;
    FrameInPrefix(s, n, p, a, b, c, d, e);
    assert MatchAt(t, p);
    MarkerChars(t, p);
    forall i | 0 <= i < p ensures !MatchAt(t, i) {
      assert !Marks(s, i);
      OccursInPrefix(s, n, i, ERR);
      OccursInPrefix(s, n, i, BEGIN);
    }
    forall a', b', c', d', e' | FrameAt(t, p, a', b', c', d', e')
      ensures Captured(t, a', b', c', d', e') == Capture(k.length, k.sum, Squeezed(k.body))
    {
      SameBounds(s, p, a, b, c, d, e, t, n, a', b', c', d', e');
      CapturedInPrefix(k, s, n, a, b, c, d, e);
    }
  }

  lemma FrameInPrefix(s: string, n: nat, p: nat, a: nat, b: nat, c: nat, d: nat, e: nat)
    requires FrameAt(s, p, a, b, c, d, e) && e + |END| <= n <= |s|
    ensures FrameAt(s[..n], p, a, b, c, d, e)
  {
    var t := s[..n];
    assert forall j :: 0 <= j < n ==> t[j] == s[j];
    OccursInPrefix(s, n, p, BEGIN);
    OccursInPrefix(s, n, e, END);
  }

  lemma CapturedInPrefix(k: Console, s: string, n: nat, a: nat, b: nat, c: nat, d: nat, e: nat)
    requires Laid(k, s, a, b, c, d, e) && AllWhite(k.gap3, 0, |k.gap3|) && e + |END| <= n <= |s|
    ensures Captured(s[..n], a, b, c, d, e) == Capture(k.length, k.sum, Squeezed(k.body))
  {
    var t := s[..n];
    assert t[a..b] == s[a..b] && t[c..d] == s[c..d] && t[d..e] == s[d..e];
    SqueezedGap(k.gap3, k.body);
  }

  lemma {:induction false} SqueezedGap(gap: string, body: string)
    requires AllWhite(gap, 0, |gap|)
    ensures Squeezed(gap + body) == Squeezed(body)
  {
    if gap == "" {
      assert gap + body == body;
    } else {
      assert (gap + body)[1..] == gap[1..] + body;
      forall j | 0 <= j < |gap| - 1 ensures White(gap[1..][j]) { assert White(gap[j + 1]); }
      SqueezedGap(gap[1..], body);
    }
  }

  /** A command that prints `BW` and the tag, the two split across quotes. */
  function Emit(tag: string, fmt: string, args: string): string {
    "printf '\\nBW''" + tag + (if fmt == "" then "" else " " + fmt) + "\\n'" + (if args == "" then "" else " " + args)
  }
}
