/** The restore upload: base64 text sent in blocks to a `head -c N` that reads the
    guest's tty, each block only after the guest has said it is reading. The tty
    silently drops what its buffer cannot hold, so that order is all the flow
    control there is. */
module Upload {
  import opened Arithmetic
  import opened Decimals
  import opened Options
  import Base64
  import Framing

  const LINE: nat := 512
  const BLOCK: nat := 2048

  /** The tty's read buffer: input arriving while it is full is lost. */
  const TTY: nat := 4096

  // ---- payloads -----------------------------------------------------------

  /** A slice broken into lines, each ended. */
  function Lines(s: string): string {
    if s == "" then "" else s[..Min(LINE, |s|)] + "\n" + Lines(s[Min(LINE, |s|)..])
  }

  method BuildPayload(slice: string) returns (payload: string)
    ensures payload == Lines(slice)
  {
    payload := "";
    var i := 0;
    while i < |slice|
      invariant 0 <= i
      invariant i < |slice| ==> payload + Lines(slice[i..]) == Lines(slice)
      invariant i >= |slice| ==> payload == Lines(slice)
      decreases |slice| - i
    {
      var line := slice[i..Min(i + LINE, |slice|)];
      LineStep(slice, i, payload, line);
      payload := payload + line + "\n";
      i := i + LINE;
    }
  }

  lemma LineStep(slice: string, i: nat, payload: string, line: string)
    requires i < |slice| && line == slice[i..Min(i + LINE, |slice|)]
    ensures i + LINE < |slice| ==> payload + Lines(slice[i..]) == (payload + line + "\n") + Lines(slice[i + LINE..])
    ensures i + LINE >= |slice| ==> payload + Lines(slice[i..]) == payload + line + "\n"
  {
    var rest := slice[i..];
    var k := Min(LINE, |rest|);
    assert rest[..k] == line && rest[k..] == slice[i + k..];
  }

  function Strip(s: string): string {
    if s == "" then "" else Strip(s[..|s| - 1]) + if s[|s| - 1] == '\n' then "" else [s[|s| - 1]]
  }

  lemma {:induction false} StripConcat(a: string, b: string)
    ensures Strip(a + b) == Strip(a) + Strip(b)
  {
    if b == "" {
      assert a + b == a;
    } else {
      StripConcat(a, b[..|b| - 1]);
      assert (a + b)[..|a + b| - 1] == a + b[..|b| - 1];
    }
  }

  lemma {:induction false} StripPlain(s: string)
    requires '\n' !in s
    ensures Strip(s) == s
  {
    if s != "" {
      StripPlain(s[..|s| - 1]);
    }
  }

  /** Taking the newlines out again gives the slice back. */
  lemma {:induction false} LinesStrip(s: string)
    requires '\n' !in s
    ensures Strip(Lines(s)) == s
  {
    if s != "" {
      var k := Min(LINE, |s|);
      LinesStrip(s[k..]);
      StripPlain(s[..k]);
      StripConcat(s[..k] + "\n", Lines(s[k..]));
      assert (s[..k] + "\n")[..k] == s[..k];
      assert s == s[..k] + s[k..];
    }
  }

  /** No line is longer than LINE and its newline, and the last is ended too. */
  ghost predicate ShortLines(p: string) {
    forall i: nat | i < |p| :: EndsSoon(p, i)
  }

  ghost predicate EndsSoon(p: string, i: nat) { exists j: nat :: EndsAt(p, i, j) }

  predicate EndsAt(p: string, i: nat, j: nat) { i <= j < |p| && j <= i + LINE && p[j] == '\n' }

  lemma {:induction false} LinesShort(s: string)
    ensures ShortLines(Lines(s))
  {
    if s != "" {
      var k := Min(LINE, |s|);
      var rest := Lines(s[k..]);
      LinesShort(s[k..]);
      var p := Lines(s);
      forall i: nat | i < |p|
        ensures EndsSoon(p, i)
      {
        if i <= k {
          assert EndsAt(p, i, k);
        } else {
          assert EndsSoon(rest, i - k - 1);
          var j: nat :| EndsAt(rest, i - k - 1, j);
          assert EndsAt(p, i, j + k + 1);
        }
      }
    }
  }

  lemma {:induction false} LinesLength(s: string)
    ensures |Lines(s)| == |s| + (|s| + LINE - 1) / LINE
  {
    if s != "" {
      var k := Min(LINE, |s|);
      LinesLength(s[k..]);
    }
  }

  // ---- commands -----------------------------------------------------------

  /** A marker whose token is split across quotes, so its own echo never shows it. */
  function Emit(tag: string): string { Framing.Emit(tag, "", "") }

  const CLEAR := "stty -echo; rm -f " + "/tmp/bw-load.b64 " + "/tmp/bw-load.tgz; "
  const READY := CLEAR + Emit("R-READY") + "\n"
  const GO_HEAD := Emit("R-GO") + "; head -c "
  const GO_TAIL := " >> /tmp/bw-load.b64; " + Emit("R-BLK") + "\n"

  function GoCommand(n: nat): string { GO_HEAD + Decimal(n) + GO_TAIL }

  /** What the guest's shell makes of a line: the count, if it is a block command. */
  function ParseGo(line: string): Option<nat> {
    if |line| >= |GO_HEAD| + |GO_TAIL| && line[..|GO_HEAD|] == GO_HEAD && line[|line| - |GO_TAIL|..] == GO_TAIL
    then ParseDecimal(line[|GO_HEAD|..|line| - |GO_TAIL|]) else None
  }

  /** One line and its end, no more. */
  predicate OneLine(s: string) { s != "" && s[|s| - 1] == '\n' && '\n' !in s[..|s| - 1] }

  predicate Plain(s: string) { '\n' !in s }

  lemma PlainConcat(a: string, b: string)
    requires Plain(a) && Plain(b)
    ensures Plain(a + b)
  {
  }

  lemma PlainEmit(tag: string)
    requires Plain(tag)
    ensures Plain(Emit(tag))
  {
    PlainConcat("printf '\\nBW''", tag);
    PlainConcat("printf '\\nBW''" + tag, "\\n'");
  }

  lemma EndedIsOneLine(s: string)
    requires Plain(s)
    ensures OneLine(s + "\n")
  {
    assert (s + "\n")[..|s|] == s;
  }

  lemma GoIsOneLine(n: nat)
    ensures OneLine(GoCommand(n))
  {
    var head, digits := GO_HEAD, Decimal(n);
    var tail := " >> /tmp/bw-load.b64; " + Emit("R-BLK");
    DecimalParses(n);
    PlainEmit("R-GO");
    PlainEmit("R-BLK");
    PlainConcat(Emit("R-GO"), "; head -c ");
    PlainConcat(" >> /tmp/bw-load.b64; ", Emit("R-BLK"));
    PlainConcat(head, digits);
    PlainConcat(head + digits, tail);
    EndedIsOneLine(head + digits + tail);
    assert GoCommand(n) == (head + digits + tail) + "\n";
  }

  lemma GoParses(n: nat)
    requires n < 10000
    ensures ParseGo(GoCommand(n)) == Some(n) && |GoCommand(n)| <= TTY
    ensures GoCommand(n) != READY
  {
    DecimalParses(n);
    Middle(GO_HEAD, Decimal(n), GO_TAIL);
    assert GoCommand(n)[0] == "printf '\\nBW''"[0];
    assert READY[0] == "stty -echo; rm -f "[0];
  }

  lemma Middle(a: string, b: string, c: string)
    ensures var s := a + b + c;
            s[..|a|] == a && s[|a|..|s| - |c|] == b && s[|s| - |c|..] == c
  {
  }

  lemma ReadyParses()
    ensures OneLine(READY) && |READY| <= TTY
  {
    PlainEmit("R-READY");
    PlainConcat("stty -echo; rm -f ", "/tmp/bw-load.b64 ");
    PlainConcat("stty -echo; rm -f " + "/tmp/bw-load.b64 ", "/tmp/bw-load.tgz; ");
    PlainConcat(CLEAR, Emit("R-READY"));
    EndedIsOneLine(CLEAR + Emit("R-READY"));
  }

  // ---- the transfer -------------------------------------------------------

  /** What the page is waiting for: the file cleared, then for each block the guest
      reading and the block read. */
  datatype Phase = Clearing | Offered(block: nat) | Sent(block: nat) | Delivered

  /** What is reading the tty. `head -c` holds the shell until it has its count. */
  datatype Reader = Shell | Head(need: nat)

  /** `wire` is what is pasted and not yet at the tty; `tty` what no one has read.
      `ready`, `go` and `blk` are the markers printed since the page last looked. */
  datatype State = State(phase: Phase, gaveUp: bool, wire: string, tty: string, reader: Reader,
                         file: string, ready: bool, go: bool, blk: bool, lost: nat)

  /** One step of the page or of the world around it. */
  datatype Move = PageLooks | PageGivesUp | Arrives | ShellReads | HeadReads | HeadEnds

  function Blocks(text: string): nat { (|text| + BLOCK - 1) / BLOCK }

  function Slice(text: string, b: nat): string {
    text[Min(b * BLOCK, |text|)..Min((b + 1) * BLOCK, |text|)]
  }

  function Payload(text: string, b: nat): string { Lines(Slice(text, b)) }

  function Offer(s: State, text: string, b: nat): State {
    s.(phase := Offered(b), wire := s.wire + GoCommand(|Payload(text, b)|), go := false, blk := false)
  }

  function NextBlock(s: State, text: string, b: nat): State {
    if b < Blocks(text) then Offer(s, text, b) else s.(phase := Delivered)
  }

  /** The page looks at what the guest has printed, and pastes what comes next. */
  function Look(s: State, text: string): State {
    match s.phase
    case Clearing => if s.ready then NextBlock(s, text, 0) else s
    case Offered(b) => if s.go then s.(phase := Sent(b), wire := s.wire + Payload(text, b)) else s
    case Sent(b) => if s.blk then NextBlock(s, text, b + 1) else s
    case Delivered => s
  }

  /** The length of the first line, its end included; 0 if none is complete. */
  function FirstLine(s: string): (n: nat)
    ensures n <= |s| && (n > 0 ==> OneLine(s[..n])) && (n == 0 ==> '\n' !in s)
  {
    if s == "" then 0
    else if s[0] == '\n' then assert s[..1][..0] == ""; 1
    else
      var n := FirstLine(s[1..]);
      assert s == [s[0]] + s[1..];
      assert n > 0 ==> s[..n + 1] == [s[0]] + s[1..][..n];
      assert n > 0 ==> s[..n + 1][..n] == [s[0]] + s[1..][..n][..n - 1];
      if n == 0 then 0 else n + 1
  }

  /** The shell runs one line: the page's clear, one of its block commands, or
      something of no account here. */
  function Run(s: State, line: string): State {
    if line == READY then s.(file := "", ready := true)
    else if ParseGo(line).Some? then s.(go := true, reader := Head(ParseGo(line).value))
    else s
  }

  function Next(s: State, text: string, m: Move): State {
    match m
    case PageLooks => if s.gaveUp then s else Look(s, text)
    case PageGivesUp => if s.phase.Delivered? then s else s.(gaveUp := true)
    case Arrives =>
      if s.wire == "" then s
      else if |s.tty| >= TTY then s.(wire := s.wire[1..], lost := s.lost + 1)
      else s.(wire := s.wire[1..], tty := s.tty + [s.wire[0]])
    case ShellReads =>
      var n := FirstLine(s.tty);
      if s.reader != Shell || n == 0 then s else Run(s.(tty := s.tty[n..]), s.tty[..n])
    case HeadReads =>
      var n := FirstLine(s.tty);
      if s.reader.Shell? || n == 0 then s
      else
        var k := Min(n, s.reader.need);
        s.(tty := s.tty[k..], file := s.file + s.tty[..k], reader := Head(s.reader.need - k))
    case HeadEnds =>
      if s.reader == Head(0) then s.(reader := Shell, blk := true) else s
  }

  /** The page has just pasted the clear, over whatever file an earlier try left. */
  function Start(leftover: string): State {
    State(Clearing, false, READY, "", Shell, leftover, false, false, false, 0)
  }

  function RunAll(leftover: string, text: string, moves: seq<Move>): State {
    if moves == [] then Start(leftover)
    else Next(RunAll(leftover, text, moves[..|moves| - 1]), text, moves[|moves| - 1])
  }

  // ---- what every reachable state keeps ----------------------------------

  /** The first `b` blocks, as the guest stores them. */
  function Stored(text: string, b: nat): string {
    if b == 0 then "" else Stored(text, b - 1) + Payload(text, b - 1)
  }

  ghost predicate Reachable(s: State, text: string) {
    && s.lost == 0
    && match s.phase
       case Clearing => ClearingOk(s)
       case Offered(b) => b < Blocks(text) && s.file == Stored(text, b) && OfferedOk(s, |Payload(text, b)|)
       case Sent(b) => b < Blocks(text) && s.go && SentOk(s, Stored(text, b), Payload(text, b))
       case Delivered => s.file == Stored(text, Blocks(text)) && s.wire == s.tty == "" && s.reader == Shell
  }

  ghost predicate ClearingOk(s: State) {
    && s.reader == Shell
    && (if s.ready then s.tty == s.wire == s.file == "" else s.tty + s.wire == READY)
  }

  ghost predicate OfferedOk(s: State, count: nat) {
    && count <= BLOCK + BLOCK / LINE && !s.blk
    && (if s.go then s.tty == s.wire == "" && s.reader == Head(count)
        else s.reader == Shell && s.tty + s.wire == GoCommand(count))
  }

  /** Everything pasted is in the file, in the buffer or on the wire, and the reader
      wants exactly what is still to come. */
  ghost predicate SentOk(s: State, before: string, payload: string) {
    && s.file + (s.tty + s.wire) == before + payload
    && |before| <= |s.file| && |payload| <= BLOCK + BLOCK / LINE && ShortLines(payload)
    && (if s.blk then s.reader == Shell && s.tty == s.wire == ""
        else s.reader == Head(|s.tty| + |s.wire|))
  }

  lemma PayloadFits(text: string, b: nat)
    ensures |Payload(text, b)| <= BLOCK + BLOCK / LINE && ShortLines(Payload(text, b))
  {
    LinesLength(Slice(text, b));
    LinesShort(Slice(text, b));
  }

  lemma NextBlockReachable(s: State, text: string, b: nat)
    requires s.lost == 0 && s.wire == s.tty == "" && s.reader == Shell && s.file == Stored(text, b)
    requires b <= Blocks(text)
    ensures Reachable(NextBlock(s, text, b), text)
  {
    PayloadFits(text, b);
  }

  lemma OfferedLooks(s: State, text: string, b: nat)
    requires Reachable(s, text) && s.phase == Offered(b) && s.go
    ensures Reachable(Look(s, text), text)
  {
    PayloadFits(text, b);
    assert "" + ("" + Payload(text, b)) == Payload(text, b);
  }

  lemma LookReachable(s: State, text: string)
    requires Reachable(s, text)
    ensures Reachable(Look(s, text), text)
  {
    match s.phase
    case Clearing =>
      if s.ready {
        NextBlockReachable(s, text, 0);
      }
    case Offered(b) =>
      if s.go {
        OfferedLooks(s, text, b);
      }
    case Sent(b) =>
      if s.blk {
        NextBlockReachable(s, text, b + 1);
      }
    case Delivered =>
  }

  lemma ArriveReachable(s: State, text: string)
    requires Reachable(s, text)
    ensures Reachable(Next(s, text, Arrives), text)
  {
    if s.wire != "" {
      ReadyParses();
      if s.phase.Offered? {
        GoParses(|Payload(text, s.phase.block)|);
      }
      assert |s.tty| < TTY;
      assert (s.tty + [s.wire[0]]) + s.wire[1..] == s.tty + s.wire;
    }
  }

  lemma {:induction false} FirstLineIs(s: string, n: nat)
    requires n <= |s| && OneLine(s[..n])
    ensures FirstLine(s) == n
  {
    assert forall k :: 0 <= k < n - 1 ==> s[k] == s[..n][..n - 1][k];
    if s[0] != '\n' {
      assert s[1..][..n - 1] == s[..n][1..];
      assert s[..n][1..][..n - 2] == s[..n][..n - 1][1..];
      FirstLineIs(s[1..], n - 1);
    }
  }

  /** A complete line that begins one-line text is the whole of it. */
  lemma WholeLine(s: string, rest: string, n: nat)
    requires OneLine(s + rest) && n <= |s| && OneLine(s[..n])
    ensures n == |s| && rest == ""
  {
    var all := s + rest;
    assert all[..|all| - 1] == (s + rest)[..|all| - 1];
    assert all[n - 1] == s[..n][n - 1] == '\n';
    assert forall k :: 0 <= k < |all| - 1 ==> all[k] in all[..|all| - 1];
  }

  lemma ShellReachable(s: State, text: string)
    requires Reachable(s, text)
    ensures Reachable(Next(s, text, ShellReads), text)
  {
    var n := FirstLine(s.tty);
    if s.reader == Shell && n > 0 {
      match s.phase
      case Clearing =>
        ReadyParses();
        WholeLine(s.tty, s.wire, n);
        assert s.tty[..n] == READY;
      case Offered(b) =>
        var count := |Payload(text, b)|;
        PayloadFits(text, b);
        GoParses(count);
        GoIsOneLine(count);
        WholeLine(s.tty, s.wire, n);
        assert s.tty[..n] == GoCommand(count);
      case _ =>
    }
  }

  lemma HeadReachable(s: State, text: string)
    requires Reachable(s, text)
    ensures Reachable(Next(s, text, HeadReads), text)
  {
    var n := FirstLine(s.tty);
    if s.reader != Shell && n > 0 && s.phase.Sent? {
      assert s.tty == s.tty[..n] + s.tty[n..];
      assert (s.file + s.tty[..n]) + (s.tty[n..] + s.wire) == s.file + (s.tty + s.wire);
    }
  }

  lemma StepReachable(s: State, text: string, m: Move)
    requires Reachable(s, text)
    ensures Reachable(Next(s, text, m), text)
  {
    match m
    case PageLooks => LookReachable(s, text);
    case PageGivesUp =>
    case Arrives => ArriveReachable(s, text);
    case ShellReads => ShellReachable(s, text);
    case HeadReads => HeadReachable(s, text);
    case HeadEnds =>
  }

  /** Every interleaving of the page, the wire, the shell and `head` keeps to it. */
  lemma {:induction false} AlwaysReachable(leftover: string, text: string, moves: seq<Move>)
    ensures Reachable(RunAll(leftover, text, moves), text)
  {
    if moves == [] {
      assert "" + READY == READY;
    } else {
      AlwaysReachable(leftover, text, moves[..|moves| - 1]);
      StepReachable(RunAll(leftover, text, moves[..|moves| - 1]), text, moves[|moves| - 1]);
    }
  }

  // ---- what that means ----------------------------------------------------

  lemma {:induction false} StoredStrips(text: string, b: nat)
    requires '\n' !in text && b <= Blocks(text)
    ensures Strip(Stored(text, b)) == text[..Min(b * BLOCK, |text|)]
  {
    if b > 0 {
      StoredStrips(text, b - 1);
      PayloadStrips(text, b - 1);
      StripConcat(Stored(text, b - 1), Payload(text, b - 1));
      SliceJoins(text, b - 1);
    }
  }

  lemma PayloadStrips(text: string, b: nat)
    requires '\n' !in text
    ensures Strip(Payload(text, b)) == Slice(text, b)
  {
    LinesStrip(Slice(text, b));
  }

  lemma SliceJoins(text: string, b: nat)
    ensures text[..Min(b * BLOCK, |text|)] + Slice(text, b) == text[..Min((b + 1) * BLOCK, |text|)]
  {
  }

  lemma LastBlock(text: string)
    ensures Min(Blocks(text) * BLOCK, |text|) == |text|
  {
  }

  lemma {:induction false} StripPrefix(a: string, b: string)
    requires a <= b
    ensures Strip(a) <= Strip(b)
  {
    StripConcat(a, b[|a|..]);
    assert b == a + b[|a|..];
  }

  /** Nothing lost, no more than 2052 bytes of payload unread, and the file, once
      cleared, newlines aside, a prefix of the text. */
  ghost predicate Kept(s: State, text: string) {
    && s.lost == 0 && |s.tty| <= TTY
    && (s.phase.Sent? ==> |s.tty| + |s.wire| <= BLOCK + BLOCK / LINE)
    && (s.ready || !s.phase.Clearing? ==> Strip(s.file) <= text)
  }

  lemma OfferedKeeps(s: State, text: string, b: nat)
    requires '\n' !in text && Reachable(s, text) && s.phase == Offered(b)
    ensures Kept(s, text)
  {
    PayloadFits(text, b);
    GoParses(|Payload(text, b)|);
    StoredStrips(text, b);
  }

  lemma SentKeeps(s: State, text: string, b: nat)
    requires '\n' !in text && Reachable(s, text) && s.phase == Sent(b)
    ensures Kept(s, text)
  {
    hide Strip;
    StoredStrips(text, b + 1);
    assert s.file <= s.file + (s.tty + s.wire) == Stored(text, b + 1);
    StripPrefix(s.file, Stored(text, b + 1));
  }

  /** So it is in every state of every interleaving. */
  lemma NothingIsLost(leftover: string, text: string, moves: seq<Move>)
    requires '\n' !in text
    ensures Kept(RunAll(leftover, text, moves), text)
  {
    AlwaysReachable(leftover, text, moves);
    var s := RunAll(leftover, text, moves);
    match s.phase
    case Clearing => ReadyParses();
    case Offered(b) => OfferedKeeps(s, text, b);
    case Sent(b) => SentKeeps(s, text, b);
    case Delivered => StoredStrips(text, Blocks(text));
  }

  /** And when the page is done the guest's file decodes to the very bytes, whatever
      their length and whatever an earlier try left in it. */
  lemma DeliversExactly(leftover: string, bytes: seq<Base64.Byte>, moves: seq<Move>)
    requires RunAll(leftover, Base64.PageText(bytes), moves).phase.Delivered?
    ensures Base64.Decode(Strip(RunAll(leftover, Base64.PageText(bytes), moves).file)) == Some(bytes)
  {
    var text := Base64.PageText(bytes);
    AlwaysReachable(leftover, text, moves);
    Base64.ChunkedIsOneLine(bytes, Base64.CHUNK);
    StoredStrips(text, Blocks(text));
    LastBlock(text);
    assert text[..|text|] == text;
    Base64.PageTextIsStandard(bytes);
  }

  // ---- and it gets there --------------------------------------------------

  /** Some step other than giving up is always there to take. */
  lemma NeverStuck(s: State, text: string)
    requires Reachable(s, text) && !s.gaveUp && !s.phase.Delivered?
    ensures exists m :: m != PageGivesUp && Next(s, text, m) != s
  {
    if s.wire != "" {
      assert Next(s, text, Arrives).wire == s.wire[1..];
    } else {
      match s.phase
      case Clearing => ClearingMoves(s, text);
      case Offered(b) => OfferedMoves(s, text, b);
      case Sent(b) => SentMoves(s, text, b);
    }
  }

  lemma ClearingMoves(s: State, text: string)
    requires Reachable(s, text) && !s.gaveUp && s.phase == Clearing && s.wire == ""
    ensures Next(s, text, PageLooks) != s || Next(s, text, ShellReads) != s
  {
    if !s.ready {
      ReadyParses();
      assert s.tty == READY && s.tty[..|s.tty|] == s.tty;
      FirstLineIs(s.tty, |s.tty|);
      assert Next(s, text, ShellReads).ready;
    }
  }

  lemma OfferedMoves(s: State, text: string, b: nat)
    requires Reachable(s, text) && !s.gaveUp && s.phase == Offered(b) && s.wire == ""
    ensures Next(s, text, PageLooks) != s || Next(s, text, ShellReads) != s
  {
    if !s.go {
      var count := |Payload(text, b)|;
      GoParses(count);
      GoIsOneLine(count);
      assert s.tty == GoCommand(count) && s.tty[..|s.tty|] == s.tty;
      FirstLineIs(s.tty, |s.tty|);
      assert Next(s, text, ShellReads).go;
    }
  }

  lemma SentMoves(s: State, text: string, b: nat)
    requires Reachable(s, text) && !s.gaveUp && s.phase == Sent(b) && s.wire == ""
    ensures Next(s, text, PageLooks) != s || Next(s, text, HeadReads) != s || Next(s, text, HeadEnds) != s
  {
    if !s.blk {
      if s.tty == "" {
        assert Next(s, text, HeadEnds).blk;
      } else {
        var p, before := Payload(text, b), Stored(text, b);
        var at := |s.file| - |before|;
        assert s.tty + s.wire == s.tty;
        TailOf(s.file, s.tty, before, p, at);
        assert EndsSoon(p, at);
        var j: nat :| EndsAt(p, at, j);
        assert s.tty[j - at] == '\n';
        assert FirstLine(s.tty) > 0;
        assert |Next(s, text, HeadReads).tty| < |s.tty|;
      }
    }
  }

  lemma TailOf(a: string, b: string, c: string, d: string, at: nat)
    requires a + b == c + d && |a| == |c| + at && b != ""
    ensures at < |d| && b == d[at..]
  {
    assert (a + b)[|a|..] == b && (c + d)[|a|..] == d[at..];
  }

  /** What is left to do, by block and then by byte. */
  function Rank(s: State, text: string): int {
    var stage := match s.phase
                 case Clearing => 2 * Blocks(text) + 3
                 case Offered(b) => 2 * (Blocks(text) - b) + 2
                 case Sent(b) => 2 * (Blocks(text) - b) + 1
                 case Delivered => 0;
    10000 * stage + 2 * |s.wire| + |s.tty| + if s.reader.Shell? then 0 else 1
  }

  /** And every step that does anything brings the end closer, so a transfer that is
      not given up is delivered. */
  lemma EveryStepCounts(s: State, text: string, m: Move)
    requires Reachable(s, text) && !s.gaveUp && m != PageGivesUp && Next(s, text, m) != s
    ensures 0 <= Rank(Next(s, text, m), text) < Rank(s, text)
  {
    RankBounds(s, text);
    match m
    case PageLooks =>
      LookReachable(s, text);
      RankBounds(Look(s, text), text);
      LookCounts(s, text);
    case ShellReads => ShellCounts(s, text);
    case _ => QuietCounts(s, text, m);
  }

  lemma QuietCounts(s: State, text: string, m: Move)
    requires m in {Arrives, HeadReads, HeadEnds} && Next(s, text, m) != s
    requires s.phase.Offered? || s.phase.Sent? ==> s.phase.block < Blocks(text)
    requires m == Arrives ==> |s.tty| + |s.wire| <= TTY
    requires m == HeadReads ==> s.reader != Head(0)
    ensures 0 <= Rank(Next(s, text, m), text) < Rank(s, text)
  {
  }

  lemma LookCounts(s: State, text: string)
    requires Reachable(s, text) && Look(s, text) != s
    requires |Look(s, text).wire| + |Look(s, text).tty| <= TTY
    requires s.phase.Offered? || s.phase.Sent? ==> s.phase.block < Blocks(text)
    ensures 0 <= Rank(Look(s, text), text) < Rank(s, text)
  {
  }

  lemma BlockCommandIsLong(line: string)
    ensures ParseGo(line).Some? ==> |line| >= 2
  {
  }

  lemma RunCounts(s: State, line: string, text: string)
    ensures Rank(Run(s, line), text) <= Rank(s, text) + if ParseGo(line).Some? then 1 else 0
    ensures Run(s, line).phase == s.phase
  {
  }

  lemma ShellCounts(s: State, text: string)
    requires Next(s, text, ShellReads) != s
    requires s.phase.Offered? || s.phase.Sent? ==> s.phase.block < Blocks(text)
    ensures 0 <= Rank(Next(s, text, ShellReads), text) < Rank(s, text)
  {
    var n := FirstLine(s.tty);
    BlockCommandIsLong(s.tty[..n]);
    RunCounts(s.(tty := s.tty[n..]), s.tty[..n], text);
  }

  lemma RankBounds(s: State, text: string)
    requires Reachable(s, text)
    ensures |s.wire| + |s.tty| <= TTY
    ensures s.phase.Offered? || s.phase.Sent? ==> s.phase.block < Blocks(text)
  {
    ReadyParses();
    if s.phase.Offered? {
      PayloadFits(text, s.phase.block);
      GoParses(|Payload(text, s.phase.block)|);
    }
  }
}
