/** The commands the page pastes are echoed back into the very text it looks for markers
    in: none of them shows one. */
module Echoes {
  import opened Decimals
  import opened Framing
  import Upload

  /** No marker, of a download or of an upload, begins anywhere in it. */
  ghost predicate Hidden(s: string) {
    forall i :: 0 <= i ==> !Occurs(s, i, "BWT") && !Occurs(s, i, "BWR")
  }

  /** Every W in it is one a command split from its tag: a quote comes next. */
  ghost predicate Quoted(s: string) {
    forall i :: 0 <= i < |s| && s[i] == 'W' ==> i + 1 < |s| && s[i + 1] == '\''
  }

  lemma QuotedHides(s: string)
    requires Quoted(s)
    ensures Hidden(s)
  {
    forall i | 0 <= i ensures !Occurs(s, i, "BWT") && !Occurs(s, i, "BWR") {
      CharAt(s, i, "BWT", 1);
      CharAt(s, i, "BWT", 2);
      CharAt(s, i, "BWR", 1);
      CharAt(s, i, "BWR", 2);
    }
  }

  lemma QuotedJoined(a: string, b: string)
    requires Quoted(a) && Quoted(b)
    ensures Quoted(a + b)
  {
    var s := a + b;
    forall i | 0 <= i < |s| && s[i] == 'W' ensures i + 1 < |s| && s[i + 1] == '\'' {
      if i < |a| {
        assert a[i] == 'W' && a[i + 1] == s[i + 1];
      } else {
        assert b[i - |a|] == 'W' && b[i - |a| + 1] == s[i + 1];
      }
    }
  }

  lemma NoW(s: string)
    requires 'W' !in s
    ensures Quoted(s)
  {}

  // ---- a whole command --------------------------------------------------------

  /** What a command is put together from: shell text, and the markers it is to print. */
  datatype Part = Words(text: string) | Marker(tag: string, fmt: string, args: string)

  function Shown(p: Part): string {
    match p
    case Words(text) => text
    case Marker(tag, fmt, args) => Emit(tag, fmt, args)
  }

  function Text(parts: seq<Part>): string {
    if parts == [] then "" else Shown(parts[0]) + Text(parts[1..])
  }

  predicate Plain(p: Part) {
    match p
    case Words(text) => 'W' !in text
    case Marker(tag, fmt, args) => 'W' !in tag && 'W' !in fmt && 'W' !in args
  }

  lemma QuoteQuoted()
    ensures Quoted("printf '\\nBW''")
  {
    var head, bw := "printf '\\n", "BW''";
    assert bw[2] == '\'';
    QuotedJoined(head, bw);
    assert "printf '\\nBW''" == head + bw;
  }

  lemma EmitQuoted(tag: string, fmt: string, args: string)
    requires 'W' !in tag && 'W' !in fmt && 'W' !in args
    ensures Quoted(Emit(tag, fmt, args))
  {
    var quote, more := "printf '\\nBW''", if fmt == "" then "" else " " + fmt;
    var last := if args == "" then "" else " " + args;
    QuoteQuoted();
    QuotedJoined(quote, tag);
    QuotedJoined(quote + tag, more);
    QuotedJoined(quote + tag + more, "\\n'");
    QuotedJoined(quote + tag + more + "\\n'", last);
  }

  /** Whatever it is put together from, so long as no part says W, the echo of it is never
      taken for a marker: not one it prints, nor any other. */
  lemma {:induction false} CommandHides(parts: seq<Part>)
    requires forall p :: p in parts ==> Plain(p)
    ensures Quoted(Text(parts)) && Hidden(Text(parts))
    decreases |parts|
  {
    if parts != [] {
      var p := parts[0];
      assert p in parts;
      CommandHides(parts[1..]);
      match p {
        case Words(text) => NoW(text);
        case Marker(tag, fmt, args) => EmitQuoted(tag, fmt, args);
      }
      QuotedJoined(Shown(p), Text(parts[1..]));
    }
    QuotedHides(Text(parts));
  }

  // ---- the commands ------------------------------------------------------------

  /** wc and cksum of a file, and the last printable line of another, as printf arguments. */
  function Sums(file: string): string {
    "\"$(wc -c < " + file + ")\" \"$(cksum < " + file + " | cut -d\" \" -f1)\""
  }

  function Said(file: string): string { "\"$(tail -1 " + file + " | tr -c \"[:print:]\" \" \")\"" }

  const TMP := "/tmp/"
  const SAVED := TMP + "bw-save.tgz"
  const SAVE_ERR := TMP + "bw-save.err"
  const LOADED := TMP + "bw-load.tgz"
  const LOAD_B64 := TMP + "bw-load.b64"
  const LOAD_ERR := TMP + "bw-load.err"
  const SUDO := "sudo /usr/local/sbin/"
  const PACK := SUDO + "bashtion-pack"
  const UNPACK := SUDO + "bashtion-unpack"

  /** The archive packed, sent between its markers, or the reason it was not. */
  function SaveCommand(): seq<Part> { Packing() + Sending() + Telling() }

  function Packing(): seq<Part> {
    [Words("stty -echo; "), Marker("T-PACK", "", ""), Words("; if "), Words(PACK), Words(" > "), Words(SAVED),
     Words(" 2>"), Words(SAVE_ERR), Words("; then ")]
  }

  function Sending(): seq<Part> {
    [Marker("T-BEGIN", "%s %s", Sums(SAVED)), Words("; base64 -w0 < "), Words(SAVED), Words("; "),
     Marker("T-END", "", "")]
  }

  function Telling(): seq<Part> {
    [Words("; else "), Marker("T-ERR", "%s", Said(SAVE_ERR)), Words("; fi; rm -f "), Words(SAVED), Words(" "),
     Words(SAVE_ERR), Words("; stty echo\n")]
  }

  function SumCommand(): seq<Part> {
    [Words("base64 -d < "), Words(LOAD_B64), Words(" > "), Words(LOADED), Words(" 2>/dev/null; "),
     Marker("R-SUM", "%s %s", Sums(LOADED)), Words("\n")]
  }

  function UnpackCommand(): seq<Part> { Unpacking() + Verdict() + Cleaning() }

  function Unpacking(): seq<Part> {
    [Words("if "), Words(UNPACK), Words(" < "), Words(LOADED), Words(" >"), Words(LOAD_ERR), Words(" 2>&1; then ")]
  }

  function Verdict(): seq<Part> {
    [Marker("R-OK", "%s", Said(LOAD_ERR)), Words("; else "), Marker("R-FAIL", "%s", Said(LOAD_ERR))]
  }

  function Cleaning(): seq<Part> {
    [Words("; fi; rm -f "), Words(LOAD_B64), Words(" "), Words(LOADED), Words(" "), Words(LOAD_ERR),
     Words("; stty echo\n")]
  }

  // ---- none of them shows a marker -------------------------------------------------

  lemma NoWTogether(a: string, b: string)
    requires 'W' !in a && 'W' !in b
    ensures 'W' !in a + b
  {}

  lemma SavePaths()
    ensures 'W' !in SAVED && 'W' !in SAVE_ERR
  {
    NoWTogether(TMP, "bw-save.tgz");
    NoWTogether(TMP, "bw-save.err");
  }

  lemma LoadPaths()
    ensures 'W' !in LOADED && 'W' !in LOAD_B64 && 'W' !in LOAD_ERR
  {
    NoWTogether(TMP, "bw-load.tgz");
    NoWTogether(TMP, "bw-load.b64");
    NoWTogether(TMP, "bw-load.err");
  }

  lemma HelpersPlain()
    ensures 'W' !in PACK && 'W' !in UNPACK
  {
    NoWTogether(SUDO, "bashtion-pack");
    NoWTogether(SUDO, "bashtion-unpack");
  }

  lemma SumsPlain(file: string)
    requires 'W' !in file
    ensures 'W' !in Sums(file)
  {
    var a, b, c := "\"$(wc -c < ", ")\" \"$(cksum < ", " | cut -d\" \" -f1)\"";
    NoWTogether(a, file);
    NoWTogether(a + file, b);
    NoWTogether(a + file + b, file);
    NoWTogether(a + file + b + file, c);
  }

  lemma SaidPlain(file: string)
    requires 'W' !in file
    ensures 'W' !in Said(file)
  {
    var a, b := "\"$(tail -1 ", " | tr -c \"[:print:]\" \" \")\"";
    NoWTogether(a, file);
    NoWTogether(a + file, b);
  }

  ghost predicate AllPlain(parts: seq<Part>) { forall p :: p in parts ==> Plain(p) }

  lemma PackingPlain()
    ensures AllPlain(Packing())
  {
    SavePaths();
    HelpersPlain();
  }

  lemma SendingPlain()
    ensures AllPlain(Sending())
  {
    SavePaths();
    SumsPlain(SAVED);
  }

  lemma TellingPlain()
    ensures AllPlain(Telling())
  {
    SavePaths();
    SaidPlain(SAVE_ERR);
  }

  /** The whole of the save command, whatever the guest makes of it. */
  lemma SaveHidesItsMarkers()
    ensures Hidden(Text(SaveCommand()))
  {
    hide Packing, Sending, Telling, Plain;
    PackingPlain();
    SendingPlain();
    TellingPlain();
    CommandHides(SaveCommand());
  }

  lemma SumPlain()
    ensures AllPlain(SumCommand())
  {
    LoadPaths();
    SumsPlain(LOADED);
  }

  lemma UnpackingPlain()
    ensures AllPlain(Unpacking())
  {
    LoadPaths();
    HelpersPlain();
  }

  lemma VerdictPlain()
    ensures AllPlain(Verdict())
  {
    LoadPaths();
    SaidPlain(LOAD_ERR);
  }

  lemma CleaningPlain()
    ensures AllPlain(Cleaning())
  {
    LoadPaths();
  }

  lemma UnpackPlain()
    ensures AllPlain(UnpackCommand())
  {
    hide Unpacking, Verdict, Cleaning, Plain;
    UnpackingPlain();
    VerdictPlain();
    CleaningPlain();
  }

  lemma ReadyQuoted()
    ensures Quoted(Upload.READY)
  {
    NoWTogether("stty -echo; rm -f ", "/tmp/bw-load.b64 ");
    NoWTogether("stty -echo; rm -f " + "/tmp/bw-load.b64 ", "/tmp/bw-load.tgz; ");
    EmitQuoted("R-READY", "", "");
    QuotedJoined(Upload.CLEAR, Upload.Emit("R-READY"));
    QuotedJoined(Upload.CLEAR + Upload.Emit("R-READY"), "\n");
  }

  lemma GoQuoted(n: nat)
    ensures Quoted(Upload.GoCommand(n))
  {
    EmitQuoted("R-GO", "", "");
    EmitQuoted("R-BLK", "", "");
    DecimalDigits(n);
    NoW(Decimal(n));
    QuotedJoined(Upload.Emit("R-GO"), "; head -c ");
    QuotedJoined(" >> /tmp/bw-load.b64; ", Upload.Emit("R-BLK"));
    QuotedJoined(" >> /tmp/bw-load.b64; " + Upload.Emit("R-BLK"), "\n");
    QuotedJoined(Upload.GO_HEAD, Decimal(n));
    QuotedJoined(Upload.GO_HEAD + Decimal(n), Upload.GO_TAIL);
  }

  /** Every command of a load: the one that asks whether the guest is ready, the one before
      a block, of any length, and the two that check and unpack what arrived. */
  lemma LoadHidesItsMarkers(n: nat)
    ensures Hidden(Upload.READY) && Hidden(Upload.GoCommand(n))
    ensures Hidden(Text(SumCommand())) && Hidden(Text(UnpackCommand()))
  {
    hide Quoted, Plain, SumCommand, UnpackCommand, Upload.GoCommand;
    ReadyQuoted();
    QuotedHides(Upload.READY);
    GoQuoted(n);
    QuotedHides(Upload.GoCommand(n));
    SumPlain();
    CommandHides(SumCommand());
    UnpackPlain();
    CommandHides(UnpackCommand());
  }

  // ---- the markers ---------------------------------------------------------------------

  /** Of a download, and of an upload. */
  function Marks(): seq<string> {
    ["BWT-PACK", BEGIN, END, ERR] + ["BWR-READY", "BWR-GO", "BWR-BLK", "BWR-SUM", "BWR-OK", "BWR-FAIL"]
  }

  lemma MarksBegin(m: string)
    requires m in Marks()
    ensures |m| >= 3 && (m[..3] == "BWT" || m[..3] == "BWR")
  {}

  /** Where no marker begins none is found. */
  lemma HiddenHasNoMark(s: string, i: nat, m: string)
    requires Hidden(s) && m in Marks()
    ensures !Occurs(s, i, m)
  {
    MarksBegin(m);
    OccursFront(s, i, m, 3);
  }

  lemma OccursFront(s: string, i: nat, m: string, n: nat)
    requires n <= |m|
    ensures Occurs(s, i, m) ==> Occurs(s, i, m[..n])
  {
    if Occurs(s, i, m) {
      assert s[i..i + n] == s[i..i + |m|][..n];
    }
  }
}
