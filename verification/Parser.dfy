/** The escape-sequence parser (ECMA-48 sections 5.4 and 5.6): one code point in,
    a new parser state and at most one action on the screen out. */
module Parser {
  import Texts
  import opened Options

  datatype State = Ground | Escape | EscapeInter | Csi | Osc | Str | StrEscape

  /** Whose the terminal is, as far as the guest's shell has said. */
  datatype Context = Unsaid | Shell | Command

  /** `osc` is the OSC being read, None in a DCS, SOS, PM or APC. */
  datatype Parser = Parser(state: State, params: string, inter: string,
                           osc: Option<string>, context: Context)

  const FRESH := Parser(Ground, "", "", None, Unsaid)

  /** What a code point makes the screen do. Resize is never parsed: it is the
      page's own action, taken before each chunk. */
  datatype Action =
    | Nothing
    | Print(ch: char)
    | Control(c: int)
    | Dispatch(final: char, params: string, inter: string)
    | Save | Restore | LineFeed | NextLine | ReverseIndex | Reset
    | Resize(cols: nat, rows: nat)

  const OSC_LIMIT := 1024

  /** The length of `s` in UTF-16 code units. */
  function Units(s: string): nat {
    if s == "" then 0 else Units(s[..|s| - 1]) + if s[|s| - 1] as int >= 0x10000 then 2 else 1
  }

  predicate IsStart(p: string) { "3008;start=" <= p }

  predicate SaysShellAt(p: string, i: nat) {
    i + 11 <= |p| && p[i..i + 11] == ";type=shell" && (i + 11 == |p| || p[i + 11] == ';')
  }

  predicate SaysShell(p: string) { exists i | 0 <= i < |p| :: SaysShellAt(p, i) }

  /** OSC 3008: a start names the shell or something it handed the terminal to. */
  function Said(p: string, context: Context): Context {
    if !IsStart(p) then context else if SaysShell(p) then Shell else Command
  }

  /** A completed string: an OSC is heard, the others are skipped. */
  function Complete(p: Parser): Parser {
    p.(state := Ground, context := if p.osc.Some? then Said(p.osc.value, p.context) else p.context)
  }

  function StartCsi(p: Parser): Parser { p.(state := Csi, params := "", inter := "") }

  function StartOsc(p: Parser): Parser { p.(state := Osc, osc := Some("")) }

  function StartStr(p: Parser): Parser { p.(state := Str, osc := None) }

  /** The code point after ESC. */
  function AfterEscape(p0: Parser, ch: char): (Parser, Action) {
    var p := p0.(state := Ground);
    if ch == '[' then (StartCsi(p), Nothing)
    else if ch == ']' then (StartOsc(p), Nothing)
    else if ch in "PX^_" then (StartStr(p), Nothing)
    else if ch == '7' then (p, Save)
    else if ch == '8' then (p, Restore)
    else if ch == 'D' then (p, LineFeed)
    else if ch == 'E' then (p, NextLine)
    else if ch == 'M' then (p, ReverseIndex)
    else if ch == 'c' then (p, Reset)
    else if 0x20 <= ch as int <= 0x2f then (p.(state := EscapeInter), Nothing)
    else (p, Nothing)
  }

  function InGround(p: Parser, ch: char): (Parser, Action) {
    var c := ch as int;
    if c >= 0x20 && c != 0x7f && (c < 0x80 || c >= 0xa0) then (p, Print(ch))
    else if c == 0x1b then (p.(state := Escape), Nothing)
    else if c == 0x9b then (StartCsi(p), Nothing)
    else if c == 0x9d then (StartOsc(p), Nothing)
    else if c == 0x90 || c == 0x98 || c == 0x9e || c == 0x9f then (StartStr(p), Nothing)
    else (p, Control(c))
  }

  /** Inside an OSC, or a DCS, SOS, PM or APC. BEL ends only an OSC. */
  function InString(p: Parser, ch: char): (Parser, Action) {
    var c := ch as int;
    if c == 0x9c || (c == 7 && p.state == Osc) then (Complete(p), Nothing)
    else if c == 0x1b then (p.(state := StrEscape), Nothing)
    else if p.osc.Some? && c >= 0x20 && Units(p.osc.value) < OSC_LIMIT
      then (p.(osc := Some(p.osc.value + [ch])), Nothing)
    else (p, Nothing)
  }

  function InStrEscape(p: Parser, ch: char): (Parser, Action) {
    var c := ch as int;
    if ch == '\\' then (Complete(p), Nothing)
    else if c == 0x1b then (p.(state := Escape), Nothing)
    else if c < 0x20 then (p.(state := Escape), Control(c))
    else AfterEscape(p, ch)
  }

  function InCsi(p: Parser, ch: char): (Parser, Action) {
    var c := ch as int;
    if 0x30 <= c <= 0x3f && p.inter == "" && |p.params| < 64 then (p.(params := p.params + [ch]), Nothing)
    else if 0x20 <= c <= 0x2f && |p.inter| < 8 then (p.(inter := p.inter + [ch]), Nothing)
    else (p.(state := Ground), if 0x40 <= c <= 0x7e then Dispatch(ch, p.params, p.inter) else Nothing)
  }

  function Step(p: Parser, ch: char): (Parser, Action) {
    var c := ch as int;
    if p.state == Ground then InGround(p, ch)
    else if c == 0x18 || c == 0x1a then (p.(state := Ground), Nothing)
    else if p.state == Osc || p.state == Str then InString(p, ch)
    else if p.state == StrEscape then InStrEscape(p, ch)
    else if c == 0x1b then (p.(state := Escape), Nothing)
    else if c < 0x20 then (p, Control(c))
    else if p.state == Escape then AfterEscape(p, ch)
    else if p.state == EscapeInter then (if c > 0x2f then p.(state := Ground) else p, Nothing)
    else InCsi(p, ch)
  }

  function Parse(p: Parser, s: string): Parser {
    if s == "" then p else Step(Parse(p, s[..|s| - 1]), s[|s| - 1]).0
  }

  function Actions(p: Parser, s: string): seq<Action> {
    if s == "" then []
    else Actions(p, s[..|s| - 1]) + [Step(Parse(p, s[..|s| - 1]), s[|s| - 1]).1]
  }

  // ---- parameters ---------------------------------------------------------

  predicate IsDigit(ch: char) { '0' <= ch <= '9' }

  /** parseInt(p, 10) || 0: the value of the leading digits. */
  function ParseInt(p: string): nat { LeadingValue(p, 0) }

  function LeadingValue(p: string, acc: nat): nat {
    if p == "" || !IsDigit(p[0]) then acc
    else LeadingValue(p[1..], 10 * acc + (p[0] as int - '0' as int))
  }

  function Private(params: string): Option<char> {
    if params != "" && params[0] in "<=>?" then Some(params[0]) else None
  }

  function Numbers(params: string): (r: seq<nat>)
    ensures |r| > 0
  {
    var parts := Texts.Split(if Private(params).Some? then params[1..] else params, ';');
    seq(|parts|, i requires 0 <= i < |parts| => ParseInt(parts[i]))
  }
}
