/** QEMU's Ctrl-A mux: one keyboard, two sides, and the four bytes that switch
    between them whatever the user had half typed. */
module Mux {

  datatype Side = Serial | Monitor

  /** `held` is a Ctrl-A waiting for the key that says what it means. */
  datatype Keyboard = Keyboard(side: Side, held: bool)

  const CTRL_A := 0x01 as char
  const NUL := 0x00 as char
  const ESC := 0x1b as char

  function Other(s: Side): Side { if s == Serial then Monitor else Serial }

  /** The mux sees every byte first: Ctrl-A c switches, Ctrl-A Ctrl-A sends one on,
      and Ctrl-A with any other key is swallowed with it. */
  function Key(k: Keyboard, ch: char): Keyboard {
    if k.held then Keyboard(if ch == 'c' then Other(k.side) else k.side, false)
    else k.(held := ch == CTRL_A)
  }

  function Keys(k: Keyboard, s: string): Keyboard
    decreases |s|
  {
    if s == "" then k else Keys(Key(k, s[0]), s[1..])
  }

  /** What xterm.paste() sends when the program in front has asked for brackets. */
  function Pasted(s: string, bracketed: bool): string {
    if bracketed then [ESC] + "[200~" + s + [ESC] + "[201~" else s
  }

  lemma {:induction false} KeysConcat(k: Keyboard, a: string, b: string)
    ensures Keys(k, a + b) == Keys(Keys(k, a), b)
    decreases |a|
  {
    if a == "" {
      assert a + b == b;
    } else {
      KeysConcat(Key(k, a[0]), a[1..], b);
      assert (a + b)[1..] == a[1..] + b;
    }
  }

  /** Ctrl-A NUL Ctrl-A c switches exactly once and leaves nothing held, from either
      side and with or without a Ctrl-A already held. */
  lemma SwitchesOnce(k: Keyboard)
    ensures Keys(k, [CTRL_A, NUL, CTRL_A, 'c']) == Keyboard(Other(k.side), false)
    ensures Key(Key(Key(Key(k, CTRL_A), NUL), CTRL_A), 'c') == Keyboard(Other(k.side), false)
  {
    var s := [CTRL_A, NUL, CTRL_A, 'c'];
    assert s[1..] == [NUL, CTRL_A, 'c'] && [NUL, CTRL_A, 'c'][1..] == [CTRL_A, 'c'];
    assert [CTRL_A, 'c'][1..] == ['c'];
    FourKeys(k, s);
  }

  lemma FourKeys(k: Keyboard, s: string)
    requires |s| == 4
    ensures Keys(k, s) == Key(Key(Key(Key(k, s[0]), s[1]), s[2]), s[3])
  {
    TwoKeys(k, s[..2]);
    TwoKeys(Keys(k, s[..2]), s[2..]);
    KeysConcat(k, s[..2], s[2..]);
    assert s == s[..2] + s[2..];
  }

  lemma TwoKeys(k: Keyboard, s: string)
    requires |s| == 2
    ensures Keys(k, s) == Key(Key(k, s[0]), s[1])
  {
    assert s[1..] == [s[1]];
    OneKey(Key(k, s[0]), s[1]);
  }

  /** Without the NUL it need not: a held Ctrl-A swallows the page's. */
  lemma HeldCtrlAWouldBreakIt(side: Side)
    ensures Keys(Keyboard(side, true), [CTRL_A, 'c']) == Keyboard(side, false)
  {
    assert [CTRL_A, 'c'][1..] == ['c'] && ['c'][1..] == "";
  }

  lemma {:induction false} PlainKeys(k: Keyboard, s: string)
    requires CTRL_A !in s && !k.held
    ensures Keys(k, s) == k
    decreases |s|
  {
    if s != "" {
      PlainKeys(Key(k, s[0]), s[1..]);
    }
  }

  /** Of a line without a Ctrl-A in it only the first byte means anything to the mux. */
  lemma FirstByteDecides(k: Keyboard, line: string)
    requires line != "" && CTRL_A !in line
    ensures Keys(k, line) == Key(k, line[0])
  {
    PlainKeys(Key(k, line[0]), line[1..]);
  }

  /** A bracketed key never reaches the mux as typed: the escape after it takes its
      place, so no switch is made. */
  lemma BracketedKeyIsLost(k: Keyboard, ch: char)
    ensures Keys(k, Pasted([ch], true)) == Keyboard(k.side, false)
  {
    var open, close := "[200~", "[201~";
    var k1 := Key(k, ESC);
    KeysConcat(k, [ESC] + open + [ch] + [ESC], close);
    KeysConcat(k, [ESC] + open + [ch], [ESC]);
    KeysConcat(k, [ESC] + open, [ch]);
    KeysConcat(k, [ESC], open);
    OneKey(k, ESC);
    PlainKeys(k1, open);
    OneKey(k1, ch);
    OneKey(Key(k1, ch), ESC);
    PlainKeys(k1, close);
  }

  lemma OneKey(k: Keyboard, ch: char)
    ensures Keys(k, [ch]) == Key(k, ch)
  {
    assert [ch][1..] == "";
  }

  /** So with brackets on, the page's four keys would switch nothing at all. */
  lemma BracketedNeverSwitches(k: Keyboard)
    ensures Keys(Keys(Keys(Keys(k, Pasted([CTRL_A], true)), Pasted([NUL], true)),
                      Pasted([CTRL_A], true)), Pasted(['c'], true)) == Keyboard(k.side, false)
  {
    BracketedKeyIsLost(k, CTRL_A);
    var k0 := Keyboard(k.side, false);
    BracketedKeyIsLost(k0, NUL);
    BracketedKeyIsLost(k0, CTRL_A);
    BracketedKeyIsLost(k0, 'c');
  }
}
