/** Checkpoint and rollback through QEMU's monitor, as the page drives it: what it
    remembers, what the world around it is, and what each operation does to both -
    whatever the monitor answers, loses or refuses, and wherever a paste throws. */
module Checkpoint {
  import opened Options
  import opened Mux

  /** What the page types: the monitor's commands, the two lines for the shell - Ctrl-U
      and Enter for a prompt, and the one that puts clock and screen size right - or one
      of the keys of a switch. */
  datatype Typed = Stop | Cont | Layer | SaveVm | LoadVm | InfoSnapshots | Prompt | Sync | SwitchKey

  predicate IsCommand(t: Typed) { t in {Stop, Cont, Layer, SaveVm, LoadVm, InfoSnapshots} }

  const CTRL_U := 0x15 as char

  /** The first byte of its line, the one the mux acts on. */
  function First(t: Typed): (ch: char)
    ensures t != SwitchKey ==> ch != CTRL_A
    ensures ch == 'c' <==> t == Cont
  {
    match t
    case Cont => 'c'
    case LoadVm => 'l'
    case InfoSnapshots => 'i'
    case Prompt => CTRL_U
    case SwitchKey => CTRL_A
    case _ => 's'
  }

  /** The machine behind the monitor. `slot` is whether the tag holds a snapshot. */
  datatype Engine = Engine(running: bool, layered: bool, slot: bool)

  /** One throw of the world's dice, made at every paste and every wait: whether the
      paste throws; whether the engine runs the command at all, answers it so the page
      sees the answer, and fails it; whether a failed savevm took the old snapshot. */
  datatype Fate = Fate(throws: bool, runs: bool, answers: bool, fails: bool, drops: bool)

  type Oracle = nat -> Fate

  /** What the page tried to type, the side of the mux it went to and whether whole, and
      over what machine; and what came back answered, a command without an error. A
      line that finds a Ctrl-A held loses its first byte to it. */
  datatype Event =
    | Tried(typed: Typed, side: Side, whole: bool, engine: Engine, threw: bool)
    | Answered(typed: Typed)

  /** The page's variables, then the world's. */
  datatype State = State(busy: bool, switches: nat, paused: bool, unanswered: bool, layered: bool,
                         savedAt: Option<nat>,
                         keyboard: Keyboard, engine: Engine, log: seq<Event>, clock: nat)

  /** Where a step leaves off: thrown out of it, or done with a result. */
  datatype Out = Out(s: State, threw: bool, ok: bool)

  function Note(s: State, e: Event): State { s.(log := s.log + [e]) }

  // ---- typing -------------------------------------------------------------

  /** One paste: thrown out of it types nothing; else the mux has its first byte. */
  function Try(o: Oracle, s: State, t: Typed, ch: char): (r: Out)
    ensures s.log <= r.s.log
  {
    var f := o(s.clock);
    var k := if f.throws then s.keyboard else Key(s.keyboard, ch);
    Out(Note(s, Tried(t, k.side, !s.keyboard.held, s.engine, f.throws)).(clock := s.clock + 1, keyboard := k),
        f.throws, true)
  }

  /** One key of a switch, typed with brackets off. */
  function TryKey(o: Oracle, s: State, ch: char): (r: Out)
    ensures s.log <= r.s.log
  {
    Try(o, s, SwitchKey, ch)
  }

  /** Two keys of a switch, the second only if the first went through. */
  function TryKeys(o: Oracle, s: State, first: char, second: char): (r: Out)
    ensures s.log <= r.s.log
  {
    var a := TryKey(o, s, first);
    if a.threw then a else TryKey(o, a.s, second)
  }

  /** Thrown out of, the switch is not counted. */
  function SecondPair(o: Oracle, a: Out): (r: Out)
    ensures a.s.log <= r.s.log
  {
    if a.threw then a
    else
      var b := TryKeys(o, a.s, CTRL_A, 'c');
      if b.threw then b else b.(s := b.s.(switches := b.s.switches + 1))
  }

  /** Ctrl-A NUL Ctrl-A c. */
  function TypeSwitch(o: Oracle, s: State): (r: Out)
    ensures s.log <= r.s.log
  {
    SecondPair(o, TryKeys(o, s, CTRL_A, NUL))
  }

  /** A switch into the monitor waits for its prompt; one out of it does not. */
  function SwitchMux(o: Oracle, s: State): (r: Out)
    ensures s.log <= r.s.log
  {
    var t := TypeSwitch(o, s);
    if t.threw || t.s.switches % 2 == 0 then t
    else Out(t.s.(clock := t.s.clock + 1), false, o(t.s.clock).answers)
  }

  // ---- monitor commands ---------------------------------------------------

  /** Does the engine refuse the command, whatever luck it has? */
  predicate Refuses(e: Engine, t: Typed) {
    (t == SaveVm && !e.layered) || (t == LoadVm && !e.slot)
  }

  /** What running a command does to the machine. A savevm that fails may already
      have deleted the snapshot it was to replace. */
  function Effect(e: Engine, t: Typed, f: Fate): Engine {
    if Refuses(e, t) then e
    else match t
      case Stop => e.(running := false)
      case Cont => e.(running := true)
      case Layer => if f.fails then e else e.(layered := true)
      case SaveVm => e.(slot := if f.fails then e.slot && !f.drops else true)
      case _ => e
  }

  predicate Fails(e: Engine, t: Typed, f: Fate) {
    Refuses(e, t) || (t in {Layer, SaveVm, LoadVm} && f.fails)
  }

  /** Is a line typed now one the monitor reads whole? */
  predicate Heard(k: Keyboard) { k == Keyboard(Monitor, false) }

  /** What a command that was typed gets back: typed at the shell by mistake, or short of
      its first byte, it runs nothing, but something may still look like an answer. */
  function Reply(o: Oracle, s: State, t: Typed, heard: bool): (r: Out)
    ensures s.log <= r.s.log
  {
    var f := o(s.clock);
    var engine := if heard && (f.runs || f.answers) then Effect(s.engine, t, f) else s.engine;
    var clean := f.answers && (t == Stop || !heard || !Fails(s.engine, t, f));
    var r := s.(engine := engine, clock := s.clock + 1);
    Out(if clean then Note(r, Answered(t)) else r, false, clean)
  }

  /** `run`: a stop counts as unanswered from before its paste until its prompt. */
  function Run(o: Oracle, s: State, t: Typed): (r: Out)
    ensures s.log <= r.s.log
  {
    var s0 := if t == Stop then s.(unanswered := true) else s;
    var typed := Try(o, s0, t, First(t));
    if typed.threw then typed
    else
      var r := Reply(o, typed.s, t, Heard(s.keyboard));
      if !r.ok then r
      else if t == Stop then r.(s := r.s.(paused := true, unanswered := false))
      else if t == Cont then r.(s := r.s.(paused := false))
      else r
  }

  /** The `cont` on the way out, if one is due. Cleared before it goes, `unanswered`
      buys one try only. */
  function Resume(o: Oracle, s: State, may: bool): (r: Out)
    ensures s.log <= r.s.log
  {
    var cleared := s.(unanswered := false);
    if may && (s.unanswered || s.paused) then Run(o, cleared, Cont) else Out(cleared, false, true)
  }

  /** `leave`: back to the serial side, if the page is in the monitor. */
  function Leave(o: Oracle, s: State, may: bool): (r: Out)
    ensures s.log <= r.s.log
  {
    if s.switches % 2 == 0 then Out(s, false, true)
    else
      var r := Resume(o, s, may);
      if r.threw then r
      else
        var m := SwitchMux(o, r.s);
        if m.threw then m else m.(ok := r.ok)
  }

  /** A line for the shell, and whether what it was sent for was seen to happen. */
  function Shell(o: Oracle, s: State, t: Typed): (r: Out)
    ensures s.log <= r.s.log
  {
    var typed := Try(o, s, t, First(t));
    if typed.threw then typed
    else
      var answered := o(typed.s.clock).answers;
      var r := typed.s.(clock := typed.s.clock + 1);
      Out(if answered then Note(r, Answered(t)) else r, false, answered)
  }

  // ---- checkpoint ---------------------------------------------------------

  /** The list taken after a failed savevm says whether the old snapshot survives. */
  function AfterFailedSave(o: Oracle, s: State): (r: Out)
    ensures s.log <= r.s.log
  {
    var list := Run(o, s, InfoSnapshots);
    if list.threw then list
    else if list.ok && list.s.engine.slot then list.(ok := false)
    else Out(list.s.(savedAt := None), false, false)
  }

  function SaveSnapshot(o: Oracle, s: State): (r: Out)
    ensures s.log <= r.s.log
  {
    var r := Run(o, s, SaveVm);
    if r.threw then r
    else if r.ok then r.(s := r.s.(savedAt := Some(r.s.clock)))
    else AfterFailedSave(o, r.s)
  }

  function LayerThenSave(o: Oracle, s: State): (r: Out)
    ensures s.log <= r.s.log
  {
    if s.layered then SaveSnapshot(o, s)
    else
      var r := Run(o, s, Layer);
      if r.threw || !r.ok then r else SaveSnapshot(o, r.s.(layered := true))
  }

  function StopThenSave(o: Oracle, s: State): (r: Out)
    ensures s.log <= r.s.log
  {
    var r := Run(o, s, Stop);
    if r.threw || !r.ok then r else LayerThenSave(o, r.s)
  }

  /** Into the monitor and the snapshot taken, if it answers. */
  function Saving(o: Oracle, s: State): (r: Out)
    ensures s.log <= r.s.log
  {
    var m := SwitchMux(o, s);
    if m.threw || !m.ok then m else StopThenSave(o, m.s)
  }

  /** The clock and the screen size, put right at the prompt unless the machine was
      left stopped. */
  function Resync(o: Oracle, l: Out, ok: bool): (r: Out)
    ensures l.s.log <= r.s.log
  {
    if l.threw then l
    else if l.s.paused then l.(ok := ok && l.ok)
    else
      var sync := Shell(o, l.s, Sync);
      if sync.threw then sync else sync.(ok := ok && l.ok)
  }

  /** Back from the monitor, whatever came of it there. */
  function BackFromSaving(o: Oracle, r: Out): (e: Out)
    ensures r.s.log <= e.s.log
  {
    if r.threw then r else Resync(o, Leave(o, r.s, true), r.ok)
  }

  function CheckpointBody(o: Oracle, s: State): (r: Out)
    ensures s.log <= r.s.log
  {
    var p := Shell(o, s, Prompt);
    if p.threw || !p.ok then p else BackFromSaving(o, Saving(o, p.s))
  }

  /** The finally block: leave once more if need be, and let go of the console even
      if that throws too. */
  function Release(body: Out, l: Out): Out {
    Out(l.s.(busy := false), body.threw || l.threw, body.ok && !body.threw && !l.threw)
  }

  function TakeCheckpoint(o: Oracle, s: State): (r: Out)
    ensures s.log <= r.s.log
  {
    if s.busy then Out(s, false, false)
    else
      var body := CheckpointBody(o, s.(busy := true));
      Release(body, Leave(o, body.s, true))
  }

  // ---- rollback -----------------------------------------------------------

  /** `may` is `resumable`: false from the moment loadvm is sent until it is answered. */
  datatype Going = Going(out: Out, may: bool)

  function StopThenLoad(o: Oracle, s: State): (r: Going)
    ensures s.log <= r.out.s.log
  {
    var r := Run(o, s, Stop);
    if r.threw || !r.ok then Going(r, true)
    else var l := Run(o, r.s, LoadVm);
         Going(l, !l.threw && l.ok)
  }

  function Loading(o: Oracle, s: State): (r: Going)
    ensures s.log <= r.out.s.log
  {
    var m := SwitchMux(o, s);
    if m.threw || !m.ok then Going(m, true) else StopThenLoad(o, m.s)
  }

  /** The prompt of the checkpoint, and the clock and screen size put right at it. */
  function Return(o: Oracle, l: Out, ok: bool): (r: Out)
    ensures l.s.log <= r.s.log
  {
    if l.threw || !ok || !l.ok then l.(ok := ok && l.ok)
    else
      var p := Shell(o, l.s, Prompt);
      if p.threw || !p.ok then p.(ok := true)
      else
        var sync := Shell(o, p.s, Sync);
        sync.(ok := true)
  }

  function RollbackBody(o: Oracle, s: State): (r: Going)
    ensures s.log <= r.out.s.log
  {
    var g := Loading(o, s);
    if g.out.threw then g else g.(out := Return(o, Leave(o, g.out.s, g.may), g.out.ok))
  }

  function Rollback(o: Oracle, s: State): (r: Out)
    ensures s.log <= r.s.log
  {
    if s.busy || s.savedAt.None? then Out(s, false, false)
    else
      var g := RollbackBody(o, s.(busy := true));
      Release(g.out, Leave(o, g.out.s, g.may))
  }
}
