/** The one way the page loses track of which side it is on: when exactly it is taken, and
    a run that takes it. */
module CheckpointCrossing {
  import opened Options
  import opened Mux
  import opened Checkpoint
  import opened CheckpointLaws
  import opened CheckpointSafety

  // ---- the four keys, exactly -----------------------------------------------

  predicate KeysThrough(o: Oracle, c: nat) {
    !o(c).throws && !o(c + 1).throws && !o(c + 2).throws && !o(c + 3).throws
  }

  /** Thrown out of with a Ctrl-A typed and nothing after it: at the second key or the fourth. */
  predicate Halfway(o: Oracle, c: nat) {
    !o(c).throws && (o(c + 1).throws || (!o(c + 2).throws && o(c + 3).throws))
  }

  ghost predicate Pressed(o: Oracle, s: State, first: char, second: char, r: Out) {
    && r.s == s.(log := r.s.log, clock := r.s.clock, keyboard := r.s.keyboard)
    && (r.threw <==> o(s.clock).throws || o(s.clock + 1).throws)
    && (!r.threw ==> r.s.clock == s.clock + 2)
    && r.s.keyboard == (if o(s.clock).throws then s.keyboard
                        else if o(s.clock + 1).throws then Key(s.keyboard, first)
                        else Key(Key(s.keyboard, first), second))
  }

  lemma PressKeys(o: Oracle, s: State, first: char, second: char)
    ensures Pressed(o, s, first, second, TryKeys(o, s, first, second))
  {}

  ghost predicate SwitchedExactly(o: Oracle, s: State, m: Out) {
    && m.s == s.(log := m.s.log, clock := m.s.clock, keyboard := m.s.keyboard, switches := m.s.switches)
    && (m.threw <==> !KeysThrough(o, s.clock))
    && (m.threw ==> m.s.switches == s.switches && m.s.keyboard.side == s.keyboard.side)
    && (m.threw && !s.keyboard.held ==> (m.s.keyboard.held <==> Halfway(o, s.clock)))
    && (!m.threw ==> m.s.switches == s.switches + 1 && m.s.keyboard == Keyboard(Other(s.keyboard.side), false)
                     && m.s.clock == s.clock + (if Inside(s) then 4 else 5)
                     && (m.ok <==> Inside(s) || o(s.clock + 4).answers))
  }

  lemma SwitchExactly(o: Oracle, s: State)
    ensures SwitchedExactly(o, s, SwitchMux(o, s))
  {
    PressKeys(o, s, CTRL_A, NUL);
    SecondExactly(o, s, TryKeys(o, s, CTRL_A, NUL));
  }

  lemma SecondExactly(o: Oracle, s: State, a: Out)
    requires Pressed(o, s, CTRL_A, NUL, a) && TypeSwitch(o, s) == SecondPair(o, a)
    ensures SwitchedExactly(o, s, SwitchMux(o, s))
  {
    if !a.threw {
      PressKeys(o, a.s, CTRL_A, 'c');
      BothExactly(o, s, a.s, TryKeys(o, a.s, CTRL_A, 'c'));
    }
  }

  lemma BothExactly(o: Oracle, s: State, a: State, b: Out)
    requires !o(s.clock).throws && !o(s.clock + 1).throws
    requires Pressed(o, s, CTRL_A, NUL, Out(a, false, true)) && Pressed(o, a, CTRL_A, 'c', b)
    ensures var t := if b.threw then b else b.(s := b.s.(switches := b.s.switches + 1));
            SwitchedExactly(o, s, if t.threw || t.s.switches % 2 == 0 then t.(ok := true)
                                  else Out(t.s.(clock := t.s.clock + 1), false, o(t.s.clock).answers))
  {
    SwitchesOnce(s.keyboard);
  }

  // ---- how a Ctrl-A comes to be held in the monitor ---------------------------

  /** The switch back that ends this leave is thrown out of halfway through a pair. */
  predicate BackHalfway(o: Oracle, s: State, may: bool) {
    Inside(s) && var r := Resume(o, s, may); !r.threw && Halfway(o, r.s.clock)
  }

  lemma ResumeKeepsKeys(o: Oracle, s: State, may: bool)
    requires Steady(s)
    ensures var r := Resume(o, s, may);
            Steady(r.s) && !r.s.unanswered
  {
    RunSeen(o, s.(unanswered := false), |s.log|, Cont);
  }

  ghost predicate HeldAfter(r: Out, l: Out, halfway: bool) {
    && (Inside(l.s) && l.s.keyboard.held <==> halfway)
    && (halfway ==> l.threw && l.s.paused == r.s.paused && !l.s.unanswered)
  }

  lemma LeaveHeld(o: Oracle, s: State, may: bool)
    requires Steady(s)
    ensures HeldAfter(Resume(o, s, may), Leave(o, s, may), BackHalfway(o, s, may))
  {
    ResumeKeepsKeys(o, s, may);
    SwitchBackHeld(o, Resume(o, s, may));
  }

  lemma SwitchBackHeld(o: Oracle, r: Out)
    requires Steady(r.s) && !r.s.unanswered
    ensures !r.threw ==> HeldAfter(r, SwitchMux(o, r.s), Halfway(o, r.s.clock))
  {
    SwitchExactly(o, r.s);
  }

  /** What `Crosses` comes to after a leave: a cont is due, allowed, and its paste goes through. */
  lemma CrossesAfter(o: Oracle, r: Out, l: Out, halfway: bool, may: bool)
    requires HeldAfter(r, l, halfway)
    ensures Crosses(o, l.s, may) <==> halfway && may && r.s.paused && !o(l.s.clock).throws
  {}

  // ---- a checkpoint -----------------------------------------------------------

  /** The checkpoint got into the monitor, its switch back was thrown out of after a Ctrl-A
      - at the second key or the fourth - and a stop is still without an answered cont. */
  predicate CheckpointHalfBack(o: Oracle, s: State) {
    var p := Shell(o, s.(busy := true), Prompt);
    !p.threw && p.ok &&
    var r := Saving(o, p.s);
    !r.threw && BackHalfway(o, r.s, true) && Resume(o, r.s, true).s.paused
  }

  lemma ResyncOutside(o: Oracle, l: Out, ok: bool)
    requires l.threw <==> Inside(l.s)
    ensures Resync(o, l, ok).s == l.s || !Inside(Resync(o, l, ok).s)
    ensures l.threw ==> Resync(o, l, ok).s == l.s
  {}

  lemma BackCrossing(o: Oracle, r: Out)
    requires Free(r.s)
    ensures Crosses(o, BackFromSaving(o, r).s, true) <==>
            !r.threw && BackHalfway(o, r.s, true) && Resume(o, r.s, true).s.paused
            && !o(BackFromSaving(o, r).s.clock).throws
  {
    if !r.threw {
      var l := Leave(o, r.s, true);
      ThrownInside(o, r.s, true);
      ResyncOutside(o, l, r.ok);
      if Inside(r.s) {
        LeaveHeld(o, r.s, true);
        CrossesAfter(o, Resume(o, r.s, true), l, BackHalfway(o, r.s, true), true);
      }
    }
  }

  /** A cont crosses exactly when the checkpoint is left half back, and the finally's paste
      of it goes through. */
  lemma CheckpointCrossing(o: Oracle, s: State)
    requires Ready(s)
    ensures CheckpointCrosses(o, s) <==>
            CheckpointHalfBack(o, s) && !o(CheckpointBody(o, s.(busy := true)).s.clock).throws
  {
    var b, n := s.(busy := true), |s.log|;
    assert Look(b.log, n) == View(false, false, true, true, Answered(Layer) in s.log);
    ShellSeen(o, b, n, Prompt);
    var p := Shell(o, b, Prompt);
    ShellHolds(b, p.s, n);
    if !p.threw && p.ok {
      SavingHolds(o, p.s, n);
      BackCrossing(o, Saving(o, p.s));
    }
  }

  // ---- a rollback -------------------------------------------------------------

  predicate RollbackHalfBack(o: Oracle, s: State) {
    var g := Loading(o, s.(busy := true));
    !g.out.threw && g.may && BackHalfway(o, g.out.s, g.may) && Resume(o, g.out.s, g.may).s.paused
  }

  lemma ReturnOutside(o: Oracle, l: Out, ok: bool)
    requires l.threw <==> Inside(l.s)
    ensures Return(o, l, ok).s == l.s || !Inside(Return(o, l, ok).s)
    ensures l.threw ==> Return(o, l, ok).s == l.s
  {}

  lemma ReturnCrossing(o: Oracle, g: Going)
    requires Free(g.out.s) && !g.out.threw
    ensures var r := Return(o, Leave(o, g.out.s, g.may), g.out.ok);
            Crosses(o, r.s, g.may) <==>
            g.may && BackHalfway(o, g.out.s, g.may) && Resume(o, g.out.s, g.may).s.paused
            && !o(r.s.clock).throws
  {
    var l := Leave(o, g.out.s, g.may);
    ThrownInside(o, g.out.s, g.may);
    ReturnOutside(o, l, g.out.ok);
    if Inside(g.out.s) {
      LeaveHeld(o, g.out.s, g.may);
      CrossesAfter(o, Resume(o, g.out.s, g.may), l, BackHalfway(o, g.out.s, g.may), g.may);
    }
  }

  lemma RollbackCrossing(o: Oracle, s: State)
    requires Ready(s) && s.savedAt.Some?
    ensures RollbackCrosses(o, s) <==>
            RollbackHalfBack(o, s) && !o(RollbackBody(o, s.(busy := true)).out.s.clock).throws
  {
    var b, n := s.(busy := true), |s.log|;
    assert Look(b.log, n) == View(false, false, true, true, Answered(Layer) in s.log);
    LoadingHolds(o, b, n);
    if !Loading(o, b).out.threw {
      ReturnCrossing(o, Loading(o, b));
    }
  }

  // ---- a run that takes it ------------------------------------------------------

  const HAD_ONE := State(false, 0, false, false, true, Some(0), Keyboard(Serial, false),
                         Engine(true, true, true), [], 0)

  /** The cont at tick 11 is never answered, and the `c` of the switch after it throws. */
  function Crossing(t: nat): Fate { Fate(t == 16, true, t != 12, false, false) }

  /** Two losses put the page's focus on the wrong side: the finally's cont switches to the
      shell, and the switch back that follows it switches into the monitor again. */
  lemma FocusCanPart()
    ensures Ready(HAD_ONE) && CheckpointCrosses(Crossing, HAD_ONE)
    ensures var r := TakeCheckpoint(Crossing, HAD_ONE).s;
            && !Inside(r) && r.keyboard.side == Monitor && !SafeFrom(r.log, 0)
            && !SwitchBackOfCheckpoint(Crossing, HAD_ONE).threw
  {
    var b := HAD_ONE.(busy := true);
    var p := Shell(Crossing, b, Prompt);
    assert !p.threw && p.ok && p.s.clock == 2;
    SwitchExactly(Crossing, p.s);
    var m := SwitchMux(Crossing, p.s);
    CrossingSaves(m.s);
    var r := StopThenSave(Crossing, m.s);
    assert Saving(Crossing, p.s) == r;
    CrossingLeaves(r.s);
    var l := Leave(Crossing, r.s, true);
    assert CheckpointBody(Crossing, b) == l;
    CheckpointIsSafe(Crossing, HAD_ONE);
    CrossingEnds(l.s);
    ThrownInside(Crossing, l.s, true);
  }

  lemma CrossingSaves(s: State)
    requires s.clock == 7 && s.layered && s.engine.layered && Heard(s.keyboard) && Inside(s)
    ensures var r := StopThenSave(Crossing, s);
            && !r.threw && r.ok && r.s.clock == 11 && r.s.paused && !r.s.unanswered && Steady(r.s)
            && r.s.keyboard == s.keyboard
  {
    var stop := Run(Crossing, s, Stop);
    assert !stop.threw && stop.ok && stop.s.clock == 9 && stop.s.keyboard == s.keyboard;
    var save := Run(Crossing, stop.s, SaveVm);
    assert !save.threw && save.ok && save.s.clock == 11 && save.s.keyboard == s.keyboard;
  }

  lemma CrossingLeaves(s: State)
    requires s.clock == 11 && s.paused && !s.unanswered && Inside(s) && Heard(s.keyboard)
    ensures var l := Leave(Crossing, s, true);
            l.threw && Crosses(Crossing, l.s, true) && l.s.clock == 17
  {
    var c := Run(Crossing, s.(unanswered := false), Cont);
    assert !c.threw && !c.ok && c.s.clock == 13 && c.s.paused && c.s.keyboard == s.keyboard;
    assert Resume(Crossing, s, true) == c;
    LeaveHeld(Crossing, s, true);
    CrossingStops(c.s);
  }

  lemma CrossingStops(s: State)
    requires s.clock == 13
    ensures var m := SwitchMux(Crossing, s); m.threw && m.s.clock == 17
  {
    PressKeys(Crossing, s, CTRL_A, NUL);
    var a := TryKeys(Crossing, s, CTRL_A, NUL);
    assert !a.threw && a.s.clock == 15;
    assert TryKeys(Crossing, a.s, CTRL_A, 'c').threw;
  }

  lemma CrossingEnds(s: State)
    requires Crosses(Crossing, s, true) && s.clock == 17
    ensures !Leave(Crossing, s, true).threw
  {
    var c := Run(Crossing, s.(unanswered := false), Cont);
    assert !c.threw && c.s.clock == 19;
    SwitchExactly(Crossing, c.s);
  }
}
