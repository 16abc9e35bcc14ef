/** What holds over every checkpoint and every rollback, wherever a paste throws and
    whatever the monitor loses or refuses. */
module CheckpointLaws {
  import opened Options
  import opened Mux
  import opened Checkpoint

  // ---- reading the log ----------------------------------------------------

  /** What an operation's part of the log has come to: a stop was tried and no cont at the
      monitor since; a loadvm was tried and has not been answered cleanly; everything went
      where it should; no cont was tried while half loaded; the layer command has ever
      succeeded. */
  datatype View = View(pending: bool, half: bool, proper: bool, fair: bool, asked: bool)

  /** Nothing goes to the wrong side, no command short of its first byte; savevm only ever
      over the layer, which is never asked for again once it is there. */
  predicate Allowed(v: View, e: Event) {
    e.Tried? ==>
      && (IsCommand(e.typed) ==> e.side == Monitor && (e.threw || e.whole))
      && (e.typed in {Prompt, Sync} ==> e.side == Serial)
      && (e.typed == SaveVm ==> e.engine.layered)
      && (e.typed == Layer ==> !v.asked)
  }

  /** A cont, tried where it can be heard of. */
  predicate IsCont(e: Event) { e.Tried? && e.typed == Cont && e.side == Monitor }

  function Then(v: View, e: Event): View {
    View(if e.Tried? && e.typed == Stop then true else if IsCont(e) then false else v.pending,
         if e.typed == LoadVm then e.Tried? else v.half,
         v.proper && Allowed(v, e),
         v.fair && !(v.half && e.Tried? && e.typed == Cont),
         v.asked || e == Answered(Layer))
  }

  /** The log from `n` on. */
  function Look(log: seq<Event>, n: nat): View
    requires n <= |log|
    decreases |log|
  {
    if |log| == n then View(false, false, true, true, Answered(Layer) in log)
    else Then(Look(log[..|log| - 1], n), log[|log| - 1])
  }

  lemma Appended(log: seq<Event>, n: nat, e: Event)
    requires n <= |log|
    ensures Look(log + [e], n) == Then(Look(log, n), e)
  {
    assert (log + [e])[..|log|] == log;
  }

  // ---- what one step does, said without its body --------------------------

  /** The page believes it is in the monitor. */
  predicate Inside(s: State) { s.switches % 2 == 1 }

  /** The page knows which side it is on. */
  ghost predicate Oriented(s: State) { (s.keyboard.side == Monitor) == Inside(s) }

  ghost predicate Grew(s: State, r: State, n: nat) { n <= |s.log| && s.log <= r.log }

  ghost predicate SameMemory(s: State, r: State) {
    r.busy == s.busy && r.layered == s.layered && r.paused == s.paused && r.unanswered == s.unanswered
  }

  /** Keys were typed, and the machine behind the monitor was not touched. */
  ghost predicate OnlyTyped(s: State, r: State, n: nat) {
    && SameMemory(s, r) && r.savedAt == s.savedAt && r.engine == s.engine
    && Grew(s, r, n) && Look(r.log, n) == Look(s.log, n)
  }

  /** The four keys: all through, the side is changed and counted, with nothing held;
      thrown out of, it is neither, and a Ctrl-A is held if the second or the fourth threw. */
  ghost predicate Switched(s: State, r: Out, n: nat) {
    && OnlyTyped(s, r.s, n)
    && r.s.switches == (if r.threw then s.switches else s.switches + 1)
    && r.s.keyboard.side == (if r.threw then s.keyboard.side else Other(s.keyboard.side))
    && (!r.threw ==> !r.s.keyboard.held)
  }

  /** A line was typed at the shell. */
  ghost predicate AtShell(s: State, r: State, n: nat) {
    && SameMemory(s, r) && r.savedAt == s.savedAt && r.engine == s.engine
    && r.switches == s.switches && r.keyboard.side == s.keyboard.side
    && Grew(s, r, n)
    && (s.keyboard.side == Serial ==> Look(r.log, n) == Look(s.log, n))
  }

  /** One command, typed with nothing held: what the log says of it and what the page
      makes of the answer. */
  ghost predicate Ran(s: State, t: Typed, r: Out, n: nat) {
    && Grew(s, r.s, n)
    && (var v := Then(Look(s.log, n), Tried(t, s.keyboard.side, true, s.engine, r.threw));
        Look(r.s.log, n) == if r.threw || !r.ok then v else Then(v, Answered(t)))
    && r.s.busy == s.busy && r.s.switches == s.switches && r.s.layered == s.layered
    && r.s.savedAt == s.savedAt && r.s.keyboard == s.keyboard
    && r.s.paused == (if r.threw || !r.ok then s.paused
                      else if t == Stop then true else if t == Cont then false else s.paused)
    && r.s.unanswered == (if t == Stop then r.threw || !r.ok else s.unanswered)
    && (s.engine.layered ==> r.s.engine.layered)
    && (t == Layer && !r.threw && r.ok && s.keyboard.side == Monitor ==> r.s.engine.layered)
  }

  lemma KeyTyped(o: Oracle, s: State, n: nat, ch: char)
    requires n <= |s.log|
    ensures var r := TryKey(o, s, ch);
            && OnlyTyped(s, r.s, n) && r.s.switches == s.switches
            && r.s.keyboard == if r.threw then s.keyboard else Key(s.keyboard, ch)
  {
    Appended(s.log, n, TryKey(o, s, ch).s.log[|s.log|]);
  }

  ghost predicate KeysTyped(s: State, first: char, second: char, r: Out, n: nat) {
    && OnlyTyped(s, r.s, n) && r.s.switches == s.switches
    && (!r.threw ==> r.s.keyboard == Key(Key(s.keyboard, first), second))
    && (r.threw ==> r.s.keyboard in {s.keyboard, Key(s.keyboard, first)})
  }

  lemma KeysSeen(o: Oracle, s: State, n: nat, first: char, second: char)
    requires n <= |s.log|
    ensures KeysTyped(s, first, second, TryKeys(o, s, first, second), n)
  {
    KeyTyped(o, s, n, first);
    KeyTyped(o, TryKey(o, s, first).s, n, second);
  }

  lemma SwitchTyped(o: Oracle, s: State, n: nat)
    requires n <= |s.log|
    ensures Switched(s, TypeSwitch(o, s), n)
  {
    KeysSeen(o, s, n, CTRL_A, NUL);
    SecondPairTyped(o, s, TryKeys(o, s, CTRL_A, NUL), n);
  }

  lemma SecondPairTyped(o: Oracle, s: State, a: Out, n: nat)
    requires n <= |s.log| && KeysTyped(s, CTRL_A, NUL, a, n)
    ensures Switched(s, SecondPair(o, a), n)
  {
    if a.threw {
      assert a.s.keyboard.side == s.keyboard.side;
    } else {
      KeysSeen(o, a.s, n, CTRL_A, 'c');
      BothPairs(s, a, TryKeys(o, a.s, CTRL_A, 'c'), n);
    }
  }

  lemma BothPairs(s: State, a: Out, b: Out, n: nat)
    requires n <= |s.log| && !a.threw
    requires KeysTyped(s, CTRL_A, NUL, a, n) && KeysTyped(a.s, CTRL_A, 'c', b, n)
    ensures Switched(s, if b.threw then b else b.(s := b.s.(switches := b.s.switches + 1)), n)
  {
    SwitchesOnce(s.keyboard);
  }

  lemma SwitchSeen(o: Oracle, s: State, n: nat)
    requires n <= |s.log|
    ensures Switched(s, SwitchMux(o, s), n)
  {
    SwitchTyped(o, s, n);
  }

  lemma ShellSeen(o: Oracle, s: State, n: nat, t: Typed)
    requires n <= |s.log| && t in {Prompt, Sync}
    ensures AtShell(s, Shell(o, s, t).s, n)
  {
    hide Look, Then, Key;
    var typed := Try(o, s, t, First(t));
    var e := typed.s.log[|s.log|];
    Appended(s.log, n, e);
    Appended(typed.s.log, n, Answered(t));
    ShellLineQuiet(Look(s.log, n), e, t);
    SideStays(s.keyboard, First(t));
  }

  /** A line for the shell, tried at the shell or answered, is nothing the view is about. */
  lemma ShellLineQuiet(v: View, e: Event, t: Typed)
    requires e.Tried? && e.typed == t && t in {Prompt, Sync}
    ensures e.side == Serial ==> Then(v, e) == v
    ensures Then(v, Answered(t)) == v
  {}

  lemma SideStays(k: Keyboard, ch: char)
    requires ch != 'c'
    ensures Key(k, ch).side == k.side
  {}

  lemma EffectKeepsLayer(e: Engine, t: Typed, f: Fate)
    ensures e.layered ==> Effect(e, t, f).layered
    ensures t == Layer && !Fails(e, t, f) ==> Effect(e, t, f).layered
  {}

  ghost predicate Replied(s: State, t: Typed, r: Out) {
    && r.s == s.(engine := r.s.engine, clock := r.s.clock, log := r.s.log)
    && r.s.log == (if r.ok then s.log + [Answered(t)] else s.log)
    && (s.engine.layered ==> r.s.engine.layered)
  }

  lemma ReplySeen(o: Oracle, s: State, t: Typed, heard: bool)
    ensures var r := Reply(o, s, t, heard);
            Replied(s, t, r) && !r.threw && (t == Layer && r.ok && heard ==> r.s.engine.layered)
  {
    EffectKeepsLayer(s.engine, t, o(s.clock));
  }

  lemma RunSeen(o: Oracle, s: State, n: nat, t: Typed)
    requires n <= |s.log| && !s.keyboard.held && IsCommand(t)
    ensures Ran(s, t, Run(o, s, t), n)
  {
    var s0 := if t == Stop then s.(unanswered := true) else s;
    var typed := Try(o, s0, t, First(t));
    var e := Tried(t, s.keyboard.side, true, s.engine, typed.threw);
    assert typed.s.log == s.log + [e];
    Appended(s.log, n, e);
    if !typed.threw {
      var heard := Heard(s.keyboard);
      var r := Reply(o, typed.s, t, heard);
      ReplySeen(o, typed.s, t, heard);
      Appended(typed.s.log, n, Answered(t));
      RanAfter(s, n, t, typed.s, r, Run(o, s, t));
    }
  }

  /** A reply heard, put together with the paste before it. */
  lemma RanAfter(s: State, n: nat, t: Typed, typed: State, r: Out, end: Out)
    requires n <= |s.log| && !r.threw && Replied(typed, t, r)
    requires t == Layer && r.ok && s.keyboard.side == Monitor ==> r.s.engine.layered
    requires typed == s.(unanswered := typed.unanswered, log := typed.log, clock := typed.clock)
    requires typed.unanswered == (t == Stop || s.unanswered)
    requires s.log <= typed.log
    requires Look(typed.log, n) == Then(Look(s.log, n), Tried(t, s.keyboard.side, true, s.engine, false))
    requires Look(typed.log + [Answered(t)], n) == Then(Look(typed.log, n), Answered(t))
    requires end == (if !r.ok then r
                     else if t == Stop then r.(s := r.s.(paused := true, unanswered := false))
                     else if t == Cont then r.(s := r.s.(paused := false)) else r)
    ensures Ran(s, t, end, n)
  {
    assert end.threw == r.threw && end.ok == r.ok && end.s.log == r.s.log && end.s.engine == r.s.engine;
  }

  // ---- the invariant inside an operation that began at `n` -----------------

  /** What not even a switch gone wrong can take away. */
  ghost predicate Sound(s: State, n: nat) {
    && n <= |s.log| && (s.layered ==> s.engine.layered)
    && (var v := Look(s.log, n); v.fair && (v.asked ==> s.layered) && (v.half ==> s.paused))
  }

  ghost predicate Half(s: State, n: nat) requires n <= |s.log| { Look(s.log, n).half }

  ghost predicate Pending(s: State, n: nat) requires n <= |s.log| { Look(s.log, n).pending }

  /** Every stop has been followed by a cont, or the machine may be half loaded. */
  ghost predicate Settled(s: State, n: nat) requires n <= |s.log| {
    Pending(s, n) ==> Half(s, n)
  }

  /** And the page knows its side; nothing wrong was typed; and a stop still pending is one
      the page remembers, unless the machine may be half loaded. In the monitor a Ctrl-A
      can only be held once every stop has had its cont. */
  ghost predicate Holds(s: State, n: nat) {
    && Sound(s, n) && Oriented(s) && Look(s.log, n).proper
    && (!Settled(s, n) ==> Inside(s) && (s.unanswered || s.paused) && !s.keyboard.held)
  }

  /** The page is outside, or in the monitor with no Ctrl-A held. */
  ghost predicate Free(s: State) { Inside(s) ==> !s.keyboard.held }

  lemma SwitchHolds(s: State, r: Out, n: nat)
    requires Holds(s, n) && Switched(s, r, n) && (Inside(s) ==> Settled(s, n))
    ensures Holds(r.s, n) && Half(r.s, n) == Half(s, n) && Pending(r.s, n) == Pending(s, n)
    ensures Inside(r.s) == (Inside(s) == r.threw)
    ensures !r.threw || !Inside(s) ==> Free(r.s)
  {}

  lemma ShellHolds(s: State, r: State, n: nat)
    requires Holds(s, n) && AtShell(s, r, n) && !Inside(s)
    ensures Holds(r, n) && Half(r, n) == Half(s, n) && Pending(r, n) == Pending(s, n) && !Inside(r)
  {}

  /** Any command but the layer's. */
  lemma RunHolds(s: State, t: Typed, r: Out, n: nat)
    requires Holds(s, n) && Inside(s) && !s.keyboard.held && Ran(s, t, r, n)
    requires t in {Stop, Cont, SaveVm, LoadVm, InfoSnapshots}
    requires t == Cont ==> !Half(s, n)
    requires t == SaveVm ==> s.layered
    requires t == LoadVm ==> s.paused
    ensures Holds(r.s, n) && Inside(r.s) && !r.s.keyboard.held
    ensures Half(r.s, n) == if t == LoadVm then r.threw || !r.ok else Half(s, n)
    ensures t == Cont ==> !Pending(r.s, n)
  {}

  lemma LayerHolds(s: State, r: Out, n: nat)
    requires Holds(s, n) && Inside(s) && !s.keyboard.held && !s.layered && Ran(s, Layer, r, n)
    ensures Inside(r.s) && !r.s.keyboard.held && Half(r.s, n) == Half(s, n)
    ensures Holds(if r.ok && !r.threw then r.s.(layered := true) else r.s, n)
  {}

  // ---- the way out ---------------------------------------------------------

  /** The page is about to type a cont in the monitor while the mux holds a Ctrl-A, so that
      its `c` switches the side and the rest of it goes to the shell. */
  predicate Crosses(o: Oracle, s: State, may: bool) {
    Inside(s) && s.keyboard.held && may && (s.unanswered || s.paused) && !o(s.clock).throws
  }

  /** What leaving keeps, wherever it ends. */
  ghost predicate Departed(s: State, l: Out, n: nat) requires n <= |s.log| {
    && Sound(l.s, n) && Settled(l.s, n) && Half(l.s, n) == Half(s, n)
    && l.s.busy == s.busy && l.s.savedAt == s.savedAt && Grew(s, l.s, n)
    && (!l.threw ==> !Inside(l.s))
  }

  /** A pending stop has had its cont, tried at least, unless the machine may be half
      loaded - and then it gets none. */
  ghost predicate Left(s: State, l: Out, n: nat) requires n <= |s.log| {
    Departed(s, l, n) && Holds(l.s, n)
  }

  /** The page is on one side and believes the other, and the log shows why. */
  ghost predicate Astray(s: State, l: Out, n: nat) requires n <= |s.log| {
    Departed(s, l, n) && !Oriented(l.s) && !Look(l.s.log, n).proper
  }

  ghost predicate Resumes(s: State, r: Out, n: nat) requires n <= |s.log| {
    && Sound(r.s, n) && Settled(r.s, n) && Half(r.s, n) == Half(s, n) && Inside(r.s)
    && r.s.busy == s.busy && r.s.savedAt == s.savedAt && Grew(s, r.s, n)
  }

  lemma ResumeHolds(o: Oracle, s: State, n: nat, may: bool)
    requires Holds(s, n) && Inside(s) && may == !Half(s, n) && !Crosses(o, s, may)
    ensures var r := Resume(o, s, may); Resumes(s, r, n) && Holds(r.s, n)
  {
    if may && (s.unanswered || s.paused) {
      var c := s.(unanswered := false);
      if s.keyboard.held {
        ContThrown(o, s, c, n);
      } else {
        RunSeen(o, c, n, Cont);
        ContHolds(s, c, Run(o, c, Cont), n);
      }
    }
  }

  lemma ContHolds(s: State, c: State, r: Out, n: nat)
    requires Holds(s, n) && Inside(s) && !Half(s, n) && !s.keyboard.held
    requires c == s.(unanswered := false) && Ran(c, Cont, r, n)
    ensures Resumes(s, r, n) && Holds(r.s, n)
  {}

  lemma ContThrown(o: Oracle, s: State, c: State, n: nat)
    requires Holds(s, n) && Inside(s) && !Half(s, n) && s.keyboard.held
    requires c == s.(unanswered := false) && o(s.clock).throws
    ensures var r := Run(o, c, Cont); Resumes(s, r, n) && Holds(r.s, n)
  {
    var r := Run(o, c, Cont);
    var e := Tried(Cont, Monitor, false, s.engine, true);
    assert r.s == c.(log := s.log + [e], clock := s.clock + 1);
    Appended(s.log, n, e);
  }

  lemma LeaveHolds(o: Oracle, s: State, n: nat, may: bool)
    requires Holds(s, n) && may == !Half(s, n) && !Crosses(o, s, may)
    ensures Left(s, Leave(o, s, may), n)
  {
    if Inside(s) {
      ResumeHolds(o, s, n, may);
      var r := Resume(o, s, may);
      if !r.threw {
        SwitchSeen(o, r.s, n);
        SwitchHolds(r.s, SwitchMux(o, r.s), n);
      }
    }
  }

  /** The cont that crosses: it goes to the shell, and the switch that follows it back
      into the monitor. */
  lemma ContCrosses(o: Oracle, s: State, c: State, n: nat)
    requires Holds(s, n) && Inside(s) && !Half(s, n) && s.keyboard.held
    requires c == s.(unanswered := false) && !o(s.clock).throws
    ensures var r := Run(o, c, Cont);
            && Resumes(s, r, n) && !r.threw && r.s.keyboard == Keyboard(Serial, false)
            && !Look(r.s.log, n).proper
  {
    var typed := Try(o, c, Cont, First(Cont));
    var e := Tried(Cont, Serial, false, s.engine, false);
    assert typed.s == c.(log := s.log + [e], clock := s.clock + 1, keyboard := Keyboard(Serial, false));
    Appended(s.log, n, e);
    var r := Reply(o, typed.s, Cont, false);
    ReplySeen(o, typed.s, Cont, false);
    Appended(typed.s.log, n, Answered(Cont));
    ContCrossed(s, n, typed.s, r, Run(o, c, Cont));
  }

  lemma ContCrossed(s: State, n: nat, typed: State, r: Out, end: Out)
    requires Holds(s, n) && Settled(s, n) && Inside(s) && !Half(s, n) && s.log <= typed.log && !r.threw
    requires Replied(typed, Cont, r) && typed.keyboard == Keyboard(Serial, false)
    requires typed == s.(unanswered := false, keyboard := typed.keyboard, log := typed.log, clock := typed.clock)
    requires Look(typed.log, n) == Then(Look(s.log, n), Tried(Cont, Serial, false, s.engine, false))
    requires Look(typed.log + [Answered(Cont)], n) == Then(Look(typed.log, n), Answered(Cont))
    requires end == if r.ok then r.(s := r.s.(paused := false)) else r
    ensures Resumes(s, end, n) && !end.threw && end.s.keyboard == Keyboard(Serial, false)
    ensures !Look(end.s.log, n).proper
  {
    var v := Look(s.log, n);
    var w := Look(end.s.log, n);
    assert end.s.log == r.s.log;
    assert w == v.(proper := false);
  }

  lemma SwitchAstray(s: State, r: State, m: Out, n: nat)
    requires n <= |s.log| && Inside(s) && Resumes(s, Out(r, false, true), n)
    requires r.keyboard == Keyboard(Serial, false) && !Look(r.log, n).proper && Switched(r, m, n)
    ensures Astray(s, m, n)
  {}

  lemma LeaveCrosses(o: Oracle, s: State, n: nat, may: bool)
    requires Holds(s, n) && may == !Half(s, n) && Crosses(o, s, may)
    ensures Astray(s, Leave(o, s, may), n)
  {
    var c := s.(unanswered := false);
    ContCrosses(o, s, c, n);
    var r := Run(o, c, Cont);
    assert Resume(o, s, may) == r;
    SwitchSeen(o, r.s, n);
    SwitchAstray(s, r.s, SwitchMux(o, r.s), n);
    var m := SwitchMux(o, r.s);
    assert Leave(o, s, may) == if m.threw then m else m.(ok := r.ok);
  }

  // ---- a checkpoint --------------------------------------------------------

  ghost predicate Saves(s: State, r: Out, n: nat) {
    && Holds(r.s, n) && !Half(r.s, n) && r.s.busy == s.busy && Grew(s, r.s, n)
  }

  /** In the monitor with no Ctrl-A held. */
  ghost predicate Steady(s: State) { Inside(s) && !s.keyboard.held }

  lemma AfterFailedSaveHolds(o: Oracle, s: State, n: nat)
    requires Holds(s, n) && Steady(s) && !Half(s, n)
    ensures Saves(s, AfterFailedSave(o, s), n) && Free(AfterFailedSave(o, s).s)
  {
    RunSeen(o, s, n, InfoSnapshots);
    RunHolds(s, InfoSnapshots, Run(o, s, InfoSnapshots), n);
  }

  lemma SaveSnapshotHolds(o: Oracle, s: State, n: nat)
    requires Holds(s, n) && Steady(s) && !Half(s, n) && s.layered
    ensures Saves(s, SaveSnapshot(o, s), n) && Free(SaveSnapshot(o, s).s)
  {
    RunSeen(o, s, n, SaveVm);
    var r := Run(o, s, SaveVm);
    RunHolds(s, SaveVm, r, n);
    if !r.threw && !r.ok {
      AfterFailedSaveHolds(o, r.s, n);
    }
  }

  lemma LayerThenSaveHolds(o: Oracle, s: State, n: nat)
    requires Holds(s, n) && Steady(s) && !Half(s, n)
    ensures Saves(s, LayerThenSave(o, s), n) && Free(LayerThenSave(o, s).s)
  {
    if s.layered {
      SaveSnapshotHolds(o, s, n);
    } else {
      RunSeen(o, s, n, Layer);
      var r := Run(o, s, Layer);
      LayerHolds(s, r, n);
      if !r.threw && r.ok {
        SaveSnapshotHolds(o, r.s.(layered := true), n);
      }
    }
  }

  lemma SavingHolds(o: Oracle, s: State, n: nat)
    requires Holds(s, n) && !Inside(s) && !Half(s, n)
    ensures Saves(s, Saving(o, s), n) && Free(Saving(o, s).s)
  {
    SwitchSeen(o, s, n);
    var m := SwitchMux(o, s);
    SwitchHolds(s, m, n);
    if !m.threw && m.ok {
      RunSeen(o, m.s, n, Stop);
      var r := Run(o, m.s, Stop);
      RunHolds(m.s, Stop, r, n);
      if !r.threw && r.ok {
        LayerThenSaveHolds(o, r.s, n);
      }
    }
  }

  lemma ResyncHolds(o: Oracle, l: Out, n: nat, ok: bool)
    requires Holds(l.s, n) && !Half(l.s, n) && (!l.threw ==> !Inside(l.s))
    ensures Saves(l.s, Resync(o, l, ok), n)
  {
    if !l.threw && !l.s.paused {
      ShellSeen(o, l.s, n, Sync);
      ShellHolds(l.s, Shell(o, l.s, Sync).s, n);
    }
  }

  lemma BackFromSavingHolds(o: Oracle, s: State, r: Out, n: nat)
    requires Saves(s, r, n) && Free(r.s)
    ensures Saves(s, BackFromSaving(o, r), n)
  {
    if !r.threw {
      LeaveHolds(o, r.s, n, true);
      BackAfterLeaving(o, s, r, Leave(o, r.s, true), n);
    }
  }

  lemma BackAfterLeaving(o: Oracle, s: State, r: Out, l: Out, n: nat)
    requires Saves(s, r, n) && Left(r.s, l, n)
    ensures Saves(s, Resync(o, l, r.ok), n)
  {
    ResyncHolds(o, l, n, r.ok);
  }

  lemma CheckpointBodyHolds(o: Oracle, s: State, n: nat)
    requires Holds(s, n) && !Inside(s) && !Half(s, n)
    ensures Saves(s, CheckpointBody(o, s), n)
  {
    ShellSeen(o, s, n, Prompt);
    var p := Shell(o, s, Prompt);
    ShellHolds(s, p.s, n);
    if !p.threw && p.ok {
      SavingHolds(o, p.s, n);
      BackFromSavingHolds(o, p.s, Saving(o, p.s), n);
    }
  }

  /** Ready for an operation: on the serial side and sure of it, the console free. */
  ghost predicate Ready(s: State) {
    && !s.busy && Oriented(s) && !Inside(s)
    && (s.layered ==> s.engine.layered) && (Answered(Layer) in s.log ==> s.layered)
  }

  /** The switch back that ends a checkpoint, and the guard of the one way it goes astray. */
  function SwitchBackOfCheckpoint(o: Oracle, s: State): Out {
    Leave(o, CheckpointBody(o, s.(busy := true)).s, true)
  }

  predicate CheckpointCrosses(o: Oracle, s: State) {
    Crosses(o, CheckpointBody(o, s.(busy := true)).s, true)
  }

  /** What the finally leaves, with the console let go of. */
  ghost predicate Closed(s: State, r: State, n: nat) {
    && n <= |s.log| && s.log <= r.log && !r.busy && Sound(r, n) && Settled(r, n)
  }

  lemma CheckpointHolds(o: Oracle, s: State)
    requires Ready(s)
    ensures var r := TakeCheckpoint(o, s).s;
            && Closed(s, r, |s.log|) && !Half(r, |s.log|)
            && (Look(r.log, |s.log|).proper <==> !CheckpointCrosses(o, s))
            && (Oriented(r) <==> !CheckpointCrosses(o, s))
            && (Inside(r) <==> SwitchBackOfCheckpoint(o, s).threw)
  {
    var n := |s.log|;
    var b := s.(busy := true);
    assert Look(b.log, n) == View(false, false, true, true, Answered(Layer) in s.log);
    CheckpointBodyHolds(o, b, n);
    var body := CheckpointBody(o, b);
    LeaveEnds(o, body.s, n, true);
    Released(b, body, Leave(o, body.s, true), n, CheckpointCrosses(o, s));
  }

  /** Either way out. */
  lemma LeaveEnds(o: Oracle, s: State, n: nat, may: bool)
    requires Holds(s, n) && may == !Half(s, n)
    ensures var l := Leave(o, s, may);
            && (if Crosses(o, s, may) then Astray(s, l, n) else Left(s, l, n))
            && (Inside(l.s) <==> l.threw)
  {
    if Crosses(o, s, may) {
      LeaveCrosses(o, s, n, may);
    } else {
      LeaveHolds(o, s, n, may);
    }
    ThrownInside(o, s, may);
  }

  /** Leaving gets out of the monitor unless it is thrown out of. */
  lemma ThrownInside(o: Oracle, s: State, may: bool)
    ensures var l := Leave(o, s, may); Inside(l.s) <==> l.threw
  {
    hide Resume, SwitchMux;
    if Inside(s) {
      ResumeKeepsSide(o, s, may);
      SwitchCounts(o, Resume(o, s, may).s);
    }
  }

  lemma ResumeKeepsSide(o: Oracle, s: State, may: bool)
    ensures Resume(o, s, may).s.switches == s.switches
  {}

  lemma SwitchCounts(o: Oracle, s: State)
    ensures var m := SwitchMux(o, s); m.s.switches == if m.threw then s.switches else s.switches + 1
  {
    KeysKeepCount(o, s, CTRL_A, NUL);
    KeysKeepCount(o, TryKeys(o, s, CTRL_A, NUL).s, CTRL_A, 'c');
  }

  lemma KeysKeepCount(o: Oracle, s: State, first: char, second: char)
    ensures TryKeys(o, s, first, second).s.switches == s.switches
  {}

  lemma Released(b: State, body: Out, l: Out, n: nat, crossed: bool)
    requires Holds(body.s, n) && Grew(b, body.s, n)
    requires if crossed then Astray(body.s, l, n) else Left(body.s, l, n)
    requires Inside(l.s) <==> l.threw
    ensures var r := Release(body, l).s;
            && Closed(b.(busy := false), r, n) && Half(r, n) == Half(body.s, n)
            && (Look(r.log, n).proper <==> !crossed) && (Oriented(r) <==> !crossed)
            && (Inside(r) <==> l.threw)
  {}

  // ---- a rollback ----------------------------------------------------------

  /** May the machine be set going again? Just when it cannot be half loaded. */
  ghost predicate Loads(s: State, g: Going, n: nat) {
    && Holds(g.out.s, n) && g.may == !Half(g.out.s, n) && Grew(s, g.out.s, n)
  }

  lemma StopThenLoadHolds(o: Oracle, s: State, n: nat)
    requires Holds(s, n) && Steady(s) && !Half(s, n)
    ensures Loads(s, StopThenLoad(o, s), n) && Free(StopThenLoad(o, s).out.s)
  {
    RunSeen(o, s, n, Stop);
    var r := Run(o, s, Stop);
    RunHolds(s, Stop, r, n);
    if !r.threw && r.ok {
      RunSeen(o, r.s, n, LoadVm);
      RunHolds(r.s, LoadVm, Run(o, r.s, LoadVm), n);
    }
  }

  lemma LoadingHolds(o: Oracle, s: State, n: nat)
    requires Holds(s, n) && !Inside(s) && !Half(s, n)
    ensures Loads(s, Loading(o, s), n) && Free(Loading(o, s).out.s)
  {
    SwitchSeen(o, s, n);
    var m := SwitchMux(o, s);
    SwitchHolds(s, m, n);
    if !m.threw && m.ok {
      StopThenLoadHolds(o, m.s, n);
    }
  }

  lemma ReturnHolds(o: Oracle, l: Out, n: nat, ok: bool)
    requires Holds(l.s, n) && (!l.threw ==> !Inside(l.s))
    ensures var r := Return(o, l, ok);
            Holds(r.s, n) && Half(r.s, n) == Half(l.s, n) && Grew(l.s, r.s, n)
  {
    if !l.threw && ok && l.ok {
      ShellSeen(o, l.s, n, Prompt);
      var p := Shell(o, l.s, Prompt);
      ShellHolds(l.s, p.s, n);
      if !p.threw && p.ok {
        ShellSeen(o, p.s, n, Sync);
        ShellHolds(p.s, Shell(o, p.s, Sync).s, n);
      }
    }
  }

  lemma ReturnAfterLeaving(o: Oracle, s: State, g: Going, l: Out, n: nat)
    requires Loads(s, g, n) && Left(g.out.s, l, n)
    ensures Loads(s, g.(out := Return(o, l, g.out.ok)), n)
  {
    ReturnHolds(o, l, n, g.out.ok);
  }

  lemma BodyFromLoading(o: Oracle, s: State, n: nat)
    requires n <= |s.log| && Loads(s, Loading(o, s), n) && Free(Loading(o, s).out.s)
    ensures Loads(s, RollbackBody(o, s), n)
  {
    var g := Loading(o, s);
    if !g.out.threw {
      LeaveHolds(o, g.out.s, n, g.may);
      ReturnAfterLeaving(o, s, g, Leave(o, g.out.s, g.may), n);
    }
  }

  lemma RollbackBodyHolds(o: Oracle, s: State, n: nat)
    requires Holds(s, n) && !Inside(s) && !Half(s, n)
    ensures Loads(s, RollbackBody(o, s), n)
  {
    LoadingHolds(o, s, n);
    BodyFromLoading(o, s, n);
  }

  function SwitchBackOfRollback(o: Oracle, s: State): Out {
    var g := RollbackBody(o, s.(busy := true));
    Leave(o, g.out.s, g.may)
  }

  predicate RollbackCrosses(o: Oracle, s: State) {
    s.savedAt.Some? &&
    var g := RollbackBody(o, s.(busy := true));
    Crosses(o, g.out.s, g.may)
  }

  lemma RollbackHolds(o: Oracle, s: State)
    requires Ready(s) && s.savedAt.Some?
    ensures var r := Rollback(o, s).s;
            && Closed(s, r, |s.log|)
            && (Look(r.log, |s.log|).proper <==> !RollbackCrosses(o, s))
            && (Oriented(r) <==> !RollbackCrosses(o, s))
            && (Inside(r) <==> SwitchBackOfRollback(o, s).threw)
  {
    var n := |s.log|;
    var b := s.(busy := true);
    assert Look(b.log, n) == View(false, false, true, true, Answered(Layer) in s.log);
    RollbackBodyHolds(o, b, n);
    var g := RollbackBody(o, b);
    LeaveEnds(o, g.out.s, n, g.may);
    Released(b, g.out, Leave(o, g.out.s, g.may), n, RollbackCrosses(o, s));
  }
}
