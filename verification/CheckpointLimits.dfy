/** Where the laws of checkpoint and rollback stop. */
module CheckpointLimits {
  import opened Options
  import opened Mux
  import opened Checkpoint
  import opened CheckpointLaws
  import opened CheckpointSafety
  import opened CheckpointSlot
  import opened CheckpointCrossing

  // ---- across two rollbacks ------------------------------------------------

  /** A rollback since `n` left the machine stopped, half loaded for all the page knows, and
      its checkpoint still there to try again. */
  ghost predicate LeftStopped(r: State, n: nat) {
    Ready(r) && r.paused && r.savedAt.Some? && Holds(r, n) && Half(r, n)
  }

  lemma RollbackLeavesStopped(o: Oracle, s: State, r: State)
    requires Ready(s) && s.savedAt.Some? && r == Rollback(o, s).s && Ready(r)
    requires HalfAt(r.log, |s.log|, |r.log|)
    ensures LeftStopped(r, |s.log|)
  {
    RollbackHolds(o, s);
    RollbackIsSafe(o, s);
    RollbackKeepsTheCheckpoint(o, s);
    HalfSays(r.log, |s.log|);
  }

  /** The second rollback reaches the monitor, but not the point where its own loadvm makes
      the page careful again. */
  predicate LosesItsStop(o: Oracle, c: nat) {
    KeysThrough(o, c) && !(o(c + 4).answers && !o(c + 5).throws && o(c + 6).answers)
  }

  /** No cont follows a half-made load - within one rollback. Over two one does, exactly
      when the second's keys go through and its switch or its stop is not answered. */
  lemma NotAcrossRollbacks(first: Oracle, second: Oracle, s: State, r: State)
    requires Ready(s) && s.savedAt.Some? && r == Rollback(first, s).s && Ready(r)
    requires HalfAt(r.log, |s.log|, |r.log|)
    ensures !NoContHalfLoaded(Rollback(second, r).s.log, |s.log|) <==> LosesItsStop(second, r.clock)
  {
    RollbackLeavesStopped(first, s, r);
    SecondRollback(second, r, |s.log|);
    FairSays(Rollback(second, r).s.log, |s.log|);
  }

  /** The log of a rollback begun in `b`, its finally included. */
  function LogOfRollback(o: Oracle, b: State): (log: seq<Event>)
    ensures b.log <= log
  {
    var e := RollbackBody(o, b);
    Leave(o, e.out.s, e.may).s.log
  }

  lemma SecondRollback(o: Oracle, r: State, n: nat)
    requires LeftStopped(r, n)
    ensures !Look(Rollback(o, r).s.log, n).fair <==> LosesItsStop(o, r.clock)
  {
    var b := r.(busy := true);
    LogRolledBack(o, r, b);
    SecondLog(o, b, n);
  }

  lemma SecondLog(o: Oracle, b: State, n: nat)
    requires Holds(b, n) && !Inside(b) && b.paused && Half(b, n)
    ensures !Look(LogOfRollback(o, b), n).fair <==> LosesItsStop(o, b.clock)
  {
    hide LogOfRollback, SwitchMux;
    SwitchSeen(o, b, n);
    SwitchExactly(o, b);
    var m := SwitchMux(o, b);
    SwitchHolds(b, m, n);
    SecondSwitch(o, b, m, n);
  }

  lemma SecondSwitch(o: Oracle, b: State, m: Out, n: nat)
    requires m == SwitchMux(o, b) && n <= |m.s.log|
    requires m.threw ==> !Inside(m.s) && Look(m.s.log, n).fair
    requires !m.threw ==> Holds(m.s, n) && Steady(m.s) && m.s.paused && Half(m.s, n) && Grew(b, m.s, n)
    ensures n <= |LogOfRollback(o, b)|
    ensures !Look(LogOfRollback(o, b), n).fair <==>
            !m.threw && !(m.ok && !o(m.s.clock).throws && o(m.s.clock + 1).answers)
  {
    if m.threw {
      KeysLost(o, b, m);
    } else if !m.ok {
      SwitchLost(o, b, m, n);
    } else {
      SecondStop(o, b, m, n);
    }
  }

  lemma LogRolledBack(o: Oracle, r: State, b: State)
    requires !r.busy && r.savedAt.Some? && b == r.(busy := true)
    ensures Rollback(o, r).s.log == LogOfRollback(o, b)
  {}

  lemma KeysLost(o: Oracle, b: State, m: Out)
    requires m == SwitchMux(o, b) && m.threw && !Inside(m.s)
    ensures LogOfRollback(o, b) == m.s.log
  {
    assert RollbackBody(o, b) == Going(m, true);
  }

  lemma SwitchLost(o: Oracle, b: State, m: Out, n: nat)
    requires m == SwitchMux(o, b) && !m.threw && !m.ok
    requires n <= |m.s.log| && Steady(m.s) && m.s.paused && Half(m.s, n)
    ensures n <= |LogOfRollback(o, b)| && !Look(LogOfRollback(o, b), n).fair
  {
    TriedCont(o, m.s, n);
    UnfairAfterLoading(o, b, Going(m, true), n);
  }

  /** The stop of a second rollback: lost, the cont is typed; answered, the loadvm comes next. */
  lemma SecondStop(o: Oracle, b: State, m: Out, n: nat)
    requires m == SwitchMux(o, b) && !m.threw && m.ok
    requires Holds(m.s, n) && Steady(m.s) && m.s.paused && Half(m.s, n) && Grew(b, m.s, n)
    ensures !Look(LogOfRollback(o, b), n).fair <==> o(m.s.clock).throws || !o(m.s.clock + 1).answers
  {
    RunSeen(o, m.s, n, Stop);
    var st := Run(o, m.s, Stop);
    RunHolds(m.s, Stop, st, n);
    StopAnswered(o, m.s);
    if st.threw || !st.ok {
      assert Loading(o, b) == Going(st, true);
      TriedCont(o, st.s, n);
      UnfairAfterLoading(o, b, Going(st, true), n);
    } else {
      LoadsAgain(o, b, m.s, st.s, n);
    }
  }

  lemma StopAnswered(o: Oracle, s: State)
    ensures var st := Run(o, s, Stop);
            st.threw || !st.ok <==> o(s.clock).throws || !o(s.clock + 1).answers
  {}

  /** Once the loadvm has been typed again the law is as it was. */
  lemma LoadsAgain(o: Oracle, b: State, m: State, st: State, n: nat)
    requires n <= |b.log| && Holds(st, n) && Steady(st) && st.paused && Grew(b, st, n)
    requires var l := Run(o, st, LoadVm); Loading(o, b) == Going(l, !l.threw && l.ok)
    ensures Look(LogOfRollback(o, b), n).fair
  {
    RunSeen(o, st, n, LoadVm);
    RunHolds(st, LoadVm, Run(o, st, LoadVm), n);
    BodyFromLoading(o, b, n);
    var g := RollbackBody(o, b);
    LeaveEnds(o, g.out.s, n, g.may);
  }

  lemma TriedCont(o: Oracle, s: State, n: nat)
    requires n <= |s.log| && Steady(s) && (s.paused || s.unanswered) && Half(s, n)
    ensures var l := Leave(o, s, true); n <= |l.s.log| && !Look(l.s.log, n).fair
  {
    var c := s.(unanswered := false);
    RunSeen(o, c, n, Cont);
    var r := Run(o, c, Cont);
    assert Resume(o, s, true) == r;
    UnfairStays(r.s.log, Leave(o, s, true).s.log, n);
  }

  lemma {:induction false} UnfairStays(a: seq<Event>, b: seq<Event>, n: nat)
    requires n <= |a| && a <= b && !Look(a, n).fair
    ensures !Look(b, n).fair
    decreases |b|
  {
    if |b| > |a| {
      UnfairStays(a, b[..|b| - 1], n);
    } else {
      assert a == b;
    }
  }

  lemma UnfairAfterLoading(o: Oracle, b: State, g: Going, n: nat)
    requires Loading(o, b) == g && g.may && n <= |g.out.s.log|
    requires !Look(Leave(o, g.out.s, true).s.log, n).fair
    ensures n <= |LogOfRollback(o, b)| && !Look(LogOfRollback(o, b), n).fair
  {
    var l := Leave(o, g.out.s, true);
    LeavesThenGrows(o, b, g);
    UnfairStays(l.s.log, LogOfRollback(o, b), n);
  }

  lemma LeavesThenGrows(o: Oracle, b: State, g: Going)
    requires Loading(o, b) == g && g.may
    ensures Leave(o, g.out.s, true).s.log <= LogOfRollback(o, b)
  {
    var e := RollbackBody(o, b);
    assert e.may;
    if g.out.threw {
      assert e == g;
    } else {
      assert Leave(o, g.out.s, true).s.log <= e.out.s.log;
    }
  }

  /** It happens: the loadvm of the first rollback is never answered, and the second's
      switch is not, or its stop is not. */
  function Stalled(t: nat): Fate { Fate(false, true, t != 8, false, false) }

  function Silent(t: nat): Fate { Fate(false, true, false, false, false) }

  function OneAnswer(t: nat): Fate { Fate(false, true, t == 17, false, false) }

  lemma TwoRollbacks()
    ensures var r := Rollback(Stalled, HAD_ONE).s;
            && Ready(HAD_ONE) && Ready(r) && HalfAt(r.log, 0, |r.log|)
            && !NoContHalfLoaded(Rollback(Silent, r).s.log, 0)
            && !NoContHalfLoaded(Rollback(OneAnswer, r).s.log, 0)
  {
    StalledRollback();
    var r := Rollback(Stalled, HAD_ONE).s;
    NotAcrossRollbacks(Stalled, Silent, HAD_ONE, r);
    NotAcrossRollbacks(Stalled, OneAnswer, HAD_ONE, r);
  }

  lemma StalledRollback()
    ensures var r := Rollback(Stalled, HAD_ONE).s;
            Ready(HAD_ONE) && Ready(r) && r.clock == 13 && HalfAt(r.log, 0, |r.log|)
  {
    var b := HAD_ONE.(busy := true);
    assert Look(b.log, 0) == View(false, false, true, true, false);
    StalledLoading(b);
    var g := Loading(Stalled, b);
    StalledLeaves(g.out.s);
    var left := Leave(Stalled, g.out.s, false);
    StoppedBody(Stalled, b, g, left);
    RollbackEnds(Stalled, HAD_ONE, Going(left.(ok := false), false));
    HalfSays(left.s.log, 0);
    AskedSays(left.s.log, 0);
  }

  lemma StoppedBody(o: Oracle, b: State, g: Going, left: Out)
    requires Loading(o, b) == g && !g.out.threw && !g.out.ok
    requires left == Leave(o, g.out.s, g.may) && !left.threw
    ensures RollbackBody(o, b) == Going(left.(ok := false), g.may)
  {}

  lemma RollbackEnds(o: Oracle, r: State, e: Going)
    requires !r.busy && r.savedAt.Some? && e == RollbackBody(o, r.(busy := true)) && !Inside(e.out.s)
    ensures Rollback(o, r).s == e.out.s.(busy := false)
  {
    hide RollbackBody;
  }

  lemma StalledLoading(b: State)
    requires b.clock == 0 && Holds(b, 0) && !Inside(b) && !Half(b, 0) && b.savedAt.Some? && b.engine.slot && b.layered
    ensures var g := Loading(Stalled, b);
            && !g.may && !g.out.threw && !g.out.ok && g.out.s.clock == 9
            && Inside(g.out.s) && Holds(g.out.s, 0) && Half(g.out.s, 0) && g.out.s.layered
  {
    SwitchSeen(Stalled, b, 0);
    SwitchExactly(Stalled, b);
    var m := SwitchMux(Stalled, b);
    SwitchHolds(b, m, 0);
    StalledLoad(m.s);
    assert Loading(Stalled, b) == StopThenLoad(Stalled, m.s);
  }

  lemma StalledLoad(m: State)
    requires m.clock == 5 && Holds(m, 0) && Steady(m) && m.layered
    ensures var g := StopThenLoad(Stalled, m);
            && !g.may && !g.out.threw && !g.out.ok && g.out.s.clock == 9
            && Inside(g.out.s) && Holds(g.out.s, 0) && Half(g.out.s, 0) && g.out.s.layered
  {
    RunSeen(Stalled, m, 0, Stop);
    var st := Run(Stalled, m, Stop);
    assert !st.threw && st.ok && st.s.clock == 7;
    RunHolds(m, Stop, st, 0);
    RunSeen(Stalled, st.s, 0, LoadVm);
    var l := Run(Stalled, st.s, LoadVm);
    assert !l.threw && !l.ok && l.s.clock == 9;
    RunHolds(st.s, LoadVm, l, 0);
  }

  lemma StalledLeaves(s: State)
    requires s.clock == 9 && Inside(s) && Holds(s, 0) && Half(s, 0)
    ensures var l := Leave(Stalled, s, false);
            !l.threw && !Inside(l.s) && l.s.clock == 13 && Left(s, l, 0) && l.s.layered == s.layered
  {
    LeaveHolds(Stalled, s, 0, false);
    SwitchExactly(Stalled, s.(unanswered := false));
  }

  // ---- a switch back that throws ---------------------------------------------

  /** Nothing of the kind was tried since `n`. */
  ghost predicate FreeOf(log: seq<Event>, n: nat, t: Typed) {
    forall k :: n <= k < |log| ==> !Typing(log[k], t)
  }

  /** One was, at the shell. */
  ghost predicate AtTheShell(log: seq<Event>, n: nat, t: Typed) {
    exists k :: n <= k < |log| && Typing(log[k], t) && log[k].side == Serial
  }

  lemma KeyFree(o: Oracle, s: State, n: nat, ch: char, t: Typed)
    requires FreeOf(s.log, n, t) && t != SwitchKey
    ensures FreeOf(TryKey(o, s, ch).s.log, n, t)
  {}

  lemma KeysFree(o: Oracle, s: State, n: nat, first: char, second: char, t: Typed)
    requires FreeOf(s.log, n, t) && t != SwitchKey
    ensures FreeOf(TryKeys(o, s, first, second).s.log, n, t)
  {
    KeyFree(o, s, n, first, t);
    KeyFree(o, TryKey(o, s, first).s, n, second, t);
  }

  lemma SwitchFree(o: Oracle, s: State, n: nat, t: Typed)
    requires FreeOf(s.log, n, t) && t != SwitchKey
    ensures FreeOf(SwitchMux(o, s).s.log, n, t)
  {
    KeysFree(o, s, n, CTRL_A, NUL, t);
    KeysFree(o, TryKeys(o, s, CTRL_A, NUL).s, n, CTRL_A, 'c', t);
  }

  lemma RunFree(o: Oracle, s: State, n: nat, c: Typed, t: Typed)
    requires FreeOf(s.log, n, t) && t != c
    ensures FreeOf(Run(o, s, c).s.log, n, t)
  {
    var s0 := if c == Stop then s.(unanswered := true) else s;
    var typed := Try(o, s0, c, First(c));
    assert FreeOf(typed.s.log, n, t);
    if !typed.threw {
      assert FreeOf(Reply(o, typed.s, c, Heard(s.keyboard)).s.log, n, t);
    }
  }

  lemma LeaveFree(o: Oracle, s: State, n: nat, may: bool, t: Typed)
    requires FreeOf(s.log, n, t) && t != Cont && t != SwitchKey
    ensures FreeOf(Leave(o, s, may).s.log, n, t)
  {
    if Inside(s) {
      RunFree(o, s.(unanswered := false), n, Cont, t);
      var r := Resume(o, s, may);
      if !r.threw {
        SwitchFree(o, r.s, n, t);
      }
    }
  }

  /** Left in the monitor, the page tries its next checkpoint's shell line there. If that
      is answered and the keys then go through, they switch back to the serial side: the
      stop goes to the shell. */
  ghost predicate NextGoesAstray(o: Oracle, r: State, log: seq<Event>) {
    && r.log + [Tried(Prompt, Monitor, !r.keyboard.held, r.engine, o(r.clock).throws)] <= log
    && (AtTheShell(log, |r.log|, Stop) <==>
        !o(r.clock).throws && o(r.clock + 1).answers && KeysThrough(o, r.clock + 2))
    && (!AtTheShell(log, |r.log|, Stop) ==> FreeOf(log, |r.log|, Stop))
  }

  lemma NextCheckpoint(o: Oracle, r: State)
    requires Inside(r) && Oriented(r) && !r.busy
    ensures NextGoesAstray(o, r, TakeCheckpoint(o, r).s.log)
    ensures !SafeFrom(TakeCheckpoint(o, r).s.log, |r.log|)
  {
    var b := r.(busy := true);
    LogTaken(o, r, b);
    NextBody(o, r, b);
    PromptIsUnsafe(o, r, TakeCheckpoint(o, r).s.log);
  }

  lemma PromptIsUnsafe(o: Oracle, r: State, log: seq<Event>)
    requires NextGoesAstray(o, r, log)
    ensures !SafeFrom(log, |r.log|)
  {
    assert !Safe(log, |r.log|);
  }

  lemma LogTaken(o: Oracle, r: State, b: State)
    requires !r.busy && b == r.(busy := true)
    ensures TakeCheckpoint(o, r).s.log == LogOfCheckpoint(o, CheckpointBody(o, b))
  {}

  lemma NextBody(o: Oracle, r: State, b: State)
    requires Inside(r) && r.keyboard.side == Monitor && b == r.(busy := true)
    ensures NextGoesAstray(o, r, LogOfCheckpoint(o, CheckpointBody(o, b)))
  {
    if !o(r.clock).throws && o(r.clock + 1).answers {
      PromptHad(o, r, b);
    } else {
      NoPrompt(o, r, b);
    }
  }

  lemma NoPrompt(o: Oracle, r: State, b: State)
    requires b == r.(busy := true) && r.keyboard.side == Monitor && (o(r.clock).throws || !o(r.clock + 1).answers)
    ensures NextGoesAstray(o, r, LogOfCheckpoint(o, CheckpointBody(o, b)))
  {
    hide Saving, BackFromSaving, Leave;
    var p := Shell(o, b, Prompt);
    assert p.s.log == r.log + [Tried(Prompt, Monitor, !r.keyboard.held, r.engine, o(r.clock).throws)];
    assert CheckpointBody(o, b) == p;
    LeaveFree(o, p.s, |r.log|, true, Stop);
  }

  lemma PromptHad(o: Oracle, r: State, b: State)
    requires b == r.(busy := true) && Inside(r) && r.keyboard.side == Monitor
    requires !o(r.clock).throws && o(r.clock + 1).answers
    ensures NextGoesAstray(o, r, LogOfCheckpoint(o, CheckpointBody(o, b)))
  {
    hide Saving, BackFromSaving, LogOfCheckpoint;
    var p := Shell(o, b, Prompt);
    var e := Tried(Prompt, Monitor, !r.keyboard.held, r.engine, o(r.clock).throws);
    assert p.s.log == r.log + [e] + [Answered(Prompt)];
    MistypesStop(o, p.s, |r.log|);
    assert CheckpointBody(o, b) == BackFromSaving(o, Saving(o, p.s));
  }

  function LogOfCheckpoint(o: Oracle, body: Out): (log: seq<Event>)
    ensures body.s.log <= log
  {
    Leave(o, body.s, true).s.log
  }

  /** The page's four keys, from the monitor, and what it makes of where they lead. */
  lemma MistypesStop(o: Oracle, s: State, n: nat)
    requires Inside(s) && s.keyboard.side == Monitor && FreeOf(s.log, n, Stop) && n <= |s.log|
    ensures var log := LogOfCheckpoint(o, BackFromSaving(o, Saving(o, s)));
            && (AtTheShell(log, n, Stop) <==> KeysThrough(o, s.clock))
            && (!AtTheShell(log, n, Stop) ==> FreeOf(log, n, Stop))
  {
    SwitchExactly(o, s);
    SwitchFree(o, s, n, Stop);
    var m := SwitchMux(o, s);
    if m.threw {
      assert BackFromSaving(o, Saving(o, s)) == m;
      LeaveFree(o, m.s, n, true, Stop);
    } else {
      assert Saving(o, s) == StopThenSave(o, m.s);
      StopMistyped(o, m.s, n);
    }
  }

  lemma StopMistyped(o: Oracle, m: State, n: nat)
    requires n <= |m.log| && m.keyboard == Keyboard(Serial, false)
    ensures AtTheShell(LogOfCheckpoint(o, BackFromSaving(o, StopThenSave(o, m))), n, Stop)
  {
    StopTried(o, m);
    var log := LogOfCheckpoint(o, BackFromSaving(o, StopThenSave(o, m)));
    assert Typing(log[|m.log|], Stop) && log[|m.log|].side == Serial;
  }

  lemma StopTried(o: Oracle, m: State)
    requires m.keyboard == Keyboard(Serial, false)
    ensures m.log + [Tried(Stop, Serial, true, m.engine, o(m.clock).throws)] <= StopThenSave(o, m).s.log
  {
    RunTried(o, m, Stop);
  }

  lemma RunTried(o: Oracle, m: State, t: Typed)
    requires m.keyboard == Keyboard(Serial, false) && t in {Stop, LoadVm}
    ensures m.log + [Tried(t, Serial, true, m.engine, o(m.clock).throws)] <= Run(o, m, t).s.log
  {
    var m0 := if t == Stop then m.(unanswered := true) else m;
    var typed := Try(o, m0, t, First(t));
    assert typed.s.log == m.log + [Tried(t, Serial, true, m.engine, o(m.clock).throws)];
  }

  // ---- the next rollback -------------------------------------------------------

  /** A rollback asks for no prompt: its four keys switch out of the monitor instead of in,
      and its stop goes to the shell - and its loadvm too, if something there passes for
      an answer. */
  ghost predicate NextLoadsAstray(o: Oracle, r: State, log: seq<Event>) {
    var c, n := r.clock, |r.log|;
    && (AtTheShell(log, n, Stop) <==> KeysThrough(o, c))
    && (AtTheShell(log, n, LoadVm) <==> KeysThrough(o, c) && !o(c + 4).throws && o(c + 5).answers)
    && (!AtTheShell(log, n, Stop) ==> FreeOf(log, n, Stop))
    && (!AtTheShell(log, n, LoadVm) ==> FreeOf(log, n, LoadVm))
  }

  lemma NextRollback(o: Oracle, r: State)
    requires Inside(r) && Oriented(r) && !r.busy && r.savedAt.Some?
    ensures NextLoadsAstray(o, r, Rollback(o, r).s.log)
  {
    hide NextLoadsAstray, LogOfRollback;
    var b := r.(busy := true);
    LogRolledBack(o, r, b);
    SwitchExactly(o, b);
    var m := SwitchMux(o, b);
    SwitchFree(o, b, |r.log|, Stop);
    SwitchFree(o, b, |r.log|, LoadVm);
    if m.threw {
      KeysLostInside(o, r, b, m);
    } else {
      KeysLead(o, r, b, m);
    }
  }

  lemma KeysLostInside(o: Oracle, r: State, b: State, m: Out)
    requires b == r.(busy := true) && m == SwitchMux(o, b) && m.threw && !KeysThrough(o, r.clock)
    requires FreeOf(m.s.log, |r.log|, Stop) && FreeOf(m.s.log, |r.log|, LoadVm)
    ensures NextLoadsAstray(o, r, LogOfRollback(o, b))
  {
    assert RollbackBody(o, b) == Going(m, true);
    LeaveFree(o, m.s, |r.log|, true, Stop);
    LeaveFree(o, m.s, |r.log|, true, LoadVm);
  }

  /** The keys went through, and the page is outside where it thinks it is inside. */
  lemma KeysLead(o: Oracle, r: State, b: State, m: Out)
    requires b == r.(busy := true) && m == SwitchMux(o, b) && !m.threw && m.ok && KeysThrough(o, r.clock)
    requires !Inside(m.s) && m.s.keyboard == Keyboard(Serial, false) && m.s.clock == r.clock + 4
    requires r.log <= m.s.log && FreeOf(m.s.log, |r.log|, LoadVm)
    ensures NextLoadsAstray(o, r, LogOfRollback(o, b))
  {
    hide NextLoadsAstray, LogOfRollback;
    var st := Run(o, m.s, Stop);
    RunTried(o, m.s, Stop);
    RunSeen(o, m.s, 0, Stop);
    RunFree(o, m.s, |r.log|, Stop, LoadVm);
    StopAnswered(o, m.s);
    if st.threw || !st.ok {
      assert Loading(o, b) == Going(st, true);
      OutsideEnds(o, b, st);
      StopAstray(o, r, m.s, LogOfRollback(o, b));
    } else {
      RunTried(o, st.s, LoadVm);
      LoadGrows(o, b, st.s);
      LoadAstray(o, r, m.s, st.s, LogOfRollback(o, b));
    }
  }

  lemma OutsideEnds(o: Oracle, b: State, st: Out)
    requires Loading(o, b) == Going(st, true) && !Inside(st.s) && (st.threw || !st.ok)
    ensures LogOfRollback(o, b) == st.s.log
  {
    assert Leave(o, st.s, true) == Out(st.s, false, true);
    assert RollbackBody(o, b).out.s == st.s && RollbackBody(o, b).may;
  }

  lemma LoadGrows(o: Oracle, b: State, st: State)
    requires var l := Run(o, st, LoadVm); Loading(o, b) == Going(l, !l.threw && l.ok)
    ensures Run(o, st, LoadVm).s.log <= LogOfRollback(o, b)
  {
    var e := RollbackBody(o, b);
    assert Loading(o, b).out.s.log <= e.out.s.log;
  }

  lemma StopAstray(o: Oracle, r: State, m: State, log: seq<Event>)
    requires r.log <= m.log && KeysThrough(o, r.clock) && (o(r.clock + 4).throws || !o(r.clock + 5).answers)
    requires m.log + [Tried(Stop, Serial, true, m.engine, o(m.clock).throws)] <= log && FreeOf(log, |r.log|, LoadVm)
    ensures NextLoadsAstray(o, r, log)
  {
    assert Typing(log[|m.log|], Stop) && log[|m.log|].side == Serial;
  }

  lemma LoadAstray(o: Oracle, r: State, m: State, st: State, log: seq<Event>)
    requires r.log <= m.log && KeysThrough(o, r.clock) && !o(r.clock + 4).throws && o(r.clock + 5).answers
    requires m.log + [Tried(Stop, Serial, true, m.engine, o(m.clock).throws)] <= st.log
    requires st.log + [Tried(LoadVm, Serial, true, st.engine, o(st.clock).throws)] <= log
    ensures NextLoadsAstray(o, r, log)
  {
    assert Typing(log[|m.log|], Stop) && log[|m.log|].side == Serial;
    assert Typing(log[|st.log|], LoadVm) && log[|st.log|].side == Serial;
  }

  // ---- either way -------------------------------------------------------------------

  /** A checkpoint leaves the page in the monitor exactly when its switch back throws; and
      then the next one's line goes there, and a rollback's stop to the shell. */
  lemma StuckInTheMonitor(first: Oracle, second: Oracle, s: State)
    requires Ready(s) && !CheckpointCrosses(first, s)
    ensures var r := TakeCheckpoint(first, s).s;
            && (Inside(r) <==> SwitchBackOfCheckpoint(first, s).threw)
            && (r.keyboard.side == Monitor <==> Inside(r))
            && (Inside(r) ==>
                  NextGoesAstray(second, r, TakeCheckpoint(second, r).s.log)
                  && !SafeFrom(TakeCheckpoint(second, r).s.log, |r.log|)
                  && (r.savedAt.Some? ==> NextLoadsAstray(second, r, Rollback(second, r).s.log)))
  {
    CheckpointHolds(first, s);
    var r := TakeCheckpoint(first, s).s;
    if Inside(r) {
      NextCheckpoint(second, r);
      if r.savedAt.Some? {
        NextRollback(second, r);
      }
    }
  }

  /** The pastes of the first key of both switches back throw; and all goes well again. */
  function Stranded(t: nat): Fate { Fate(t == 13 || t == 14, true, true, false, false) }

  function Well(t: nat): Fate { Fate(false, true, true, false, false) }

  lemma StrandedSaves(s: State)
    requires s.clock == 7 && s.layered && s.engine.layered && Heard(s.keyboard) && Inside(s)
    ensures var r := StopThenSave(Stranded, s);
            && !r.threw && r.s.clock == 11 && r.s.paused && !r.s.unanswered && Steady(r.s)
  {
    var stop := Run(Stranded, s, Stop);
    assert !stop.threw && stop.ok && stop.s.clock == 9 && stop.s.keyboard == s.keyboard;
    var save := Run(Stranded, stop.s, SaveVm);
    assert !save.threw && save.ok && save.s.clock == 11 && save.s.keyboard == s.keyboard;
  }

  lemma StrandedLeaves(s: State)
    requires s.clock == 11 && s.paused && !s.unanswered && Steady(s)
    ensures var l := Leave(Stranded, s, true);
            l.threw && Steady(l.s) && l.s.clock == 14 && !l.s.paused && !l.s.unanswered
  {
    var c := Run(Stranded, s.(unanswered := false), Cont);
    assert !c.threw && c.ok && c.s.clock == 13 && !c.s.paused && c.s.keyboard == s.keyboard;
    assert Resume(Stranded, s, true) == c;
    KeyThrown(c.s);
  }

  lemma KeyThrown(s: State)
    requires s.clock == 13 || s.clock == 14
    ensures var m := SwitchMux(Stranded, s);
            m.threw && m.s == s.(log := m.s.log, clock := s.clock + 1)
  {
    assert TryKey(Stranded, s, CTRL_A).threw;
  }

  lemma StrandedAgain(s: State)
    requires s.clock == 14 && Steady(s) && !s.paused && !s.unanswered
    ensures var l := Leave(Stranded, s, true); l.threw && Inside(l.s) && l.s.clock == 15
  {
    KeyThrown(s);
    assert Resume(Stranded, s, true) == Out(s, false, true);
  }

  /** It happens: a checkpoint whose last two switches back throw, and a stop at the shell. */
  lemma StopAtTheShell()
    ensures var r := TakeCheckpoint(Stranded, HAD_ONE).s;
            && Ready(HAD_ONE) && !CheckpointCrosses(Stranded, HAD_ONE) && Inside(r) && r.keyboard.side == Monitor
            && AtTheShell(TakeCheckpoint(Well, r).s.log, |r.log|, Stop)
  {
    var b := HAD_ONE.(busy := true);
    StrandedBody(b);
    var body := CheckpointBody(Stranded, b);
    StrandedAgain(body.s);
    var r := TakeCheckpoint(Stranded, HAD_ONE).s;
    StuckInTheMonitor(Stranded, Well, HAD_ONE);
  }

  lemma StrandedBody(b: State)
    requires b == HAD_ONE.(busy := true)
    ensures var body := CheckpointBody(Stranded, b);
            Steady(body.s) && body.s.clock == 14 && !body.s.paused && !body.s.unanswered
  {
    var p := Shell(Stranded, b, Prompt);
    assert !p.threw && p.ok && p.s.clock == 2;
    SwitchExactly(Stranded, p.s);
    var m := SwitchMux(Stranded, p.s);
    StrandedSaves(m.s);
    var r := StopThenSave(Stranded, m.s);
    assert Saving(Stranded, p.s) == r;
    StrandedLeaves(r.s);
    assert CheckpointBody(Stranded, b) == Leave(Stranded, r.s, true);
  }

  // ---- a checkpoint that is lost unnoticed -----------------------------------

  /** The world in which the savevm (typed at tick 9) fails and takes the old snapshot,
      and the paste of the list after it throws. */
  function Unlucky(t: nat): Fate { Fate(t == 11, true, true, t == 10, t == 10) }

  lemma UnluckySave(s: State)
    requires s.clock == 7 && s.layered && s.savedAt.Some? && Heard(s.keyboard) && s.engine.layered
    ensures var r := StopThenSave(Unlucky, s);
            r.threw && r.s.savedAt == s.savedAt && !r.s.engine.slot
  {
    var stop := Run(Unlucky, s, Stop);
    assert !stop.threw && stop.ok && stop.s.clock == 9;
    var save := Run(Unlucky, stop.s, SaveVm);
    assert !save.threw && !save.ok && save.s.clock == 11 && !save.s.engine.slot;
    assert Run(Unlucky, save.s, InfoSnapshots).threw;
  }

  lemma CheckpointCanBeLostUnnoticed()
    ensures Ready(HAD_ONE) && Booked(HAD_ONE) && !Booked(TakeCheckpoint(Unlucky, HAD_ONE).s)
  {
    var b := HAD_ONE.(busy := true);
    var p := Shell(Unlucky, b, Prompt);
    assert !p.threw && p.ok && p.s.clock == 2;
    SwitchExactly(Unlucky, p.s);
    UnluckySave(SwitchMux(Unlucky, p.s).s);
    var r := Saving(Unlucky, p.s);
    LeaveSlot(Unlucky, r.s, 0, true);
    assert CheckpointBody(Unlucky, b) == r;
  }
}
