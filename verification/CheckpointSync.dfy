/** The order of what an operation types: nothing goes to the guest but at a prompt that
    answered. Told by the log alone, whatever throws, goes unanswered or is refused. */
module CheckpointSync {
  import opened Options
  import opened Mux
  import opened Checkpoint
  import opened CheckpointLaws
  import opened CheckpointSafety

  // ---- what each step may type ------------------------------------------------

  /** Every event is about one of these. */
  ghost predicate Only(events: seq<Event>, kinds: set<Typed>) { forall e :: e in events ==> e.typed in kinds }

  ghost predicate Adds(s: State, r: State, kinds: set<Typed>) {
    s.log <= r.log && Only(r.log[|s.log|..], kinds)
  }

  lemma AddsTwice(s: State, m: State, r: State, a: set<Typed>, b: set<Typed>)
    requires Adds(s, m, a) && Adds(m, r, b)
    ensures Adds(s, r, a + b)
  {
    assert r.log[|s.log|..] == m.log[|s.log|..] + r.log[|m.log|..];
  }

  lemma KeyAdds(o: Oracle, s: State, ch: char)
    ensures Adds(s, TryKey(o, s, ch).s, {SwitchKey}) && TryKey(o, s, ch).s.paused == s.paused
  {}

  lemma KeysAdd(o: Oracle, s: State, first: char, second: char)
    ensures var r := TryKeys(o, s, first, second).s; Adds(s, r, {SwitchKey}) && r.paused == s.paused
  {
    hide TryKey;
    KeyAdds(o, s, first);
    var a := TryKey(o, s, first);
    KeyAdds(o, a.s, second);
    AddsTwice(s, a.s, TryKey(o, a.s, second).s, {SwitchKey}, {SwitchKey});
  }

  lemma SwitchAdds(o: Oracle, s: State)
    ensures var r := SwitchMux(o, s).s; Adds(s, r, {SwitchKey}) && r.paused == s.paused
  {
    hide TryKeys;
    KeysAdd(o, s, CTRL_A, NUL);
    var a := TryKeys(o, s, CTRL_A, NUL);
    KeysAdd(o, a.s, CTRL_A, 'c');
    AddsTwice(s, a.s, TryKeys(o, a.s, CTRL_A, 'c').s, {SwitchKey}, {SwitchKey});
  }

  lemma RunAdds(o: Oracle, s: State, t: Typed)
    ensures var r := Run(o, s, t).s; Adds(s, r, {t}) && (t != Stop && t != Cont ==> r.paused == s.paused)
  {
    hide Adds, Effect, Fails, Key;
    var s0 := if t == Stop then s.(unanswered := true) else s;
    var typed := Try(o, s0, t, First(t));
    OneMore(s, typed.s, Tried(t, typed.s.keyboard.side, !s.keyboard.held, s.engine, typed.threw), t);
    var r := Reply(o, typed.s, t, Heard(s.keyboard));
    OneMore(typed.s, r.s, Answered(t), t);
    if typed.threw {
      assert Run(o, s, t).s.log == typed.s.log;
      SameLog(s, typed.s, Run(o, s, t).s, {t});
    } else {
      AddsTwice(s, typed.s, r.s, {t}, {t});
      assert {t} + {t} == {t};
      SameLog(s, r.s, Run(o, s, t).s, {t});
    }
  }

  lemma OneMore(s: State, r: State, e: Event, t: Typed)
    requires e.typed == t && (r.log == s.log + [e] || r.log == s.log)
    ensures Adds(s, r, {t})
  {}

  lemma SameLog(s: State, r: State, q: State, kinds: set<Typed>)
    requires Adds(s, r, kinds) && q.log == r.log
    ensures Adds(s, q, kinds)
  {}

  const LEAVING := {Cont, SwitchKey}
  const SAVING := {Stop, Layer, SaveVm, InfoSnapshots, SwitchKey}
  const LOADING := {Stop, LoadVm, SwitchKey}

  lemma LeaveAdds(o: Oracle, s: State, may: bool)
    ensures Adds(s, Leave(o, s, may).s, LEAVING)
    ensures !Inside(s) ==> Leave(o, s, may) == Out(s, false, true)
  {
    hide Run, SwitchMux;
    if Inside(s) {
      RunAdds(o, s.(unanswered := false), Cont);
      var r := Resume(o, s, may);
      assert Adds(s, r.s, {Cont});
      SwitchAdds(o, r.s);
      AddsTwice(s, r.s, SwitchMux(o, r.s).s, {Cont}, {SwitchKey});
    }
  }

  lemma ShellAdds(o: Oracle, s: State, t: Typed)
    ensures var r := Shell(o, s, t).s; Adds(s, r, {t}) && r.paused == s.paused
  {
    var typed := Try(o, s, t, First(t));
    assert Adds(s, typed.s, {t});
    if !typed.threw {
      assert Adds(typed.s, Shell(o, s, t).s, {t});
      AddsTwice(s, typed.s, Shell(o, s, t).s, {t}, {t});
    }
  }

  lemma FailedSaveAdds(o: Oracle, s: State)
    ensures var r := SaveSnapshot(o, s).s; Adds(s, r, {SaveVm, InfoSnapshots}) && r.paused == s.paused
  {
    hide Run;
    RunAdds(o, s, SaveVm);
    var r := Run(o, s, SaveVm);
    RunAdds(o, r.s, InfoSnapshots);
    assert Adds(r.s, AfterFailedSave(o, r.s).s, {InfoSnapshots});
    AddsTwice(s, r.s, AfterFailedSave(o, r.s).s, {SaveVm}, {InfoSnapshots});
  }

  lemma LayerAdds(o: Oracle, s: State)
    ensures var r := LayerThenSave(o, s).s; Adds(s, r, {Layer, SaveVm, InfoSnapshots}) && r.paused == s.paused
  {
    hide Run, SaveSnapshot;
    FailedSaveAdds(o, s);
    RunAdds(o, s, Layer);
    var r := Run(o, s, Layer);
    var m := r.s.(layered := true);
    FailedSaveAdds(o, m);
    AddsTwice(s, m, SaveSnapshot(o, m).s, {Layer}, {SaveVm, InfoSnapshots});
  }

  lemma StopAdds(o: Oracle, s: State)
    ensures Adds(s, StopThenSave(o, s).s, {Stop, Layer, SaveVm, InfoSnapshots})
  {
    hide Run, LayerThenSave;
    RunAdds(o, s, Stop);
    var r := Run(o, s, Stop);
    LayerAdds(o, r.s);
    AddsTwice(s, r.s, LayerThenSave(o, r.s).s, {Stop}, {Layer, SaveVm, InfoSnapshots});
  }

  lemma SavingAdds(o: Oracle, s: State)
    ensures Adds(s, Saving(o, s).s, SAVING)
  {
    hide SwitchMux, StopThenSave;
    SwitchAdds(o, s);
    var m := SwitchMux(o, s);
    StopAdds(o, m.s);
    AddsTwice(s, m.s, StopThenSave(o, m.s).s, {SwitchKey}, {Stop, Layer, SaveVm, InfoSnapshots});
  }

  lemma LoadingAdds(o: Oracle, s: State)
    ensures Adds(s, Loading(o, s).out.s, LOADING)
  {
    hide SwitchMux, Run;
    SwitchAdds(o, s);
    var m := SwitchMux(o, s);
    RunAdds(o, m.s, Stop);
    var r := Run(o, m.s, Stop);
    AddsTwice(s, m.s, r.s, {SwitchKey}, {Stop});
    RunAdds(o, r.s, LoadVm);
    AddsTwice(s, r.s, Run(o, r.s, LoadVm).s, {SwitchKey, Stop}, {LoadVm});
  }

  // ---- at a prompt, with the machine going ----------------------------------------

  /** Before `i` a prompt was asked for, the line went through, and the prompt came. */
  ghost predicate Asked(log: seq<Event>, n: nat, i: nat) {
    exists j :: n <= j < i - 1 && i <= |log| && AskedAt(log, j)
  }

  predicate AskedAt(log: seq<Event>, j: nat) {
    j + 1 < |log| && Typing(log[j], Prompt) && !log[j].threw && log[j + 1] == Answered(Prompt)
  }

  /** Every stop that had been answered by then, so had a cont after it. */
  ghost predicate SetGoing(log: seq<Event>, n: nat, i: nat) {
    forall k :: n <= k < i <= |log| && log[k] == Answered(Stop) ==> GoingAfter(log, k, i)
  }

  ghost predicate GoingAfter(log: seq<Event>, k: nat, i: nat) {
    exists j :: k < j < i <= |log| && log[j] == Answered(Cont)
  }

  /** What stands in the log before a line `i` that puts the guest's clock and size right:
      after a rollback the prompt right before it, and a loadvm that was answered. */
  ghost predicate Prepared(log: seq<Event>, n: nat, i: nat, back: bool) {
    && Asked(log, n, i) && SetGoing(log, n, i)
    && (back ==> n + 2 <= i <= |log| && AskedAt(log, i - 2) && Answered(LoadVm) in log[n..i])
  }

  ghost predicate SyncsReady(log: seq<Event>, n: nat, back: bool) {
    forall i :: n <= i < |log| && Typing(log[i], Sync) ==> Prepared(log, n, i, back)
  }

  lemma ReadyStill(a: seq<Event>, b: seq<Event>, n: nat, i: nat, back: bool)
    requires i <= |a| && a <= b && Prepared(a, n, i, back)
    ensures Prepared(b, n, i, back)
  {
    var j :| n <= j < i - 1 && AskedAt(a, j);
    assert AskedAt(b, j);
    forall k | n <= k < i && b[k] == Answered(Stop) ensures GoingAfter(b, k, i) {
      assert GoingAfter(a, k, i);
      var m :| k < m < i && a[m] == Answered(Cont);
      assert b[m] == Answered(Cont);
    }
    if back {
      assert AskedAt(b, i - 2);
      assert a[n..i] == b[n..i];
    }
  }

  lemma SyncsStill(a: seq<Event>, b: seq<Event>, n: nat, back: bool, kinds: set<Typed>)
    requires n <= |a| && a <= b && SyncsReady(a, n, back) && Only(b[|a|..], kinds) && Sync !in kinds
    ensures SyncsReady(b, n, back)
  {
    NoneOf(b, |a|, kinds, Sync);
    forall i | n <= i < |b| && Typing(b[i], Sync) ensures Prepared(b, n, i, back) {
      ReadyStill(a, b, n, i, back);
    }
  }

  lemma NoneOf(log: seq<Event>, m: nat, kinds: set<Typed>, t: Typed)
    requires m <= |log| && Only(log[m..], kinds) && t !in kinds
    ensures forall i | m <= i < |log| :: log[i].typed != t
  {
    forall i | m <= i < |log| ensures log[i].typed != t {
      assert log[m..][i - m] == log[i];
    }
  }

  lemma SyncNow(a: seq<Event>, b: seq<Event>, n: nat, back: bool)
    requires n <= |a| && a <= b && SyncsReady(a, n, back) && Prepared(a, n, |a|, back)
    requires |b| > |a| && forall i | |a| < i < |b| :: !b[i].Tried?
    ensures SyncsReady(b, n, back)
  {
    forall i | n <= i < |b| && Typing(b[i], Sync) ensures Prepared(b, n, i, back) {
      ReadyStill(a, b, n, i, back);
    }
  }

  // ---- paused, or set going ---------------------------------------------------------

  /** Not paused, as far as the page knows, with a stop answered and no cont since: never. */
  ghost predicate Remembers(s: State, n: nat) { n <= |s.log| && (!s.paused ==> SetGoing(s.log, n, |s.log|)) }

  lemma GoingStill(a: seq<Event>, b: seq<Event>, n: nat)
    requires n <= |a| && a <= b && SetGoing(a, n, |a|) && forall i | |a| <= i < |b| :: b[i] != Answered(Stop)
    ensures SetGoing(b, n, |b|)
  {
    forall k | n <= k < |b| && b[k] == Answered(Stop) ensures GoingAfter(b, k, |b|) {
      assert GoingAfter(a, k, |a|);
      var j :| k < j < |a| && a[j] == Answered(Cont);
      assert b[j] == Answered(Cont);
    }
  }

  lemma QuietRemembers(s: State, r: State, n: nat, kinds: set<Typed>)
    requires Remembers(s, n) && Adds(s, r, kinds) && Stop !in kinds && r.paused == s.paused
    ensures Remembers(r, n)
  {
    NoneOf(r.log, |s.log|, kinds, Stop);
    if !s.paused {
      GoingStill(s.log, r.log, n);
    }
  }

  /** What a command leaves in the log, and a stop or a cont in what the page believes. */
  ghost predicate Believes(s: State, t: Typed, r: Out) {
    && s.log <= r.s.log
    && if r.threw || !r.ok then r.s.paused == s.paused && forall i | |s.log| <= i < |r.s.log| :: r.s.log[i].Tried?
       else (t == Stop || t == Cont ==> r.s.paused == (t == Stop))
            && |r.s.log| > |s.log| && r.s.log[|r.s.log| - 1] == Answered(t)
  }

  lemma RunBelieves(o: Oracle, s: State, t: Typed)
    ensures Believes(s, t, Run(o, s, t))
  {
    hide Effect, Fails;
    var s0 := if t == Stop then s.(unanswered := true) else s;
    var typed := Try(o, s0, t, First(t));
    assert |typed.s.log| == |s.log| + 1 && typed.s.log[|s.log|].Tried?;
    if !typed.threw {
      var r := Reply(o, typed.s, t, Heard(s.keyboard));
      assert r.s.log == if r.ok then typed.s.log + [Answered(t)] else typed.s.log;
    }
  }

  lemma CommandRemembers(o: Oracle, s: State, n: nat, t: Typed)
    requires Remembers(s, n) && (t == Stop || t == Cont)
    ensures Remembers(Run(o, s, t).s, n)
  {
    hide Run;
    RunBelieves(o, s, t);
    var r := Run(o, s, t);
    if r.threw || !r.ok {
      if !s.paused {
        GoingStill(s.log, r.s.log, n);
      }
    } else {
      assert forall k | n <= k < |r.s.log| - 1 :: t == Cont ==> GoingAfter(r.s.log, k, |r.s.log|);
    }
  }

  lemma LeaveRemembers(o: Oracle, s: State, n: nat, may: bool)
    requires Remembers(s, n)
    ensures Remembers(Leave(o, s, may).s, n)
  {
    hide Run, SwitchMux;
    if Inside(s) {
      var cleared := s.(unanswered := false);
      CommandRemembers(o, cleared, n, Cont);
      var r := Resume(o, s, may);
      SwitchAdds(o, r.s);
      QuietRemembers(r.s, SwitchMux(o, r.s).s, n, {SwitchKey});
    }
  }

  lemma SavingRemembers(o: Oracle, s: State, n: nat)
    requires Remembers(s, n)
    ensures Remembers(Saving(o, s).s, n)
  {
    hide Run, SwitchMux, LayerThenSave;
    SwitchAdds(o, s);
    var m := SwitchMux(o, s);
    QuietRemembers(s, m.s, n, {SwitchKey});
    CommandRemembers(o, m.s, n, Stop);
    var r := Run(o, m.s, Stop);
    LayerAdds(o, r.s);
    QuietRemembers(r.s, LayerThenSave(o, r.s).s, n, {Layer, SaveVm, InfoSnapshots});
  }

  lemma LoadingRemembers(o: Oracle, s: State, n: nat)
    requires Remembers(s, n)
    ensures Remembers(Loading(o, s).out.s, n)
  {
    hide Run, SwitchMux;
    SwitchAdds(o, s);
    var m := SwitchMux(o, s);
    QuietRemembers(s, m.s, n, {SwitchKey});
    CommandRemembers(o, m.s, n, Stop);
    var r := Run(o, m.s, Stop);
    RunAdds(o, r.s, LoadVm);
    QuietRemembers(r.s, Run(o, r.s, LoadVm).s, n, {LoadVm});
  }

  // ---- a checkpoint --------------------------------------------------------------------

  /** The operation's own prompt line, and what came of it. */
  ghost predicate PromptFirst(s: State, p: Out) {
    && s.log < p.s.log && Typing(p.s.log[|s.log|], Prompt)
    && p.s.paused == s.paused && p.s.switches == s.switches
    && if p.threw || !p.ok then |p.s.log| == |s.log| + 1
       else |p.s.log| == |s.log| + 2 && AskedAt(p.s.log, |s.log|)
  }

  lemma PromptTyped(o: Oracle, s: State)
    ensures PromptFirst(s, Shell(o, s, Prompt))
    ensures Adds(s, Shell(o, s, Prompt).s, {Prompt})
  {
    ShellAdds(o, s, Prompt);
  }

  lemma SyncTyped(o: Oracle, s: State, n: nat, back: bool)
    requires n <= |s.log| && SyncsReady(s.log, n, back) && Prepared(s.log, n, |s.log|, back)
    ensures SyncsReady(Shell(o, s, Sync).s.log, n, back)
  {
    SyncNow(s.log, Shell(o, s, Sync).s.log, n, back);
  }

  lemma NoSyncs(s: State, r: State, back: bool, kinds: set<Typed>)
    requires Adds(s, r, kinds) && Sync !in kinds
    ensures SyncsReady(r.log, |s.log|, back)
  {
    NoneOf(r.log, |s.log|, kinds, Sync);
  }

  /** From the answered prompt on. */
  lemma SavingPrepared(o: Oracle, s: State, p: State, n: nat)
    requires n <= |p.log| && SyncsReady(p.log, n, false) && Remembers(p, n) && AskedAt(p.log, n)
    ensures SyncsReady(BackFromSaving(o, Saving(o, p)).s.log, n, false)
  {
    hide Saving, Leave, Shell, SyncsReady, Remembers, Adds;
    var e := Saving(o, p);
    SavingAdds(o, p);
    SavingRemembers(o, p, n);
    AddedStill(p, e.s, n, false, SAVING);
    var l := Leave(o, e.s, true);
    LeaveAdds(o, e.s, true);
    LeaveRemembers(o, e.s, n, true);
    AddedStill(e.s, l.s, n, false, LEAVING);
    if !l.s.paused {
      LeftPrepared(p, e.s, l.s, n);
      SyncTyped(o, l.s, n, false);
    }
  }

  lemma AddedStill(s: State, r: State, n: nat, back: bool, kinds: set<Typed>)
    requires n <= |s.log| && Adds(s, r, kinds) && Sync !in kinds
    ensures SyncsReady(s.log, n, back) ==> SyncsReady(r.log, n, back)
  {
    if SyncsReady(s.log, n, back) {
      SyncsStill(s.log, r.log, n, back, kinds);
    }
  }

  lemma LeftPrepared(p: State, e: State, l: State, n: nat)
    requires Adds(p, e, SAVING) && Adds(e, l, LEAVING) && Remembers(l, n) && !l.paused && AskedAt(p.log, n)
    ensures Prepared(l.log, n, |l.log|, false)
  {
    assert AskedAt(l.log, n);
  }

  /** Nothing but the prompt's own line is tried before it is answered. */
  ghost predicate NothingBefore(log: seq<Event>, n: nat) {
    forall i :: n <= i < |log| && log[i].Tried? && log[i].typed != Prompt ==> Asked(log, n, i)
  }

  /** Some line of the kind was tried. */
  ghost predicate WasTried(log: seq<Event>, n: nat, t: Typed) { exists i :: n <= i < |log| && Typing(log[i], t) }

  /** A checkpoint in the order it goes: whatever fails, nothing but its prompt's own line is
      tried before that prompt has come - no key of the mux, no command - and the line that
      sets the guest's clock and size only then, and with every answered stop's cont answered. */
  lemma CheckpointAsksFirst(o: Oracle, s: State)
    requires !Inside(s)
    ensures var log, n := TakeCheckpoint(o, s).s.log, |s.log|;
            NothingBefore(log, n) && SyncsReady(log, n, false)
  {
    hide Shell, BackFromSaving, Saving, Leave, Adds, SyncsReady;
    var n := |s.log|;
    if !s.busy {
      var b := s.(busy := true);
      var p := Shell(o, b, Prompt);
      PromptTyped(o, b);
      NoSyncs(b, p.s, false, {Prompt});
      if p.threw || !p.ok {
        LeaveAdds(o, p.s, true);
      } else {
        NoneYet(b, n);
        QuietRemembers(b, p.s, n, {Prompt});
        SavingPrepared(o, s, p.s, n);
        var body := BackFromSaving(o, Saving(o, p.s));
        BackAdds(o, p.s);
        LeaveAdds(o, body.s, true);
        var l := Leave(o, body.s, true);
        AddedStill(body.s, l.s, n, false, LEAVING);
        PromptedFirst(p.s.log, l.s.log, n);
      }
    } else {
      NothingAtAll(s.log, false);
    }
  }

  lemma NothingAtAll(log: seq<Event>, back: bool)
    ensures NothingBefore(log, |log|) && SyncsReady(log, |log|, back)
  {}

  lemma NoneYet(s: State, n: nat)
    requires n == |s.log|
    ensures Remembers(s, n)
  {}

  lemma PromptedFirst(a: seq<Event>, b: seq<Event>, n: nat)
    requires |a| == n + 2 && AskedAt(a, n) && a <= b
    ensures NothingBefore(b, n)
  {
    assert AskedAt(b, n);
  }

  lemma BackAdds(o: Oracle, p: State)
    ensures p.log <= BackFromSaving(o, Saving(o, p)).s.log
  {}

  /** Just when a checkpoint tries the line: its prompt line went through and was answered,
      nothing threw on the way in, through or out, and the page is not left paused. */
  lemma CheckpointSyncsWhen(o: Oracle, s: State)
    requires !s.busy && !Inside(s)
    ensures var p := Shell(o, s.(busy := true), Prompt).s;
            var e := Saving(o, p);
            var l := Leave(o, e.s, true);
            && (WasTried(TakeCheckpoint(o, s).s.log, |s.log|, Sync) <==>
                !o(s.clock).throws && o(s.clock + 1).answers && !e.threw && !l.threw && !l.s.paused)
  {
    hide Shell, Saving, Leave, Adds, WasTried;
    var n, b := |s.log|, s.(busy := true);
    var p := Shell(o, b, Prompt);
    PromptTyped(o, b);
    PromptWhen(o, b);
    NotTried(b, b, n, {}, Sync);
    NotTried(b, p.s, n, {Prompt}, Sync);
    var body := CheckpointBody(o, b);
    LeaveAdds(o, body.s, true);
    NotTried(body.s, Leave(o, body.s, true).s, n, LEAVING, Sync);
    var e := Saving(o, p.s);
    SavingAdds(o, p.s);
    NotTried(p.s, e.s, n, SAVING, Sync);
    var l := Leave(o, e.s, true);
    LeaveAdds(o, e.s, true);
    NotTried(e.s, l.s, n, LEAVING, Sync);
    SyncIsTried(o, l.s, n);
  }

  lemma PromptWhen(o: Oracle, s: State)
    ensures var p := Shell(o, s, Prompt);
            (!p.threw && p.ok <==> !o(s.clock).throws && o(s.clock + 1).answers) && (p.threw ==> o(s.clock).throws)
  {}

  lemma SyncIsTried(o: Oracle, s: State, n: nat)
    requires n <= |s.log|
    ensures WasTried(Shell(o, s, Sync).s.log, n, Sync)
  {
    assert Typing(Shell(o, s, Sync).s.log[|s.log|], Sync);
  }

  lemma NotTried(s: State, r: State, n: nat, kinds: set<Typed>, t: Typed)
    requires n <= |s.log| && Adds(s, r, kinds) && t !in kinds
    ensures WasTried(r.log, n, t) <==> WasTried(s.log, n, t)
    ensures |s.log| == n ==> !WasTried(s.log, n, t)
  {
    NoneOf(r.log, |s.log|, kinds, t);
    if i :| n <= i < |s.log| && Typing(s.log[i], t) {
      assert Typing(r.log[i], t);
    }
    if i :| n <= i < |r.log| && Typing(r.log[i], t) {
      assert r.log[i] == s.log[i];
    }
  }

  // ---- a rollback ------------------------------------------------------------------------

  lemma LoadedLast(o: Oracle, s: State)
    ensures var g := Loading(o, s);
            !g.out.threw && g.out.ok ==>
              g.may && |g.out.s.log| > |s.log| && g.out.s.log[|g.out.s.log| - 1] == Answered(LoadVm)
    ensures var g := Loading(o, s); !g.out.threw && g.out.ok && !Inside(s) ==> Inside(g.out.s)
  {
    hide Run, SwitchMux;
    SwitchAdds(o, s);
    var m := SwitchMux(o, s);
    SwitchSeen(o, s, |s.log|);
    RunBelieves(o, m.s, Stop);
    RunStays(o, m.s, Stop);
    var r := Run(o, m.s, Stop);
    RunBelieves(o, r.s, LoadVm);
    RunStays(o, r.s, LoadVm);
  }

  lemma RunStays(o: Oracle, s: State, t: Typed)
    ensures Run(o, s, t).s.switches == s.switches
  {
    hide Effect, Fails, Key;
  }

  /** A way out that succeeded left nothing paused. */
  lemma LeftGoing(o: Oracle, s: State)
    requires Inside(s)
    ensures var l := Leave(o, s, true); !l.threw && l.ok ==> !l.s.paused
  {
    hide Run, SwitchMux;
    var cleared := s.(unanswered := false);
    RunBelieves(o, cleared, Cont);
    var r := Resume(o, s, true);
    SwitchAdds(o, r.s);
  }

  lemma ReturnPrepared(o: Oracle, s: State, g: State, l: State, n: nat)
    requires n <= |s.log| && Adds(s, g, LOADING) && Adds(g, l, LEAVING) && |g.log| > n
    requires g.log[|g.log| - 1] == Answered(LoadVm) && SyncsReady(l.log, n, true)
    requires Remembers(l, n) && !l.paused
    ensures SyncsReady(Return(o, Out(l, false, true), true).s.log, n, true)
  {
    hide Shell, SyncsReady, Remembers, Only;
    var p := Shell(o, l, Prompt);
    PromptTyped(o, l);
    AddedStill(l, p.s, n, true, {Prompt});
    QuietRemembers(l, p.s, n, {Prompt});
    if !p.threw && p.ok {
      PromptPrepared(g, l, p.s, n);
      SyncTyped(o, p.s, n, true);
    }
  }

  lemma PromptPrepared(g: State, l: State, p: State, n: nat)
    requires g.log <= l.log <= p.log && n < |g.log| && g.log[|g.log| - 1] == Answered(LoadVm)
    requires |p.log| == |l.log| + 2 && AskedAt(p.log, |l.log|) && Remembers(p, n) && !p.paused
    ensures Prepared(p.log, n, |p.log|, true)
  {
    assert p.log[n..|p.log|][|g.log| - 1 - n] == Answered(LoadVm);
  }

  /** A rollback in the order it goes: the line that sets the guest's clock and size is tried
      only right after the rollback's own prompt line, gone through and answered - and only
      with the load answered before that, and every answered stop's cont. */
  lemma RollbackAsksFirst(o: Oracle, s: State)
    requires !Inside(s)
    ensures SyncsReady(Rollback(o, s).s.log, |s.log|, true)
  {
    hide Shell, Return, Loading, Leave, Adds, SyncsReady, Remembers;
    var n := |s.log|;
    if s.busy || s.savedAt.None? {
      NothingAtAll(s.log, true);
    } else {
      var b := s.(busy := true);
      BodyPrepared(o, b);
      var g := RollbackBody(o, b);
      LeaveAdds(o, g.out.s, g.may);
      AddedStill(g.out.s, Leave(o, g.out.s, g.may).s, n, true, LEAVING);
    }
  }

  lemma BodyPrepared(o: Oracle, s: State)
    requires !Inside(s)
    ensures SyncsReady(RollbackBody(o, s).out.s.log, |s.log|, true)
  {
    hide Shell, Loading, Leave, Adds, SyncsReady, Remembers;
    var n, g := |s.log|, Loading(o, s);
    LoadingAdds(o, s);
    NoSyncs(s, g.out.s, true, LOADING);
    LoadedLast(o, s);
    NoneYetAt(s);
    LoadingRemembers(o, s, n);
    var l := Leave(o, g.out.s, g.may);
    LeaveAdds(o, g.out.s, g.may);
    AddedStill(g.out.s, l.s, n, true, LEAVING);
    LeaveRemembers(o, g.out.s, n, g.may);
    if !g.out.threw && g.out.ok {
      LeftGoing(o, g.out.s);
      if !l.threw && l.ok {
        assert l == Out(l.s, false, true);
        ReturnPrepared(o, s, g.out.s, l.s, n);
      }
    }
  }

  lemma NoneYetAt(s: State)
    ensures Remembers(s, |s.log|)
  {}

  /** Just when a rollback tries its prompt line, and the line after it: the load and the way
      out succeeded; and the prompt's paste went through and its wait was answered. */
  lemma RollbackSyncsWhen(o: Oracle, s: State)
    requires !s.busy && s.savedAt.Some?
    ensures var g := Loading(o, s.(busy := true));
            var l := Leave(o, g.out.s, g.may);
            var back := !g.out.threw && g.out.ok && !l.threw && l.ok;
            && (WasTried(Rollback(o, s).s.log, |s.log|, Prompt) <==> back)
            && (WasTried(Rollback(o, s).s.log, |s.log|, Sync) <==>
                back && !o(l.s.clock).throws && o(l.s.clock + 1).answers)
  {
    hide Shell, Loading, Leave, Adds, WasTried, Return;
    var n, b := |s.log|, s.(busy := true);
    var g := Loading(o, b);
    LoadingAdds(o, b);
    var l := Leave(o, g.out.s, g.may);
    LeaveAdds(o, g.out.s, g.may);
    var body := RollbackBody(o, b);
    LeaveAdds(o, body.out.s, body.may);
    forall t | t == Prompt || t == Sync
      ensures WasTried(Rollback(o, s).s.log, n, t) <==> WasTried(body.out.s.log, n, t)
      ensures !WasTried(l.s.log, n, t) && !WasTried(g.out.s.log, n, t)
    {
      NotTried(b, b, n, {}, t);
      NotTried(b, g.out.s, n, LOADING, t);
      NotTried(g.out.s, l.s, n, LEAVING, t);
      NotTried(body.out.s, Leave(o, body.out.s, body.may).s, n, LEAVING, t);
    }
    ReturnTries(o, l, g.out.ok, n);
  }

  lemma ReturnTries(o: Oracle, l: Out, ok: bool, n: nat)
    requires n <= |l.s.log| && !WasTried(l.s.log, n, Prompt) && !WasTried(l.s.log, n, Sync)
    ensures var log := Return(o, l, ok).s.log;
            && (WasTried(log, n, Prompt) <==> !l.threw && ok && l.ok)
            && (WasTried(log, n, Sync) <==>
                !l.threw && ok && l.ok && !o(l.s.clock).throws && o(l.s.clock + 1).answers)
  {
    hide Shell, Adds, WasTried;
    var p := Shell(o, l.s, Prompt);
    PromptTyped(o, l.s);
    PromptWhen(o, l.s);
    PromptIsTried(o, l.s, n);
    NotTried(l.s, p.s, n, {Prompt}, Sync);
    ShellAdds(o, p.s, Sync);
    SyncIsTried(o, p.s, n);
    NotTried(p.s, Shell(o, p.s, Sync).s, n, {Sync}, Prompt);
  }

  lemma PromptIsTried(o: Oracle, s: State, n: nat)
    requires n <= |s.log|
    ensures WasTried(Shell(o, s, Prompt).s.log, n, Prompt)
  {
    assert Typing(Shell(o, s, Prompt).s.log[|s.log|], Prompt);
  }

  // ---- what is reported -----------------------------------------------------------------

  /** With the console taken neither does anything, nor does a rollback with nowhere to go. */
  lemma NothingWhenTaken(o: Oracle, s: State)
    ensures s.busy ==> TakeCheckpoint(o, s) == Rollback(o, s) == Out(s, false, false)
    ensures s.savedAt.None? ==> Rollback(o, s) == Out(s, false, false)
  {}

  lemma LeftOutside(o: Oracle, s: State, may: bool)
    ensures var l := Leave(o, s, may); !l.threw ==> !Inside(l.s)
  {
    hide Run, SwitchMux;
    if Inside(s) {
      var cleared := s.(unanswered := false);
      RunStays(o, cleared, Cont);
      var r := Resume(o, s, may);
      SwitchSeen(o, r.s, |r.s.log|);
    }
  }

  lemma ShellStays(o: Oracle, s: State, t: Typed)
    ensures Shell(o, s, t).s.switches == s.switches && (Shell(o, s, t).threw <==> o(s.clock).throws)
    ensures !Shell(o, s, t).threw ==> Shell(o, s, t).s.clock == s.clock + 2
  {}

  /** A checkpoint reports success if and only if its prompt came, everything asked of the
      monitor on the way in was answered without an error, so was the cont on the way out,
      and nothing threw, the line that sets the clock included: that line's own answer does
      not matter. */
  lemma CheckpointReports(o: Oracle, s: State)
    requires !s.busy && !Inside(s)
    ensures var p := Shell(o, s.(busy := true), Prompt).s;
            var e := Saving(o, p);
            var l := Leave(o, e.s, true);
            && (TakeCheckpoint(o, s).ok <==>
                !o(s.clock).throws && o(s.clock + 1).answers && !e.threw && e.ok && !l.threw && l.ok
                && (l.s.paused || !o(l.s.clock).throws))
  {
    hide Shell, Saving, Leave;
    var b := s.(busy := true);
    var p := Shell(o, b, Prompt);
    PromptWhen(o, b);
    ShellStays(o, b, Prompt);
    var e := Saving(o, p.s);
    var l := Leave(o, e.s, true);
    LeftOutside(o, e.s, true);
    ShellStays(o, l.s, Sync);
    var body := CheckpointBody(o, b);
    LeaveAdds(o, body.s, true);
  }

  /** A rollback does if and only if the load and the way out succeeded and neither of the two
      lines after it threw - the second is typed only where the first was answered. */
  lemma RollbackReports(o: Oracle, s: State)
    requires !s.busy && s.savedAt.Some? && !Inside(s)
    ensures var g := Loading(o, s.(busy := true));
            var l := Leave(o, g.out.s, g.may);
            && (Rollback(o, s).ok <==>
                !g.out.threw && g.out.ok && !l.threw && l.ok && !o(l.s.clock).throws
                && (o(l.s.clock + 1).answers ==> !o(l.s.clock + 2).throws))
  {
    hide Shell, Loading, Leave;
    var b := s.(busy := true);
    var g := Loading(o, b);
    var l := Leave(o, g.out.s, g.may);
    LeftOutside(o, g.out.s, g.may);
    PromptWhen(o, l.s);
    ShellStays(o, l.s, Prompt);
    var p := Shell(o, l.s, Prompt);
    ShellStays(o, p.s, Sync);
    var body := RollbackBody(o, b);
    LeaveAdds(o, body.out.s, body.may);
  }

  // ---- when all goes well -----------------------------------------------------------------

  /** Nothing throws, everything is answered, and no command fails. */
  ghost predicate Smooth(o: Oracle) { forall t: nat :: !o(t).throws && o(t).answers && !o(t).fails }

  lemma RunsWell(o: Oracle, s: State, t: Typed)
    requires Smooth(o) && Heard(s.keyboard) && IsCommand(t) && !Refuses(s.engine, t)
    ensures var r := Run(o, s, t);
            && !r.threw && r.ok && Heard(r.s.keyboard) && r.s.switches == s.switches && r.s.layered == s.layered
            && (r.s.engine.layered <==> s.engine.layered || t == Layer)
            && (s.engine.slot ==> r.s.engine.slot)
  {
    hide First;
    assert First(t) != CTRL_A;
  }

  lemma SwitchesWell(o: Oracle, s: State)
    requires Smooth(o)
    ensures var m := SwitchMux(o, s);
            && !m.threw && (Inside(m.s) ==> m.ok) && m.s.switches == s.switches + 1
            && m.s.keyboard == Keyboard(Other(s.keyboard.side), false)
            && m.s.engine == s.engine && m.s.layered == s.layered
  {
    hide TryKeys;
    KeysWell(o, s, CTRL_A, NUL);
    var a := TryKeys(o, s, CTRL_A, NUL);
    KeysWell(o, a.s, CTRL_A, 'c');
    SwitchesOnce(s.keyboard);
  }

  lemma KeysWell(o: Oracle, s: State, first: char, second: char)
    requires Smooth(o)
    ensures var r := TryKeys(o, s, first, second);
            !r.threw && r.s == s.(keyboard := Key(Key(s.keyboard, first), second), log := r.s.log, clock := r.s.clock)
  {
    hide Key;
  }

  lemma SavesWell(o: Oracle, s: State)
    requires Smooth(o) && s.keyboard.side == Serial && !Inside(s) && (s.layered ==> s.engine.layered)
    ensures var e := Saving(o, s); !e.threw && e.ok && Inside(e.s) && Heard(e.s.keyboard)
  {
    hide Run, SwitchMux;
    SwitchesWell(o, s);
    var m := SwitchMux(o, s).s;
    RunsWell(o, m, Stop);
    var r := Run(o, m, Stop).s;
    if s.layered {
      RunsWell(o, r, SaveVm);
    } else {
      RunsWell(o, r, Layer);
      RunsWell(o, Run(o, r, Layer).s.(layered := true), SaveVm);
    }
  }

  lemma LoadsWell(o: Oracle, s: State)
    requires Smooth(o) && s.keyboard.side == Serial && !Inside(s) && s.engine.slot
    ensures var g := Loading(o, s); !g.out.threw && g.out.ok && g.may && Inside(g.out.s) && Heard(g.out.s.keyboard)
  {
    hide Run, SwitchMux;
    SwitchesWell(o, s);
    var m := SwitchMux(o, s).s;
    RunsWell(o, m, Stop);
    RunsWell(o, Run(o, m, Stop).s, LoadVm);
  }

  lemma LeavesWell(o: Oracle, s: State)
    requires Smooth(o) && Inside(s) && Heard(s.keyboard)
    ensures var l := Leave(o, s, true); !l.threw && l.ok
  {
    hide Run, SwitchMux;
    var cleared := s.(unanswered := false);
    RunsWell(o, cleared, Cont);
    SwitchesWell(o, cleared);
    SwitchesWell(o, Run(o, cleared, Cont).s);
  }

  lemma ShellKeeps(o: Oracle, s: State, t: Typed)
    requires t == Prompt || t == Sync
    ensures var r := Shell(o, s, t).s;
            r.keyboard.side == s.keyboard.side && r.layered == s.layered && r.engine == s.engine
            && r.switches == s.switches
  {
    SideStays(s.keyboard, First(t));
  }

  /** When nothing throws, everything is answered and no command fails, a checkpoint succeeds,
      and so does going back to one that is there. */
  lemma WhenAllGoesWell(o: Oracle, s: State)
    requires Ready(s) && Smooth(o)
    ensures TakeCheckpoint(o, s).ok
    ensures s.savedAt.Some? && s.engine.slot ==> Rollback(o, s).ok
  {
    hide Shell, Saving, Loading, Leave, TakeCheckpoint, Rollback;
    var b := s.(busy := true);
    ShellKeeps(o, b, Prompt);
    var p := Shell(o, b, Prompt).s;
    SavesWell(o, p);
    LeavesWell(o, Saving(o, p).s);
    CheckpointReports(o, s);
    if s.savedAt.Some? && s.engine.slot {
      LoadsWell(o, b);
      LeavesWell(o, Loading(o, b).out.s);
      RollbackReports(o, s);
    }
  }
}
