/** What the page's record of its checkpoint is worth, and what an operation that reports
    success has really done. */
module CheckpointSlot {
  import opened Options
  import opened Mux
  import opened Checkpoint
  import opened CheckpointLaws
  import opened CheckpointSafety

  /** A checkpoint the page offers to go back to is there to go back to. */
  ghost predicate Booked(s: State) { s.savedAt.Some? ==> s.engine.slot }

  /** The list that would have told the page its old checkpoint is gone was never asked for. */
  predicate IsLoss(e: Event) { Typing(e, InfoSnapshots) && e.threw && !e.engine.slot }

  ghost predicate Lost(log: seq<Event>, n: nat) {
    exists k :: n <= k < |log| && IsLoss(log[k])
  }

  lemma LostAppended(log: seq<Event>, n: nat, e: Event)
    requires n <= |log|
    ensures Lost(log + [e], n) <==> Lost(log, n) || IsLoss(e)
  {
    var l := log + [e];
    if Lost(log, n) {
      var k :| n <= k < |log| && IsLoss(log[k]);
      assert IsLoss(l[k]);
    }
    if IsLoss(e) {
      assert IsLoss(l[|log|]);
    }
    if Lost(l, n) {
      var k :| n <= k < |l| && IsLoss(l[k]);
      assert k < |log| ==> IsLoss(log[k]);
    }
  }

  ghost predicate SlotKept(s: State, r: State, n: nat) {
    && n <= |s.log| <= |r.log|
    && r.savedAt == s.savedAt && r.engine.slot == s.engine.slot && (Lost(r.log, n) <==> Lost(s.log, n))
  }

  // ---- steps that leave the slot alone ------------------------------------

  lemma KeySlot(o: Oracle, s: State, n: nat, ch: char)
    requires n <= |s.log|
    ensures SlotKept(s, TryKey(o, s, ch).s, n)
  {
    LostAppended(s.log, n, TryKey(o, s, ch).s.log[|s.log|]);
  }

  lemma KeysSlot(o: Oracle, s: State, n: nat, first: char, second: char)
    requires n <= |s.log|
    ensures SlotKept(s, TryKeys(o, s, first, second).s, n)
  {
    KeySlot(o, s, n, first);
    KeySlot(o, TryKey(o, s, first).s, n, second);
  }

  lemma SwitchSlot(o: Oracle, s: State, n: nat)
    requires n <= |s.log|
    ensures SlotKept(s, SwitchMux(o, s).s, n)
  {
    KeysSlot(o, s, n, CTRL_A, NUL);
    var a := TryKeys(o, s, CTRL_A, NUL);
    KeysSlot(o, a.s, n, CTRL_A, 'c');
    assert SlotKept(s, TypeSwitch(o, s).s, n);
  }

  lemma ShellSlot(o: Oracle, s: State, n: nat, t: Typed)
    requires n <= |s.log| && t in {Prompt, Sync}
    ensures SlotKept(s, Shell(o, s, t).s, n)
  {
    var typed := Try(o, s, t, First(t));
    LostAppended(s.log, n, typed.s.log[|s.log|]);
    LostAppended(typed.s.log, n, Answered(t));
  }

  /** What one command does to the slot, and to the count of losses. */
  ghost predicate RanSlot(s: State, t: Typed, r: Out, n: nat) {
    && n <= |s.log| <= |r.s.log| && r.s.savedAt == s.savedAt
    && (t != SaveVm || r.threw ==> r.s.engine.slot == s.engine.slot)
    && (t == SaveVm && !r.threw && r.ok && Heard(s.keyboard) ==> r.s.engine.slot)
    && (Lost(r.s.log, n) <==> Lost(s.log, n) || (t == InfoSnapshots && r.threw && !s.engine.slot))
  }

  lemma RunSlot(o: Oracle, s: State, n: nat, t: Typed)
    requires n <= |s.log|
    ensures RanSlot(s, t, Run(o, s, t), n)
  {
    hide Reply;
    var s0 := if t == Stop then s.(unanswered := true) else s;
    var typed := Try(o, s0, t, First(t));
    LostAppended(s.log, n, typed.s.log[|s.log|]);
    if !typed.threw {
      var heard := Heard(s.keyboard);
      var r := Reply(o, typed.s, t, heard);
      ReplySlot(o, typed.s, t, heard);
      ReplySeen(o, typed.s, t, heard);
      LostAppended(typed.s.log, n, Answered(t));
      SlotAfter(s, n, t, typed.s, r, Run(o, s, t));
    }
  }

  lemma SlotAfter(s: State, n: nat, t: Typed, typed: State, r: Out, end: Out)
    requires n <= |s.log| <= |typed.log| && !r.threw && Replied(typed, t, r)
    requires typed.savedAt == s.savedAt && typed.engine == s.engine
    requires Lost(typed.log, n) <==> Lost(s.log, n)
    requires Lost(typed.log + [Answered(t)], n) <==> Lost(typed.log, n)
    requires t != SaveVm ==> r.s.engine.slot == s.engine.slot
    requires t == SaveVm && r.ok && Heard(s.keyboard) ==> r.s.engine.slot
    requires !end.threw && end.ok == r.ok && end.s.savedAt == r.s.savedAt
    requires end.s.log == r.s.log && end.s.engine == r.s.engine
    ensures RanSlot(s, t, end, n)
  {}

  lemma ReplySlot(o: Oracle, s: State, t: Typed, heard: bool)
    ensures var r := Reply(o, s, t, heard);
            && (t != SaveVm ==> r.s.engine.slot == s.engine.slot)
            && (t == SaveVm && r.ok && heard ==> r.s.engine.slot)
  {
    var f := o(s.clock);
    assert t != SaveVm ==> Effect(s.engine, t, f).slot == s.engine.slot;
    assert t == SaveVm && !Fails(s.engine, t, f) ==> Effect(s.engine, t, f).slot;
  }

  lemma LeaveSlot(o: Oracle, s: State, n: nat, may: bool)
    requires n <= |s.log|
    ensures SlotKept(s, Leave(o, s, may).s, n)
  {
    if Inside(s) {
      RunSlot(o, s.(unanswered := false), n, Cont);
      var r := Resume(o, s, may);
      assert SlotKept(s, r.s, n);
      if !r.threw {
        SwitchSlot(o, r.s, n);
      }
    }
  }

  // ---- a checkpoint -------------------------------------------------------

  /** The record is right again afterwards, or else it was lost just so. */
  ghost predicate Books(s: State, r: State, n: nat) {
    && n <= |s.log| <= |r.log|
    && (Booked(r) <==> !(s.savedAt.Some? && Lost(r.log, n)))
  }

  lemma BooksThenKept(s: State, r: State, e: State, n: nat)
    requires Books(s, r, n) && SlotKept(r, e, n)
    ensures Books(s, e, n)
  {}

  lemma KeptThenBooks(s: State, r: State, e: State, n: nat)
    requires SlotKept(s, r, n) && Books(r, e, n)
    ensures Books(s, e, n)
  {}

  lemma SaveSnapshotBooks(o: Oracle, s: State, n: nat)
    requires n <= |s.log| && Booked(s) && !Lost(s.log, n) && Heard(s.keyboard)
    ensures Books(s, SaveSnapshot(o, s).s, n)
  {
    RunSlot(o, s, n, SaveVm);
    var r := Run(o, s, SaveVm);
    if !r.threw && !r.ok {
      RunSlot(o, r.s, n, InfoSnapshots);
      AfterListBooks(s, r.s, Run(o, r.s, InfoSnapshots), n);
    }
  }

  lemma AfterListBooks(s: State, m: State, list: Out, n: nat)
    requires n <= |s.log| <= |m.log| && m.savedAt == s.savedAt && !Lost(m.log, n)
    requires RanSlot(m, InfoSnapshots, list, n)
    ensures list.threw ==> Books(s, list.s, n)
    ensures list.ok && list.s.engine.slot && !list.threw ==> Books(s, list.s, n)
    ensures !list.threw ==> Books(s, list.s.(savedAt := None), n)
  {}

  lemma LayerThenSaveBooks(o: Oracle, s: State, n: nat)
    requires n <= |s.log| && Booked(s) && !Lost(s.log, n) && Heard(s.keyboard)
    ensures Books(s, LayerThenSave(o, s).s, n)
  {
    if s.layered {
      SaveSnapshotBooks(o, s, n);
    } else {
      RunSlot(o, s, n, Layer);
      RunSeen(o, s, n, Layer);
      var r := Run(o, s, Layer);
      if !r.threw && r.ok {
        SaveSnapshotBooks(o, r.s.(layered := true), n);
      }
    }
  }

  lemma SavingBooks(o: Oracle, s: State, n: nat)
    requires n <= |s.log| && Booked(s) && !Lost(s.log, n) && Oriented(s) && !Inside(s)
    ensures Books(s, Saving(o, s).s, n)
  {
    SwitchSeen(o, s, n);
    SwitchSlot(o, s, n);
    var m := SwitchMux(o, s);
    if !m.threw && m.ok {
      RunSeen(o, m.s, n, Stop);
      RunSlot(o, m.s, n, Stop);
      var r := Run(o, m.s, Stop);
      if !r.threw && r.ok {
        LayerThenSaveBooks(o, r.s, n);
        KeptThenBooks(s, r.s, LayerThenSave(o, r.s).s, n);
      }
    }
  }

  lemma ResyncSlot(o: Oracle, l: Out, n: nat, ok: bool)
    requires n <= |l.s.log|
    ensures SlotKept(l.s, Resync(o, l, ok).s, n)
  {
    ShellSlot(o, l.s, n, Sync);
  }

  lemma BackBooks(o: Oracle, s: State, r: Out, n: nat)
    requires Books(s, r.s, n)
    ensures Books(s, BackFromSaving(o, r).s, n)
  {
    if !r.threw {
      LeaveSlot(o, r.s, n, true);
      var l := Leave(o, r.s, true);
      BooksThenKept(s, r.s, l.s, n);
      ResyncSlot(o, l, n, r.ok);
      BooksThenKept(s, l.s, Resync(o, l, r.ok).s, n);
    }
  }

  lemma BodyBooks(o: Oracle, s: State, n: nat)
    requires n <= |s.log| && Booked(s) && !Lost(s.log, n) && Oriented(s) && !Inside(s)
    ensures Books(s, CheckpointBody(o, s).s, n)
  {
    ShellSlot(o, s, n, Prompt);
    ShellSeen(o, s, n, Prompt);
    var p := Shell(o, s, Prompt);
    if !p.threw && p.ok {
      SavingBooks(o, p.s, n);
      KeptThenBooks(s, p.s, Saving(o, p.s).s, n);
      BackBooks(o, s, Saving(o, p.s), n);
    }
  }

  /** A checkpoint leaves the page's record right - a time to go back to only with a
      snapshot in the slot - in every case but one: there was a checkpoint before, the
      failed savevm took it, and the paste of the list that would have said so threw. */
  lemma CheckpointKeepsTheBooks(o: Oracle, s: State)
    requires Ready(s) && Booked(s)
    ensures var r := TakeCheckpoint(o, s).s;
            Booked(r) <==> !(s.savedAt.Some? && Lost(r.log, |s.log|))
  {
    var n := |s.log|;
    var b := s.(busy := true);
    BodyBooks(o, b, n);
    var body := CheckpointBody(o, b);
    LeaveSlot(o, body.s, n, true);
    BooksThenKept(b, body.s, Leave(o, body.s, true).s, n);
  }

  // ---- a rollback, and sessions -------------------------------------------

  lemma LoadingSlot(o: Oracle, s: State, n: nat)
    requires n <= |s.log|
    ensures SlotKept(s, Loading(o, s).out.s, n)
  {
    SwitchSlot(o, s, n);
    var m := SwitchMux(o, s);
    if !m.threw && m.ok {
      RunSlot(o, m.s, n, Stop);
      var r := Run(o, m.s, Stop);
      RunSlot(o, r.s, n, LoadVm);
    }
  }

  lemma ReturnSlot(o: Oracle, l: Out, n: nat, ok: bool)
    requires n <= |l.s.log|
    ensures SlotKept(l.s, Return(o, l, ok).s, n)
  {
    ShellSlot(o, l.s, n, Prompt);
    ShellSlot(o, Shell(o, l.s, Prompt).s, n, Sync);
  }

  lemma ReturnKept(o: Oracle, s: State, l: Out, n: nat, ok: bool)
    requires SlotKept(s, l.s, n)
    ensures SlotKept(s, Return(o, l, ok).s, n)
  {
    ReturnSlot(o, l, n, ok);
  }

  /** Going back never spends the checkpoint: it can be gone back to again. */
  lemma RollbackKeepsTheCheckpoint(o: Oracle, s: State)
    requires !s.busy && s.savedAt.Some?
    ensures var r := Rollback(o, s).s;
            r.savedAt == s.savedAt && r.engine.slot == s.engine.slot
  {
    var n := |s.log|;
    var b := s.(busy := true);
    LoadingSlot(o, b, n);
    var g := Loading(o, b);
    LeaveSlot(o, g.out.s, n, g.may);
    ReturnKept(o, b, Leave(o, g.out.s, g.may), n, g.out.ok);
    var body := RollbackBody(o, b);
    LeaveSlot(o, body.out.s, n, body.may);
  }

  /** Through any session the record stays right, if no list of a failed savevm's was
      ever lost. */
  lemma {:induction false} SessionKeepsTheBooks(s: State, hs: seq<Happening>)
    requires Ready(s) && Booked(s) && AlwaysComesBack(s, hs)
    requires !Lost(Session(s, hs).log, |s.log|)
    ensures Booked(Session(s, hs))
    decreases |hs|
  {
    if hs != [] {
      var r := Happen(s, hs[0]);
      HappensSafely(s, hs[0]);
      SessionGrows(r, hs[1..]);
      if Lost(r.log, |s.log|) {
        LostStays(r.log, Session(s, hs).log, |s.log|);
      }
      HappeningKeepsTheBooks(s, hs[0]);
      assert !Lost(Session(s, hs).log, |r.log|);
      SessionKeepsTheBooks(r, hs[1..]);
    }
  }

  lemma HappeningKeepsTheBooks(s: State, h: Happening)
    requires Ready(s) && Booked(s) && !Lost(Happen(s, h).log, |s.log|)
    ensures Booked(Happen(s, h))
  {
    match h {
      case Checkpoints(o) => CheckpointKeepsTheBooks(o, s);
      case RollsBack(o) => if s.savedAt.Some? { RollbackKeepsTheCheckpoint(o, s); }
      case UserHoldsCtrlA =>
    }
  }

  lemma {:induction false} SessionGrows(s: State, hs: seq<Happening>)
    ensures s.log <= Session(s, hs).log
    decreases |hs|
  {
    if hs != [] {
      SessionGrows(Happen(s, hs[0]), hs[1..]);
    }
  }

  lemma LostStays(a: seq<Event>, b: seq<Event>, n: nat)
    requires a <= b && Lost(a, n)
    ensures Lost(b, n)
  {
    var k :| n <= k < |a| && IsLoss(a[k]);
    assert IsLoss(b[k]);
  }

  // ---- what success means -------------------------------------------------

  lemma RunAnswered(o: Oracle, s: State, t: Typed)
    requires Heard(s.keyboard) && !Run(o, s, t).threw && Run(o, s, t).ok
    ensures var e := Run(o, s, t).s.engine;
            (t == Cont ==> e.running) && (t == SaveVm ==> e.slot && s.engine.layered)
            && (t == LoadVm ==> s.engine.slot) && (t in {LoadVm, Cont} ==> e.slot == s.engine.slot)
  {}

  ghost predicate Snapped(r: Out) {
    !r.threw && r.ok ==> Inside(r.s) && r.s.paused && !r.s.unanswered && Heard(r.s.keyboard)
                         && r.s.savedAt.Some? && r.s.engine.slot
  }

  lemma SaveSnapshotSnaps(o: Oracle, s: State)
    requires Heard(s.keyboard) && Inside(s) && s.paused && !s.unanswered
    ensures Snapped(SaveSnapshot(o, s))
  {
    RunSeen(o, s, |s.log|, SaveVm);
    var r := Run(o, s, SaveVm);
    if !r.threw {
      if r.ok {
        RunAnswered(o, s, SaveVm);
      } else {
        assert AfterFailedSave(o, r.s).threw || !AfterFailedSave(o, r.s).ok;
      }
    }
  }

  lemma LayerThenSaveSnaps(o: Oracle, s: State)
    requires Heard(s.keyboard) && Inside(s) && s.paused && !s.unanswered
    ensures Snapped(LayerThenSave(o, s))
  {
    if s.layered {
      SaveSnapshotSnaps(o, s);
    } else {
      RunSeen(o, s, |s.log|, Layer);
      var r := Run(o, s, Layer);
      if !r.threw && r.ok {
        SaveSnapshotSnaps(o, r.s.(layered := true));
      }
    }
  }

  lemma StopThenSaveSnaps(o: Oracle, s: State)
    requires Heard(s.keyboard) && Inside(s)
    ensures Snapped(StopThenSave(o, s))
  {
    RunSeen(o, s, |s.log|, Stop);
    var r := Run(o, s, Stop);
    if !r.threw && r.ok {
      LayerThenSaveSnaps(o, r.s);
    }
  }

  lemma SavingSnaps(o: Oracle, s: State)
    requires Oriented(s) && !Inside(s)
    ensures Snapped(Saving(o, s))
  {
    SwitchSeen(o, s, |s.log|);
    var m := SwitchMux(o, s);
    if !m.threw && m.ok {
      StopThenSaveSnaps(o, m.s);
    }
  }

  /** Out again with the machine going. */
  ghost predicate UnderWay(r: State) {
    !Inside(r) && r.keyboard.side == Serial && r.engine.running && r.engine.slot && r.savedAt.Some?
  }

  lemma ContGoing(o: Oracle, s: State)
    requires Inside(s) && Heard(s.keyboard) && s.engine.slot && s.savedAt.Some?
    ensures var r := Run(o, s, Cont);
            && r.s.switches == s.switches && r.s.savedAt == s.savedAt && r.s.keyboard == s.keyboard
            && (!r.threw && r.ok ==> r.s.engine.running && r.s.engine.slot)
  {
    RunSeen(o, s, |s.log|, Cont);
    if !Run(o, s, Cont).threw && Run(o, s, Cont).ok {
      RunAnswered(o, s, Cont);
    }
  }

  lemma LeaveGoing(o: Oracle, s: State)
    requires Inside(s) && s.paused && Heard(s.keyboard) && s.engine.slot && s.savedAt.Some?
    ensures var l := Leave(o, s, true); !l.threw && l.ok ==> UnderWay(l.s)
  {
    var c := s.(unanswered := false);
    ContGoing(o, c);
    SwitchGoing(o, Run(o, c, Cont));
  }

  lemma SwitchGoing(o: Oracle, r: Out)
    requires Inside(r.s) && r.s.savedAt.Some? && r.s.keyboard.side == Monitor
    ensures var m := SwitchMux(o, r.s);
            !m.threw && r.s.engine.running && r.s.engine.slot ==> UnderWay(m.s)
  {
    SwitchSeen(o, r.s, |r.s.log|);
  }

  lemma ResyncGoing(o: Oracle, l: Out, ok: bool)
    requires !l.threw && l.ok ==> UnderWay(l.s)
    ensures var r := Resync(o, l, ok); !r.threw && r.ok ==> UnderWay(r.s)
  {
    ShellSeen(o, l.s, |l.s.log|, Sync);
  }

  lemma BackGoing(o: Oracle, r: Out)
    requires Snapped(r)
    ensures var b := BackFromSaving(o, r); !b.threw && b.ok ==> UnderWay(b.s)
  {
    if !r.threw {
      if r.ok {
        LeaveGoing(o, r.s);
        ResyncGoing(o, Leave(o, r.s, true), r.ok);
      } else {
        ResyncFails(o, Leave(o, r.s, true));
      }
    }
  }

  lemma ResyncFails(o: Oracle, l: Out)
    ensures var r := Resync(o, l, false); r.threw || !r.ok
  {}

  /** A checkpoint that reports success has one: the snapshot is in the slot, and the
      machine is going again, on the serial side. */
  lemma CheckpointSucceeds(o: Oracle, s: State)
    requires Ready(s) && TakeCheckpoint(o, s).ok
    ensures UnderWay(TakeCheckpoint(o, s).s)
  {
    hide Saving, BackFromSaving, Resume;
    var b := s.(busy := true);
    ShellSeen(o, b, |b.log|, Prompt);
    var p := Shell(o, b, Prompt);
    if !p.threw && p.ok {
      SavingSnaps(o, p.s);
      BackGoing(o, Saving(o, p.s));
    }
    var body := CheckpointBody(o, b);
    assert Leave(o, body.s, true).s == body.s;
  }

  ghost predicate Loaded(g: Going) {
    !g.out.threw && g.out.ok ==>
      g.may && Inside(g.out.s) && g.out.s.paused && Heard(g.out.s.keyboard)
      && g.out.s.engine.slot && g.out.s.savedAt.Some?
  }

  lemma LoadAnswered(o: Oracle, s: State)
    requires Inside(s) && s.paused && Heard(s.keyboard) && s.savedAt.Some?
    ensures var l := Run(o, s, LoadVm); Loaded(Going(l, !l.threw && l.ok))
  {
    RunSeen(o, s, |s.log|, LoadVm);
    if !Run(o, s, LoadVm).threw && Run(o, s, LoadVm).ok {
      RunAnswered(o, s, LoadVm);
    }
  }

  lemma StopThenLoads(o: Oracle, s: State)
    requires Inside(s) && Heard(s.keyboard) && s.savedAt.Some?
    ensures Loaded(StopThenLoad(o, s))
  {
    RunSeen(o, s, |s.log|, Stop);
    var r := Run(o, s, Stop);
    if !r.threw && r.ok {
      LoadAnswered(o, r.s);
    }
  }

  lemma LoadsGoing(o: Oracle, s: State)
    requires Oriented(s) && !Inside(s) && s.savedAt.Some?
    ensures Loaded(Loading(o, s))
  {
    SwitchSeen(o, s, |s.log|);
    var m := SwitchMux(o, s);
    if !m.threw && m.ok {
      StopThenLoads(o, m.s);
    }
  }

  lemma ReturnGoing(o: Oracle, l: Out, ok: bool)
    requires ok && !l.threw && l.ok ==> UnderWay(l.s)
    ensures var r := Return(o, l, ok); !r.threw && r.ok ==> UnderWay(r.s)
  {
    ShellSeen(o, l.s, |l.s.log|, Prompt);
    var p := Shell(o, l.s, Prompt);
    ShellSeen(o, p.s, |l.s.log|, Sync);
  }

  lemma RollbackBodyGoing(o: Oracle, s: State)
    requires Oriented(s) && !Inside(s) && s.savedAt.Some?
    ensures var g := RollbackBody(o, s); !g.out.threw && g.out.ok ==> UnderWay(g.out.s)
  {
    LoadsGoing(o, s);
    var g := Loading(o, s);
    if !g.out.threw {
      if g.out.ok {
        LeaveGoing(o, g.out.s);
      }
      ReturnGoing(o, Leave(o, g.out.s, g.may), g.out.ok);
    }
  }

  /** And a rollback that reports success has the machine going, on the serial side, with
      its checkpoint still there to go back to. */
  lemma RollbackSucceeds(o: Oracle, s: State)
    requires Ready(s) && Rollback(o, s).ok
    ensures UnderWay(Rollback(o, s).s)
  {
    var b := s.(busy := true);
    RollbackBodyGoing(o, b);
    var body := RollbackBody(o, b);
    assert Leave(o, body.out.s, body.may).s == body.out.s;
  }
}
