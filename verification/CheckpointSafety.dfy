/** The laws of CheckpointLaws, said of the log itself and of whole sessions. */
module CheckpointSafety {
  import opened Options
  import opened Mux
  import opened Checkpoint
  import opened CheckpointLaws

  predicate Typing(e: Event, t: Typed) { e.Tried? && e.typed == t }

  /** The stop at `i` has had a cont after it, tried at the monitor. */
  ghost predicate Resumed(log: seq<Event>, i: nat) {
    exists j :: i < j < |log| && IsCont(log[j])
  }

  ghost predicate StopsResumed(log: seq<Event>, n: nat) {
    forall i :: n <= i < |log| && Typing(log[i], Stop) ==> Resumed(log, i)
  }

  /** Since `n` a loadvm was typed before `k`, and up to `k` nothing more was heard of it. */
  ghost predicate HalfAt(log: seq<Event>, n: nat, k: nat)
    requires k <= |log|
  {
    exists i :: n <= i < k && Typing(log[i], LoadVm) && LoadSilent(log, i, k)
  }

  ghost predicate LoadSilent(log: seq<Event>, i: nat, k: nat)
    requires k <= |log|
  {
    forall j :: i < j < k ==> log[j].typed != LoadVm
  }

  /** Safe whenever it is typed: on its own side, a command whole, a savevm only over the
      layer, and the layer never asked for again after it succeeded. */
  predicate Safe(log: seq<Event>, k: nat)
    requires k < |log|
  {
    log[k].Tried? ==>
      && (IsCommand(log[k].typed) ==> log[k].side == Monitor && (log[k].threw || log[k].whole))
      && (log[k].typed in {Prompt, Sync} ==> log[k].side == Serial)
      && (log[k].typed == SaveVm ==> log[k].engine.layered)
      && (log[k].typed == Layer ==> Answered(Layer) !in log[..k])
  }

  ghost predicate SafeFrom(log: seq<Event>, n: nat) {
    forall k :: n <= k < |log| ==> Safe(log, k)
  }

  /** No cont while the machine may be half loaded. */
  ghost predicate NoContHalfLoaded(log: seq<Event>, n: nat) {
    forall k :: n <= k < |log| && Typing(log[k], Cont) ==> !HalfAt(log, n, k)
  }

  // ---- the view of the log means what it says ------------------------------

  lemma {:induction false} AskedSays(log: seq<Event>, n: nat)
    requires n <= |log|
    ensures Look(log, n).asked <==> Answered(Layer) in log
    decreases |log|
  {
    if |log| > n {
      var m := |log| - 1;
      AskedSays(log[..m], n);
      assert log == log[..m] + [log[m]];
    }
  }

  lemma {:induction false} HalfSays(log: seq<Event>, n: nat)
    requires n <= |log|
    ensures Look(log, n).half <==> HalfAt(log, n, |log|)
    decreases |log|
  {
    if |log| > n {
      var m := |log| - 1;
      HalfSays(log[..m], n);
      HalfOfPrefix(log, n, m, m);
      if log[m].typed == LoadVm {
        if log[m].Tried? {
          assert LoadSilent(log, m, |log|);
        }
      } else {
        HalfGoesOn(log, n, m);
      }
    }
  }

  lemma HalfGoesOn(log: seq<Event>, n: nat, m: nat)
    requires m == |log| - 1 && log[m].typed != LoadVm
    ensures HalfAt(log, n, |log|) <==> HalfAt(log, n, m)
  {
    if HalfAt(log, n, m) {
      var i :| n <= i < m && Typing(log[i], LoadVm) && LoadSilent(log, i, m);
      assert LoadSilent(log, i, |log|);
    }
    if HalfAt(log, n, |log|) {
      var i :| n <= i < |log| && Typing(log[i], LoadVm) && LoadSilent(log, i, |log|);
      assert LoadSilent(log, i, m);
    }
  }

  lemma HalfOfPrefix(log: seq<Event>, n: nat, m: nat, k: nat)
    requires k <= m <= |log|
    ensures HalfAt(log[..m], n, k) == HalfAt(log, n, k)
  {
    forall i: nat ensures i < k ==> LoadSilent(log[..m], i, k) == LoadSilent(log, i, k) {}
    if HalfAt(log, n, k) {
      var i :| n <= i < k && Typing(log[i], LoadVm) && LoadSilent(log, i, k);
      assert Typing(log[..m][i], LoadVm) && LoadSilent(log[..m], i, k);
    }
    if HalfAt(log[..m], n, k) {
      var i :| n <= i < k && Typing(log[..m][i], LoadVm) && LoadSilent(log[..m], i, k);
      assert Typing(log[i], LoadVm) && LoadSilent(log, i, k);
    }
  }

  lemma {:induction false} PendingSays(log: seq<Event>, n: nat)
    requires n <= |log|
    ensures !Look(log, n).pending <==> StopsResumed(log, n)
    decreases |log|
  {
    if |log| > n {
      var m := |log| - 1;
      PendingSays(log[..m], n);
      if Typing(log[m], Stop) {
        assert !Resumed(log, m);
      } else if IsCont(log[m]) {
        forall i | n <= i < |log| && Typing(log[i], Stop) ensures Resumed(log, i) {}
      } else {
        ResumedInPrefix(log, n, m);
      }
    }
  }

  lemma ResumedInPrefix(log: seq<Event>, n: nat, m: nat)
    requires m == |log| - 1 && !Typing(log[m], Stop) && !IsCont(log[m])
    ensures StopsResumed(log, n) <==> StopsResumed(log[..m], n)
  {
    forall i: nat | i < m ensures Resumed(log, i) <==> Resumed(log[..m], i) {
      if Resumed(log, i) {
        var j :| i < j < |log| && IsCont(log[j]);
        assert IsCont(log[..m][j]);
      }
      if Resumed(log[..m], i) {
        var j :| i < j < m && IsCont(log[..m][j]);
        assert IsCont(log[j]);
      }
    }
    if StopsResumed(log, n) {
      forall i | n <= i < m && Typing(log[..m][i], Stop) ensures Resumed(log[..m], i) {
        assert Typing(log[i], Stop);
      }
    }
    if StopsResumed(log[..m], n) {
      forall i | n <= i < |log| && Typing(log[i], Stop) ensures Resumed(log, i) {
        assert Typing(log[..m][i], Stop);
      }
    }
  }

  lemma {:induction false} ProperSays(log: seq<Event>, n: nat)
    requires n <= |log|
    ensures Look(log, n).proper <==> SafeFrom(log, n)
    decreases |log|
  {
    if |log| > n {
      var m := |log| - 1;
      ProperSays(log[..m], n);
      AskedSays(log[..m], n);
      SafeOfPrefix(log, n, m);
      assert log[..m][..m] == log[..m];
    }
  }

  lemma SafeOfPrefix(log: seq<Event>, n: nat, m: nat)
    requires n <= m == |log| - 1
    ensures SafeFrom(log, n) <==> SafeFrom(log[..m], n) && Safe(log, m)
  {
    forall k: nat | k < m ensures Safe(log[..m], k) == Safe(log, k) {
      assert log[..m][..k] == log[..k];
    }
  }

  lemma {:induction false} FairSays(log: seq<Event>, n: nat)
    requires n <= |log|
    ensures Look(log, n).fair <==> NoContHalfLoaded(log, n)
    decreases |log|
  {
    if |log| > n {
      var m := |log| - 1;
      FairSays(log[..m], n);
      HalfBefore(log, n, m);
      FairOfPrefix(log, n, m);
    }
  }

  lemma HalfBefore(log: seq<Event>, n: nat, m: nat)
    requires n <= m <= |log|
    ensures Look(log[..m], n).half <==> HalfAt(log, n, m)
  {
    HalfSays(log[..m], n);
    HalfOfPrefix(log, n, m, m);
  }

  lemma FairOfPrefix(log: seq<Event>, n: nat, m: nat)
    requires n <= m == |log| - 1
    ensures NoContHalfLoaded(log, n) <==>
            NoContHalfLoaded(log[..m], n) && (Typing(log[m], Cont) ==> !HalfAt(log, n, m))
  {
    forall k: nat | k < m
      ensures HalfAt(log[..m], n, k) == HalfAt(log, n, k)
      ensures Typing(log[..m][k], Cont) == Typing(log[k], Cont)
    {
      HalfOfPrefix(log, n, m, k);
    }
  }

  // ---- one operation ------------------------------------------------------

  /** What every operation that began with `s` leaves, wherever its cont may have gone: the
      console free, no cont tried while half loaded, and each stop followed by a cont tried
      at the monitor, unless the machine may be half loaded at the end. */
  ghost predicate Disciplined(s: State, r: State) {
    && !r.busy && s.log <= r.log && NoContHalfLoaded(r.log, |s.log|)
    && (StopsResumed(r.log, |s.log|) || HalfAt(r.log, |s.log|, |r.log|))
  }

  lemma Reads(s: State, r: State)
    requires Closed(s, r, |s.log|)
    ensures Disciplined(s, r)
    ensures !Half(r, |s.log|) ==> StopsResumed(r.log, |s.log|)
    ensures Look(r.log, |s.log|).proper <==> SafeFrom(r.log, |s.log|)
    ensures Answered(Layer) in r.log ==> r.layered
  {
    ProperSays(r.log, |s.log|);
    FairSays(r.log, |s.log|);
    PendingSays(r.log, |s.log|);
    HalfSays(r.log, |s.log|);
    AskedSays(r.log, |s.log|);
  }

  /** A checkpoint, whatever happens to it: every stop is followed by a cont and the console
      let go of. Nothing is typed on the wrong side, and the focus the page believes in is
      the real one, exactly when no cont crosses; and the page is back on the serial side,
      ready for the next operation, exactly when besides that its last switch back did not
      throw. */
  lemma CheckpointIsSafe(o: Oracle, s: State)
    requires Ready(s)
    ensures var r := TakeCheckpoint(o, s).s;
            && Disciplined(s, r) && StopsResumed(r.log, |s.log|)
            && (SafeFrom(r.log, |s.log|) <==> !CheckpointCrosses(o, s))
            && (Oriented(r) <==> !CheckpointCrosses(o, s))
            && (Ready(r) <==> !CheckpointCrosses(o, s) && !SwitchBackOfCheckpoint(o, s).threw)
  {
    CheckpointHolds(o, s);
    Reads(s, TakeCheckpoint(o, s).s);
  }

  /** A rollback: the same, but the stop goes without its cont - and no cont is typed -
      if a loadvm was typed and never answered cleanly. */
  lemma RollbackIsSafe(o: Oracle, s: State)
    requires Ready(s) && s.savedAt.Some?
    ensures var r := Rollback(o, s).s;
            && Disciplined(s, r)
            && (SafeFrom(r.log, |s.log|) <==> !RollbackCrosses(o, s))
            && (Oriented(r) <==> !RollbackCrosses(o, s))
            && (Ready(r) <==> !RollbackCrosses(o, s) && !SwitchBackOfRollback(o, s).threw)
  {
    RollbackHolds(o, s);
    Reads(s, Rollback(o, s).s);
  }

  // ---- whole sessions -----------------------------------------------------

  /** What happens to the console between the page's first prompt and its last. */
  datatype Happening =
    | Checkpoints(o: Oracle)
    | RollsBack(o: Oracle)
    | UserHoldsCtrlA

  function Happen(s: State, h: Happening): State {
    match h
    case Checkpoints(o) => TakeCheckpoint(o, s).s
    case RollsBack(o) => Rollback(o, s).s
    case UserHoldsCtrlA => s.(keyboard := s.keyboard.(held := true))
  }

  function Session(s: State, hs: seq<Happening>): State
    decreases |hs|
  {
    if hs == [] then s else Session(Happen(s, hs[0]), hs[1..])
  }

  /** No cont crossed and the switch that ends the operation did not throw. */
  predicate ComesBack(s: State, h: Happening) {
    match h
    case Checkpoints(o) => !CheckpointCrosses(o, s) && !SwitchBackOfCheckpoint(o, s).threw
    case RollsBack(o) => s.savedAt.None? || (!RollbackCrosses(o, s) && !SwitchBackOfRollback(o, s).threw)
    case UserHoldsCtrlA => true
  }

  ghost predicate AlwaysComesBack(s: State, hs: seq<Happening>)
    decreases |hs|
  {
    hs == [] || (ComesBack(s, hs[0]) && AlwaysComesBack(Happen(s, hs[0]), hs[1..]))
  }

  /** At every moment between two operations the page is ready for the next. */
  ghost predicate StaysReady(s: State, hs: seq<Happening>)
    decreases |hs|
  {
    Ready(s) && (hs == [] || StaysReady(Happen(s, hs[0]), hs[1..]))
  }

  lemma HappensSafely(s: State, h: Happening)
    requires Ready(s)
    ensures var r := Happen(s, h);
            && s.log <= r.log && (Ready(r) <==> ComesBack(s, h))
            && (Ready(r) ==> SafeFrom(r.log, |s.log|))
  {
    match h {
      case Checkpoints(o) => CheckpointIsSafe(o, s);
      case RollsBack(o) => if s.savedAt.Some? { RollbackIsSafe(o, s); }
      case UserHoldsCtrlA =>
    }
  }

  /** A session stays ready exactly when every operation of it comes back; and then the
      focus the page believes in is the real one throughout, and nothing is ever typed at
      the wrong side, no savevm without the layer, no layer asked for twice. */
  lemma {:induction false} SessionIsSafe(s: State, hs: seq<Happening>)
    requires Ready(s) && SafeFrom(s.log, 0)
    ensures StaysReady(s, hs) <==> AlwaysComesBack(s, hs)
    ensures var r := Session(s, hs);
            AlwaysComesBack(s, hs) ==>
              Ready(r) && r.keyboard.side == Serial && s.log <= r.log && SafeFrom(r.log, 0)
    decreases |hs|
  {
    if hs != [] {
      var r := Happen(s, hs[0]);
      HappensSafely(s, hs[0]);
      if Ready(r) {
        SafeJoined(s.log, r.log);
        SessionIsSafe(r, hs[1..]);
      }
    }
  }

  lemma SafeJoined(a: seq<Event>, b: seq<Event>)
    requires a <= b && SafeFrom(a, 0) && SafeFrom(b, |a|)
    ensures SafeFrom(b, 0)
  {
    forall k | 0 <= k < |b| ensures Safe(b, k) {
      if k < |a| {
        assert Safe(a, k) && a[..k] == b[..k];
      }
    }
  }
}
