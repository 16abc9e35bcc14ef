/** What the page believes of the size of the guest's terminal, and what is so: when the
    two part, when they come together again, and what a retry can do about it. */
module GuestSize {
  import opened Options
  import opened GeomSync
  import Scripts
  import opened Errands
  import opened Typists

  /** The page at its first prompt, the size handed over, and no checkpoint. */
  function Idle(g: Geom): World { World(false, None, [], Sync(Some(g), false), g, g, None, []) }

  lemma IdleIsOrderly(g: Geom)
    ensures Orderly(Idle(g)) && Scripted(Idle(g)) && NoneLost(Idle(g)) && Told(Idle(g))
  {
    assert forall id: nat :: Of([], id) == [];
  }

  /** A usable shape is told, or its telling is due. */
  predicate NoneLost(w: World) {
    Usable(Some(w.grid)) ==> w.sync.told == Some(w.grid) || w.sync.timer
  }

  /** What the page believes the guest's size to be, it is. */
  predicate Told(w: World) { w.sync.told == Some(w.guest) }

  // ---- a resize lost -----------------------------------------------------------------

  /** The attempt a step makes to tell a size, if it makes one. */
  function Attempts(w: World, s: Step): Option<Tried> {
    if w.turn.Some? then None
    else match s
      case Resized(g, prompt, throws) => Some(Attempt(w.sync, Some(g), !w.busy && prompt, throws))
      case TimerFires(prompt, throws) =>
        if w.sync.timer then Some(Attempt(w.sync, Some(w.grid), !w.busy && prompt, throws)) else None
      case _ => None
  }

  /** The paste of a new size throws: the attempt is over, and nothing is due. */
  predicate SendThrown(w: World, s: Step) { Attempts(w, s).Some? && Attempts(w, s).value.threw }

  lemma LostExactly(w: World, s: Step)
    requires NoneLost(w)
    ensures NoneLost(Do(w, s)) <==> !SendThrown(w, s)
  {
    hide Script, Scripts.Next;
  }

  ghost predicate Always(p: World -> bool, w: World, steps: seq<Step>)
    decreases |steps|
  {
    p(w) && (steps == [] || Always(p, Do(w, steps[0]), steps[1..]))
  }

  ghost predicate Never(bad: (World, Step) -> bool, w: World, steps: seq<Step>)
    decreases |steps|
  {
    steps == [] || (!bad(w, steps[0]) && Never(bad, Do(w, steps[0]), steps[1..]))
  }

  /** In every interleaving: no resize is lost, at any moment, exactly if no paste of a size
      is thrown out of. */
  lemma {:induction false} NoResizeIsLost(w: World, steps: seq<Step>)
    requires NoneLost(w)
    ensures Always(NoneLost, w, steps) <==> Never(SendThrown, w, steps)
    decreases |steps|
  {
    if steps != [] {
      LostExactly(w, steps[0]);
      var r := Do(w, steps[0]);
      AlwaysNow(NoneLost, r, steps[1..]);
      if NoneLost(r) {
        NoResizeIsLost(r, steps[1..]);
      }
    }
  }

  lemma AlwaysNow(p: World -> bool, w: World, steps: seq<Step>)
    ensures Always(p, w, steps) ==> p(w)
  {}

  lemma {:induction false} AlwaysAtTheEnd(p: World -> bool, w: World, steps: seq<Step>)
    requires Always(p, w, steps)
    ensures p(Run(w, steps))
    decreases |steps|
  {
    if steps != [] {
      AlwaysAtTheEnd(p, Do(w, steps[0]), steps[1..]);
    }
  }

  // ---- belief and truth -----------------------------------------------------------------

  /** The line a step has a job type, if it has one. */
  function Pasted(w: World, s: Step): Option<Scripts.Touch> {
    if s.Goes? && s.id < |w.jobs| && (w.turn.None? || w.turn == Some(s.id)) && Touched(w.jobs[s.id]) != []
    then Some(Touched(w.jobs[s.id])[0]) else None
  }

  /** A re-sync that throws or does nothing, of a size that is not the guest's; or a load
      that brings back one the page does not believe in. */
  predicate Parts(w: World, s: Step) {
    var t := Pasted(w, s);
    t.Some? &&
    ((t.value.line == Scripts.SizeLine && Usable(Some(w.grid)) && !Took(t.value) && w.guest != w.grid)
     || (t.value.line == Scripts.LoadVm && Took(t.value) && w.slot.Some? && w.sync.told != w.slot))
  }

  /** A size sent, a re-sync that is taken or says what the guest knew, or a load that
      brings back just what the page believes in. */
  predicate Joins(w: World, s: Step) {
    var t, a := Pasted(w, s), Attempts(w, s);
    || (a.Some? && a.value.sent.Some?)
    || (t.Some? && t.value.line == Scripts.SizeLine && Usable(Some(w.grid)) && (Took(t.value) || w.guest == w.grid))
    || (t.Some? && t.value.line == Scripts.LoadVm && Took(t.value) && w.slot.Some? && w.sync.told == w.slot)
  }

  /** Nothing else makes a difference. */
  lemma StepDecides(w: World, s: Step)
    ensures !(Parts(w, s) && Joins(w, s))
    ensures Told(Do(w, s)) <==> !Parts(w, s) && (Joins(w, s) || Told(w))
  {
    hide Script, Scripts.Next, Scripts.Over;
  }

  /** A step parts the two if and only if it is such a re-sync or such a load. */
  lemma PartsExactly(w: World, s: Step)
    requires Told(w)
    ensures Told(Do(w, s)) <==> !Parts(w, s)
  {
    StepDecides(w, s);
  }

  /** In every interleaving: the page's belief is right at every moment exactly if no step
      ever parts it from the truth. */
  lemma {:induction false} ToldWasSo(w: World, steps: seq<Step>)
    requires Told(w)
    ensures Always(Told, w, steps) <==> Never(Parts, w, steps)
    decreases |steps|
  {
    if steps != [] {
      PartsExactly(w, steps[0]);
      var r := Do(w, steps[0]);
      AlwaysNow(Told, r, steps[1..]);
      if Told(r) {
        ToldWasSo(r, steps[1..]);
      }
    }
  }

  lemma {:induction false} RunMore(w: World, steps: seq<Step>, more: seq<Step>)
    ensures Run(w, steps + more) == Run(Run(w, steps), more)
    decreases |steps|
  {
    if steps == [] {
      assert steps + more == more;
    } else {
      assert (steps + more)[0] == steps[0] && (steps + more)[1..] == steps[1..] + more;
      RunMore(Do(w, steps[0]), steps[1..], more);
    }
  }

  /** The last step that parted them has none after it that joins them again. */
  ghost predicate LeftParted(w: World, steps: seq<Step>) {
    exists k :: 0 <= k < |steps| && Parts(Run(w, steps[..k]), steps[k]) && NoneJoins(w, steps, k)
  }

  ghost predicate NoneJoins(w: World, steps: seq<Step>, k: nat) {
    forall j :: k < j < |steps| ==> !Joins(Run(w, steps[..j]), steps[j])
  }

  /** In every interleaving: it is right at the end exactly if no re-sync that was lost and
      no load of another size stands there with nothing after it that puts it right. */
  lemma {:induction false} BeliefIsRight(w: World, steps: seq<Step>)
    requires Told(w)
    ensures Told(Run(w, steps)) <==> !LeftParted(w, steps)
    decreases |steps|
  {
    hide Parts, Joins, Do, Told;
    if steps != [] {
      var m := |steps| - 1;
      var before, last := steps[..m], steps[m];
      assert steps == before + [last];
      RunMore(w, before, [last]);
      BeliefIsRight(w, before);
      StepDecides(Run(w, before), last);
      LeftPartedBefore(w, steps, m);
      assert Run(Run(w, before), [last]) == Do(Run(w, before), last);
    }
  }

  lemma LeftPartedBefore(w: World, steps: seq<Step>, m: nat)
    requires m == |steps| - 1
    ensures var q := Run(w, steps[..m]);
            LeftParted(w, steps) <==> Parts(q, steps[m]) || (LeftParted(w, steps[..m]) && !Joins(q, steps[m]))
  {
    hide Parts, Joins, Do, Run, Told;
    var before := steps[..m];
    forall k: nat | k < m ensures before[..k] == steps[..k] && before[k] == steps[k] {}
    StepDecides(Run(w, before), steps[m]);
    if LeftParted(w, steps) {
      var k :| 0 <= k < |steps| && Parts(Run(w, steps[..k]), steps[k]) && NoneJoins(w, steps, k);
      if k < m {
        assert Parts(Run(w, before[..k]), before[k]);
        assert NoneJoins(w, before, k);
      }
    }
    if LeftParted(w, before) && !Joins(Run(w, before), steps[m]) {
      var k :| 0 <= k < |before| && Parts(Run(w, before[..k]), before[k]) && NoneJoins(w, before, k);
      assert Parts(Run(w, steps[..k]), steps[k]);
      assert NoneJoins(w, steps, k);
    }
    if Parts(Run(w, before), steps[m]) {
      assert NoneJoins(w, steps, m);
    }
  }

  /** After any interleaving that lost no resize, the timer's next try, if it finds the
      console free and at a prompt, leaves none due - and leaves the guest with the page's
      size exactly if the page did not already believe so, or believed so rightly. */
  lemma RetryLands(w: World, steps: seq<Step>)
    requires NoneLost(w) && Told(w) && Never(SendThrown, w, steps)
    ensures var r := Run(w, steps);
            r.turn.None? && !r.busy && Usable(Some(r.grid)) ==>
              var e := Do(r, TimerFires(true, false));
              && e.grid == r.grid && e.sync == Sync(Some(r.grid), false)
              && (e.guest == r.grid <==> r.sync.told != Some(r.grid) || !LeftParted(w, steps))
  {
    NoResizeIsLost(w, steps);
    BeliefIsRight(w, steps);
    AlwaysAtTheEnd(NoneLost, w, steps);
    var r := Run(w, steps);
    if r.turn.None? && !r.busy && Usable(Some(r.grid)) {
      RetryNow(r);
    }
  }

  lemma RetryNow(r: World)
    requires NoneLost(r) && r.turn.None? && !r.busy && Usable(Some(r.grid))
    ensures var e := Do(r, TimerFires(true, false));
            && e.grid == r.grid && e.sync == Sync(Some(r.grid), false)
            && (e.guest == r.grid <==> r.sync.told != Some(r.grid) || Told(r))
  {}

  /** Wrongly believed, it stays wrong: no try for the same size sends anything. */
  lemma {:induction false} WrongForGood(r: World, steps: seq<Step>)
    requires r.sync.told == Some(r.grid)
    requires forall s :: s in steps ==> s.TimerFires? || (s.Resized? && s.g == r.grid)
    ensures var e := Run(r, steps); e.guest == r.guest && e.log == r.log && e.sync.told == r.sync.told
    decreases |steps|
  {
    if steps != [] {
      assert steps[0] in steps;
      var q := Do(r, steps[0]);
      assert q.guest == r.guest && q.log == r.log && q.sync.told == r.sync.told && q.grid == r.grid;
      WrongForGood(q, steps[1..]);
    }
  }

  // ---- an errand by itself ----------------------------------------------------------------

  /** What lines typed one after another do to the sizes. */
  function Landing(w: World, typed: seq<Scripts.Touch>): (r: World)
    ensures r == w.(sync := r.sync, guest := r.guest, slot := r.slot) && r.sync.timer == w.sync.timer
    decreases |typed|
  {
    if typed == [] then w else Lands(Landing(w, typed[..|typed| - 1]), typed[|typed| - 1])
  }

  ghost predicate SameSizes(a: World, b: World) {
    a.grid == b.grid && a.sync == b.sync && a.guest == b.guest && a.slot == b.slot
  }

  lemma LandsAlike(a: World, b: World, t: Scripts.Touch)
    requires SameSizes(a, b)
    ensures SameSizes(Lands(a, t), Lands(b, t))
  {}

  lemma AdvanceLands(b: World, w: World, id: nat)
    requires id < |w.jobs| && SameSizes(w, Landing(b, w.jobs[id].task.l.typed))
    ensures var r := Advance(w, id);
            && SameSizes(r, Landing(b, r.jobs[id].task.l.typed))
            && r.jobs[id].kind == w.jobs[id].kind && r.jobs[id].o == w.jobs[id].o
  {
    hide Lands, Scripts.Next, Scripts.Over, Scripts.Rest;
    var j := w.jobs[id];
    AdvanceLeads(w, id);
    if Touched(j) != [] {
      var was, t := j.task.l.typed, Touched(j)[0];
      assert Touched(j) == [t];
      assert (was + [t])[..|was|] == was;
      LandsAlike(w, Landing(b, was), t);
    } else {
      assert j.task.l.typed + [] == j.task.l.typed;
    }
  }

  lemma {:induction false} TurnsLand(b: World, w: World, id: nat, n: nat)
    requires Orderly(w) && Holder(w.log) == Some(id) && Scripts.Left(w.jobs[id].task.k) <= n
    requires SameSizes(w, Landing(b, w.jobs[id].task.l.typed))
    ensures var r := Run(w, Turns(id, n));
            && Orderly(r) && !r.busy && r.turn.None? && |r.jobs| == |w.jobs|
            && r.jobs[id].task.k == Scripts.Stop && SameSizes(r, Landing(b, r.jobs[id].task.l.typed))
            && r.jobs[id].kind == w.jobs[id].kind && r.jobs[id].o == w.jobs[id].o
    decreases n
  {
    assert HasItsPlace(w, id);
    var j := w.jobs[id];
    Scripts.HoldingIsNotOver(j.task.k);
    Scripts.NextShrinks(j.task, j.o);
    StepsInTurn(w, Goes(id));
    var r := Do(w, Goes(id));
    assert r == Advance(w, id);
    AdvanceLands(b, w, id);
    assert Turns(id, n)[1..] == Turns(id, n - 1);
    assert HasItsPlace(r, id);
    if Holder(r.log) == Some(id) {
      TurnsLand(b, r, id, n - 1);
    } else {
      LetGo(w, id);
      Idles(r, id, n - 1);
    }
  }

  /** An errand asked for and given all its turns with nothing in between. */
  function Alone(w: World, kind: Kind, o: Scripts.Oracle): seq<Step> {
    [Begin(kind, o)] + Turns(|w.jobs|, Scripts.Left(Start(kind, o).task.k))
  }

  lemma AloneLands(w: World, kind: Kind, o: Scripts.Oracle)
    requires Orderly(w) && Scripted(w) && !w.busy && w.turn.None?
    ensures var r := Run(w, Alone(w, kind, o));
            && Orderly(r) && Scripted(r) && !r.busy && r.turn.None?
            && SameSizes(r, Landing(w, Outcome(kind, o).typed))
  {
    hide Script, Scripts.Exec, Orderly, Scripted, Lands;
    var id, steps := |w.jobs|, Alone(w, kind, o);
    var b := Do(w, Begin(kind, o));
    BeginsInTurn(w, kind, o);
    HolderAfter(w.log, Began(id));
    EachToItsScript(w, steps);
    assert steps[1..] == Turns(id, Scripts.Left(Start(kind, o).task.k));
    TurnsLand(w, b, id, Scripts.Left(Start(kind, o).task.k));
    DoneIsOutcome(Run(w, steps), id);
  }

  lemma DoneIsOutcome(r: World, id: nat)
    requires Scripted(r) && id < |r.jobs| && r.jobs[id].task.k == Scripts.Stop
    ensures r.jobs[id].task.l == Outcome(r.jobs[id].kind, r.jobs[id].o)
  {
    hide Script;
    assert OnItsWay(r, id);
  }
}
