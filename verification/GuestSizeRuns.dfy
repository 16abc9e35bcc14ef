/** Runs that lose a resize, lose a re-sync, and leave the guest with the size of its
    checkpoint for good. */
module GuestSizeRuns {
  import opened Options
  import opened GeomSync
  import opened Scripts
  import opened Errands
  import T = Typists
  import opened GuestSize

  // ---- a resize lost -------------------------------------------------------------------

  /** One paste thrown out of is enough: told another size, and nothing due. */
  lemma ResizeLost(g: Geom, h: Geom)
    requires Usable(Some(h)) && g != h
    ensures var r := T.Do(Idle(g), T.Resized(h, true, true));
            NoneLost(Idle(g)) && SendThrown(Idle(g), T.Resized(h, true, true))
            && !NoneLost(r) && r.sync == Sync(Some(g), false) && r.grid == h
  {
    hide T.Advance, T.Start;
  }

  // ---- what pieces of a script come to when nothing throws --------------------------------

  predicate Sized(line: Line) { line in {SizeLine, SaveVm, LoadVm} }

  /** No line that has to do with sizes was typed between the two. */
  ghost predicate SizesLeft(a: seq<Touch>, b: seq<Touch>) {
    a <= b && forall k :: |a| <= k < |b| ==> !Sized(b[k].line)
  }

  lemma {:induction false} SizesLeftLands(w: T.World, a: seq<Touch>, b: seq<Touch>)
    requires SizesLeft(a, b)
    ensures Landing(w, b) == Landing(w, a)
    decreases |b|
  {
    if |b| > |a| {
      var m := |b| - 1;
      SizesLeftLands(w, a, b[..m]);
      assert !Sized(b[m].line);
    } else {
      assert a == b;
    }
  }

  predicate Calm(o: Oracle, c: nat, n: nat) { forall t :: c <= t < c + n ==> !o(t).throws }

  /** It ended normally, so many ticks later, with nothing done about sizes. */
  ghost predicate Went(l: Local, e: Res, n: nat) {
    e.how == Normal && e.l.clock == l.clock + n && SizesLeft(l.typed, e.l.typed)
  }

  lemma WentThen(a: Block, b: Block, l: Local, o: Oracle, m: nat, n: nat)
    requires Went(l, Exec(a, l, o), m) && Went(Exec(a, l, o).l, Exec(b, Exec(a, l, o).l, o), n)
    ensures Went(l, Exec(Plus(a, b), l, o), m + n)
  {
    ExecPlus(a, b, l, o);
  }

  lemma AskWent(line: Line, l: Local, o: Oracle)
    requires !o(l.clock).throws && !Sized(line)
    ensures Went(l, Exec(Ask(line), l, o), 1)
  {
    AskRuns(line, l, o);
  }

  lemma MaybeRuns(part: Block, l: Local, o: Oracle)
    ensures Exec(Maybe(part), l, o) == if o(l.clock).yes then Exec(part, Tick(l), o) else Res(Tick(l), Normal)
  {
    var r := Exec(if o(l.clock).yes then part else End, Tick(l), o);
    assert Does(Choose(part, End), l, o) == r;
  }

  lemma WaitWent(l: Local, o: Oracle)
    ensures Went(l, Exec(Maybe(One(Await)), l, o), 1)
  {
    MaybeRuns(One(Await), l, o);
    assert Exec(One(Await), Tick(l), o) == Res(Tick(l), Normal);
  }

  lemma PairWent(l: Local, o: Oracle)
    requires Calm(o, l.clock, 2)
    ensures Went(l, Exec(Then(Paste(MuxKey), One(Paste(MuxKey))), l, o), 2)
  {
    var a := Simple(Paste(MuxKey), l, o);
    var b := Simple(Paste(MuxKey), a.l, o);
    assert Does(Paste(MuxKey), l, o) == a && Does(Paste(MuxKey), a.l, o) == b;
    assert Exec(One(Paste(MuxKey)), a.l, o) == b;
  }

  lemma SwitchMuxWent(l: Local, o: Oracle)
    requires Calm(o, l.clock, 6)
    ensures Went(l, Exec(SwitchMux(), l, o), 6)
  {
    var pair := Then(Paste(MuxKey), One(Paste(MuxKey)));
    var a := Exec(Maybe(One(Await)), l, o).l;
    WaitWent(l, o);
    PairWent(a, o);
    var b := Exec(pair, a, o).l;
    PairWent(b, o);
    var c := Exec(pair, b, o).l;
    WaitWent(c, o);
    WentThen(pair, Maybe(One(Await)), b, o, 2, 1);
    WentThen(pair, Plus(pair, Maybe(One(Await))), a, o, 2, 3);
    WentThen(Maybe(One(Await)), Plus(pair, Plus(pair, Maybe(One(Await)))), l, o, 1, 5);
  }

  /** A command, if it is due. */
  lemma CommandWent(l: Local, o: Oracle)
    requires o(l.clock).yes && !o(l.clock + 1).throws
    ensures Went(l, Exec(Maybe(Ask(Command)), l, o), 2)
  {
    MaybeRuns(Ask(Command), l, o);
    AskWent(Command, Tick(l), o);
  }

  lemma LeaveWent(l: Local, o: Oracle)
    requires Calm(o, l.clock, 9) && o(l.clock).yes && o(l.clock + 1).yes
    ensures Went(l, Exec(Leave(), l, o), 9)
  {
    hide Exec, SwitchMux;
    var m := Tick(l);
    MaybeRuns(Plus(Maybe(Ask(Command)), SwitchMux()), l, o);
    CommandWent(m, o);
    SwitchMuxWent(Exec(Maybe(Ask(Command)), m, o).l, o);
    WentThen(Maybe(Ask(Command)), SwitchMux(), m, o, 2, 6);
  }

  lemma LastLeaveWent(l: Local, o: Oracle)
    requires !o(l.clock).yes && !o(l.clock + 1).throws
    ensures Went(l, Exec(LastLeave(), l, o), 2)
  {
    MaybeRuns(Plus(Maybe(Ask(Command)), SwitchMux()), l, o);
    ExecPlus(Leave(), One(Call), l, o);
    assert Exec(Leave(), l, o) == Res(Tick(l), Normal);
    assert Does(Call, Tick(l), o) == Res(Tick(Tick(l)), Normal);
  }

  /** A line about sizes, and whatever may come of it left alone. */
  lemma SizedRuns(line: Line, part: Block, l: Local, o: Oracle)
    requires o(l.clock).yes && !o(l.clock + 1).throws && !o(l.clock + 2).yes
    ensures Exec(Maybe(Plus(Ask(line), Maybe(part))), l, o)
         == Res(l.(typed := l.typed + [Touch(line, o(l.clock + 1))], clock := l.clock + 3), Normal)
  {
    MaybeRuns(Plus(Ask(line), Maybe(part)), l, o);
    AskRuns(line, Tick(l), o);
    ExecPlus(Ask(line), Maybe(part), Tick(l), o);
    MaybeRuns(part, Exec(Ask(line), Tick(l), o).l, o);
  }

  // ---- a checkpoint and a rollback -------------------------------------------------------

  lemma OneLands(w: T.World, a: seq<Touch>, t: Touch)
    ensures Landing(w, a + [t]) == T.Lands(Landing(w, a), t)
  {
    assert (a + [t])[..|a|] == a;
  }

  /** From `l` to `e` it ran to its end, and did one thing about sizes. */
  ghost predicate DidOne(l: Local, e: Res, n: nat, t: Touch) {
    && e.how == Normal && e.l.clock == l.clock + n
    && forall w :: Landing(w, e.l.typed) == T.Lands(Landing(w, l.typed), t)
  }

  lemma WentDidOne(l: Local, a: Res, b: Res, e: Res, m: nat, n: nat, k: nat, t: Touch)
    requires Went(l, a, m) && Went(b.l, e, k)
    requires b == Res(a.l.(typed := a.l.typed + [t], clock := a.l.clock + n), Normal)
    ensures DidOne(l, e, m + n + k, t)
  {
    forall w ensures Landing(w, e.l.typed) == T.Lands(Landing(w, l.typed), t) {
      SizesLeftLands(w, l.typed, a.l.typed);
      OneLands(w, a.l.typed, t);
      SizesLeftLands(w, b.l.typed, e.l.typed);
    }
  }

  /** The monitor taken with a stop answered, a line about sizes, and left again. */
  function Visit(line: Line, part: Block): Block {
    Plus(Maybe(Ask(Command)), Plus(Maybe(Plus(Ask(line), Maybe(part))), Leave()))
  }

  lemma VisitRuns(line: Line, part: Block, l: Local, o: Oracle)
    requires Calm(o, l.clock, 14) && o(l.clock).yes && o(l.clock + 2).yes && !o(l.clock + 4).yes
    requires o(l.clock + 5).yes && o(l.clock + 6).yes
    ensures DidOne(l, Exec(Visit(line, part), l, o), 14, Touch(line, o(l.clock + 3)))
  {
    hide Exec, Leave;
    var stop, sized := Maybe(Ask(Command)), Maybe(Plus(Ask(line), Maybe(part)));
    var a := Exec(stop, l, o);
    CommandWent(l, o);
    var b := Exec(sized, a.l, o);
    SizedRuns(line, part, a.l, o);
    var e := Exec(Leave(), b.l, o);
    LeaveWent(b.l, o);
    ExecPlus(sized, Leave(), a.l, o);
    ExecPlus(stop, Plus(sized, Leave()), l, o);
    WentDidOne(l, a, b, e, 2, 3, 9, Touch(line, o(l.clock + 3)));
  }

  lemma WentThenDidOne(l: Local, a: Res, e: Res, m: nat, n: nat, t: Touch)
    requires Went(l, a, m) && DidOne(a.l, e, n, t)
    ensures DidOne(l, e, m + n, t)
  {
    forall w ensures Landing(w, e.l.typed) == T.Lands(Landing(w, l.typed), t) {
      SizesLeftLands(w, l.typed, a.l.typed);
    }
  }

  lemma StopThenVisit(line: Line, part: Block, l: Local, o: Oracle)
    requires Calm(o, l.clock, 16) && o(l.clock).yes && o(l.clock + 2).yes && o(l.clock + 4).yes
    requires !o(l.clock + 6).yes && o(l.clock + 7).yes && o(l.clock + 8).yes
    ensures DidOne(l, Exec(Plus(Maybe(Ask(Command)), Visit(line, part)), l, o), 16, Touch(line, o(l.clock + 5)))
  {
    hide Exec, Visit, Maybe, Ask, DidOne;
    var stop := Maybe(Ask(Command));
    var a := Exec(stop, l, o);
    CommandWent(l, o);
    VisitRuns(line, part, a.l, o);
    ExecPlus(stop, Visit(line, part), l, o);
    WentThenDidOne(l, a, Exec(Visit(line, part), a.l, o), 2, 14, Touch(line, o(l.clock + 5)));
  }

  lemma MonitorRuns(l: Local, o: Oracle)
    requires Calm(o, l.clock, 23) && o(l.clock + 7).yes && o(l.clock + 9).yes && o(l.clock + 11).yes
    requires !o(l.clock + 13).yes && o(l.clock + 14).yes && o(l.clock + 15).yes
    ensures DidOne(l, Exec(Monitor(), l, o), 23, Touch(SaveVm, o(l.clock + 12)))
  {
    hide Exec, SwitchMux, Visit, Plus, Maybe, Ask, DidOne, Monitor;
    var m, part := Tick(l), Plus(Ask(Command), Maybe(One(Call)));
    var rest := Plus(Maybe(Ask(Command)), Visit(SaveVm, part));
    MonitorIs(Visit(SaveVm, part));
    CallRuns(Plus(SwitchMux(), rest), l, o);
    SwitchThen(SaveVm, part, m, o);
    TickDidOne(l, Exec(Plus(SwitchMux(), rest), m, o), 22, Touch(SaveVm, o(l.clock + 12)));
  }

  lemma TickDidOne(l: Local, e: Res, n: nat, t: Touch)
    requires DidOne(Tick(l), e, n, t)
    ensures DidOne(l, e, n + 1, t)
  {
    assert Tick(l).typed == l.typed;
  }

  lemma SwitchThen(line: Line, part: Block, m: Local, o: Oracle)
    requires Calm(o, m.clock, 22) && o(m.clock + 6).yes && o(m.clock + 8).yes && o(m.clock + 10).yes
    requires !o(m.clock + 12).yes && o(m.clock + 13).yes && o(m.clock + 14).yes
    ensures var rest := Plus(Maybe(Ask(Command)), Visit(line, part));
            DidOne(m, Exec(Plus(SwitchMux(), rest), m, o), 22, Touch(line, o(m.clock + 11)))
  {
    hide Exec, SwitchMux, Visit, Maybe, Ask, DidOne;
    var rest := Plus(Maybe(Ask(Command)), Visit(line, part));
    var a := Exec(SwitchMux(), m, o);
    SwitchMuxWent(m, o);
    StopThenVisit(line, part, a.l, o);
    ExecPlus(SwitchMux(), rest, m, o);
    WentThenDidOne(m, a, Exec(rest, a.l, o), 6, 16, Touch(line, o(m.clock + 11)));
  }

  lemma MonitorIs(visit: Block)
    requires visit == Visit(SaveVm, Plus(Ask(Command), Maybe(One(Call))))
    ensures Monitor() == Then(Call, Plus(SwitchMux(), Plus(Maybe(Ask(Command)), visit)))
  {}

  lemma CallRuns(rest: Block, l: Local, o: Oracle)
    requires !o(l.clock).throws
    ensures Exec(Then(Call, rest), l, o) == Exec(rest, Tick(l), o)
  {
    assert Does(Call, l, o) == Res(Tick(l), Normal);
  }

  /** The re-sync at the end of a checkpoint, thrown out of or not. */
  lemma ResyncRuns(l: Local, o: Oracle)
    requires o(l.clock).yes && !o(l.clock + 2).throws
    ensures var e := Exec(Plus(Maybe(Resync()), GivesUp()), l, o);
            e.l == l.(typed := l.typed + [Touch(SizeLine, o(l.clock + 1))],
                      clock := l.clock + if o(l.clock + 1).throws then 2 else 3)
  {
    hide Exec, Maybe, Plus;
    MaybeRuns(Resync(), l, o);
    SizeLineRuns(Tick(l), o);
    ExecPlus(Maybe(Resync()), GivesUp(), l, o);
    var a := Exec(Resync(), Tick(l), o);
    if a.how == Normal {
      CallRuns(One(Return), a.l, o);
      ReturnRuns(Tick(a.l), o);
    }
  }

  lemma SizeLineRuns(l: Local, o: Oracle)
    ensures Exec(Resync(), l, o) == Res(l.(typed := l.typed + [Touch(SizeLine, o(l.clock))], clock := l.clock + 1),
                                        if o(l.clock).throws then Thrown else Normal)
  {
    var a := Simple(Paste(SizeLine), l, o);
    assert Does(Paste(SizeLine), l, o) == a;
    assert Exec(Then(Await, One(Await)), a.l, o) == Res(a.l, Normal);
  }

  lemma ReturnRuns(l: Local, o: Oracle)
    ensures Exec(One(Return), l, o) == Res(l, Returned)
  {
    assert Does(Return, l, o) == Res(l, Returned);
  }

  /** A checkpoint of a machine that answers: what it does to sizes is its savevm, and then
      its re-sync. */
  predicate Answering(o: Oracle) {
    && Calm(o, 0, 27) && !o(28).throws && !o(29).throws && !o(30).throws
    && (forall t :: t in {2, 10, 12, 14, 17, 18, 26} ==> o(t).yes) && (forall t :: t in {16, 28, 29} ==> !o(t).yes)
  }

  lemma CheckpointSizes(w: T.World, o: Oracle)
    requires Answering(o)
    ensures Landing(w, T.Outcome(Checkpoint, o).typed)
         == T.Lands(T.Lands(w, Touch(SaveVm, o(15))), Touch(SizeLine, o(27)))
  {
    hide Exec, Monitor, T.Lands, Checkpointing, LastLeave, Guarded;
    var rest := Plus(Maybe(Resync()), GivesUp());
    AtPromptRuns(Plus(Monitor(), rest), GivesUp(), o);
    var l := Local(false, false, [Touch(AskPrompt, o(1))], 0, 3);
    MonitorRuns(l, o);
    var a := Exec(Monitor(), l, o);
    ExecPlus(Monitor(), rest, l, o);
    ResyncRuns(a.l, o);
    var body := Exec(rest, a.l, o);
    OneLands(w, a.l.typed, Touch(SizeLine, o(27)));
    LastLeaveWent(body.l, o);
    var end := Exec(LastLeave(), body.l, o);
    SizesLeftLands(w, body.l.typed, end.l.typed);
    GuardedEnds(Checkpointing(), LastLeave(), FRESH, o);
    CheckpointingIs();
    SizesLeftLands(w, [], l.typed);
  }

  lemma CheckpointingIs()
    ensures Checkpointing() == AtPrompt(Plus(Monitor(), Plus(Maybe(Resync()), GivesUp())), GivesUp())
    ensures Script(Checkpoint) == Guarded(Checkpointing(), LastLeave())
  {}

  /** What comes after a load that was answered: a prompt asked for and none found. */
  function Back(): Block {
    Plus(Maybe(One(Await)), Plus(Ask(AskPrompt), Plus(Maybe(Resync()), GivesUp())))
  }

  lemma BackRuns(l: Local, o: Oracle)
    requires Calm(o, l.clock, 4) && !o(l.clock + 2).yes
    ensures var e := Exec(Back(), l, o); e.l.clock == l.clock + 4 && SizesLeft(l.typed, e.l.typed)
  {
    var rest := Plus(Maybe(Resync()), GivesUp());
    WaitWent(l, o);
    var a := Exec(Maybe(One(Await)), l, o);
    AskWent(AskPrompt, a.l, o);
    var b := Exec(Ask(AskPrompt), a.l, o);
    ExecPlus(Maybe(One(Await)), Plus(Ask(AskPrompt), rest), l, o);
    ExecPlus(Ask(AskPrompt), rest, a.l, o);
    MaybeRuns(Resync(), b.l, o);
    var c := Tick(b.l);
    ExecPlus(Maybe(Resync()), GivesUp(), b.l, o);
    CallRuns(One(Return), c, o);
    ReturnRuns(Tick(c), o);
  }

  /** A rollback of a machine that answers, with no prompt to come back to. */
  predicate Promptless(o: Oracle) {
    && Calm(o, 0, 28)
    && (forall t :: t in {7, 9, 12, 13, 21} ==> o(t).yes) && (forall t :: t in {11, 24, 26} ==> !o(t).yes)
  }

  lemma LoadRuns(l: Local, o: Oracle)
    requires Calm(o, l.clock, 20) && o(l.clock + 6).yes && o(l.clock + 8).yes && !o(l.clock + 10).yes
    requires o(l.clock + 11).yes && o(l.clock + 12).yes
    ensures DidOne(l, Exec(Plus(SwitchMux(), Visit(LoadVm, One(Call))), l, o), 20, Touch(LoadVm, o(l.clock + 9)))
  {
    hide Exec, SwitchMux, Visit, Plus, DidOne;
    var a := Exec(SwitchMux(), l, o);
    SwitchMuxWent(l, o);
    VisitRuns(LoadVm, One(Call), a.l, o);
    ExecPlus(SwitchMux(), Visit(LoadVm, One(Call)), l, o);
    WentThenDidOne(l, a, Exec(Visit(LoadVm, One(Call)), a.l, o), 6, 14, Touch(LoadVm, o(l.clock + 9)));
  }

  lemma RollbackSizes(w: T.World, o: Oracle)
    requires Promptless(o)
    ensures Landing(w, T.Outcome(Rollback, o).typed) == T.Lands(w, Touch(LoadVm, o(10)))
  {
    hide Exec, T.Lands, GoingBack, LastLeave, Guarded, Back, Visit, SwitchMux, Plus;
    var load, l := Plus(SwitchMux(), Visit(LoadVm, One(Call))), Tick(FRESH);
    CallRuns(Plus(load, Only(Back(), GivesUp())), FRESH, o);
    LoadRuns(l, o);
    var a := Exec(load, l, o);
    ExecPlus(load, Only(Back(), GivesUp()), l, o);
    OnlyRuns(Back(), GivesUp(), a.l, o);
    BackRuns(Tick(a.l), o);
    var body := Exec(Back(), Tick(a.l), o);
    LastLeaveWent(body.l, o);
    var end := Exec(LastLeave(), body.l, o);
    SizesLeftLands(w, a.l.typed, body.l.typed);
    SizesLeftLands(w, body.l.typed, end.l.typed);
    GuardedEnds(GoingBack(), LastLeave(), FRESH, o);
    GoingBackIs();
  }

  lemma GoingBackIs()
    ensures GoingBack() == Then(Call, Plus(Plus(SwitchMux(), Visit(LoadVm, One(Call))), Only(Back(), GivesUp())))
    ensures Script(Rollback) == Guarded(GoingBack(), LastLeave())
  {}

  // ---- the runs ----------------------------------------------------------------------------

  function Saves(t: nat): Luck { Luck(false, t !in {16, 28, 29}, true, false) }

  /** The same, but the paste of the re-sync throws. */
  function Torn(t: nat): Luck { Luck(t == 27, t !in {16, 28, 29}, true, false) }

  function Promptlessly(t: nat): Luck { Luck(false, t !in {11, 24, 26}, true, false) }

  lemma TheyAre()
    ensures Answering(Saves) && Answering(Torn) && Promptless(Promptlessly)
  {}

  /** Between errands, with no retry due and these sizes. */
  ghost predicate At(w: T.World, grid: Geom, told: Geom, guest: Geom, slot: Option<Geom>) {
    && T.Orderly(w) && T.Scripted(w) && !w.busy && w.turn.None?
    && w.grid == grid && w.sync == Sync(Some(told), false) && w.guest == guest && w.slot == slot
  }

  lemma SavedAt(w: T.World, g: Geom)
    requires At(w, g, g, g, None) && Usable(Some(g))
    ensures At(T.Run(w, Alone(w, Checkpoint, Saves)), g, g, g, Some(g))
  {
    hide T.Orderly, T.Scripted, T.Run, Alone, T.Outcome, Landing, Exec, Answering, Promptless;
    TheyAre();
    AloneLands(w, Checkpoint, Saves);
    CheckpointSizes(w, Saves);
  }

  lemma ResizedAt(w: T.World, g: Geom, h: Geom)
    requires At(w, g, g, g, Some(g)) && Usable(Some(h)) && g != h
    ensures At(T.Do(w, T.Resized(h, true, false)), h, h, h, Some(g))
  {
    hide T.Orderly, T.Scripted;
    T.StepsInTurn(w, T.Resized(h, true, false));
    T.StepsItsWay(w, T.Resized(h, true, false));
  }

  lemma LoadedAt(w: T.World, g: Geom, h: Geom)
    requires At(w, h, h, h, Some(g))
    ensures At(T.Run(w, Alone(w, Rollback, Promptlessly)), h, h, g, Some(g))
  {
    hide T.Orderly, T.Scripted, T.Run, Alone, T.Outcome, Landing, Exec, Answering, Promptless;
    TheyAre();
    AloneLands(w, Rollback, Promptlessly);
    RollbackSizes(w, Promptlessly);
  }

  lemma TornAt(w: T.World, g: Geom, h: Geom)
    requires T.Orderly(w) && T.Scripted(w) && !w.busy && w.turn.None?
    requires w.grid == h && w.guest == g && Usable(Some(h))
    ensures var r := T.Run(w, Alone(w, Checkpoint, Torn));
            r.turn.None? && !r.busy && r.grid == h && r.sync.told == Some(h) && r.guest == g
  {
    hide T.Orderly, T.Scripted, T.Run, Alone, T.Outcome, Landing, Exec, Answering, Promptless;
    TheyAre();
    AloneLands(w, Checkpoint, Torn);
    CheckpointSizes(w, Torn);
  }

  /** A resize while the console does not look idle, then a checkpoint whose re-sync is
      thrown out of: the page believes in the new size, and the guest in the old. */
  lemma ResyncTorn(g: Geom, h: Geom)
    requires Usable(Some(h)) && g != h
    ensures var w := T.Do(Idle(g), T.Resized(h, false, false));
            var r := T.Run(w, Alone(w, Checkpoint, Torn));
            r.turn.None? && !r.busy && r.grid == h && r.sync.told == Some(h) && r.guest == g
  {
    IdleIsOrderly(g);
    var s := T.Resized(h, false, false);
    T.StepsInTurn(Idle(g), s);
    T.StepsItsWay(Idle(g), s);
    TornAt(T.Do(Idle(g), s), g, h);
  }

  /** A checkpoint at one size, a resize told and sent, and a rollback that finds no prompt. */
  function LeftBehind(g: Geom, h: Geom): seq<T.Step> {
    var first := Alone(Idle(g), Checkpoint, Saves) + [T.Resized(h, true, false)];
    first + Alone(T.Run(Idle(g), first), Rollback, Promptlessly)
  }

  lemma LeftBehindAt(g: Geom, h: Geom)
    requires Usable(Some(g)) && Usable(Some(h)) && g != h
    ensures At(T.Run(Idle(g), LeftBehind(g, h)), h, h, g, Some(g))
  {
    hide At, Alone;
    var w, s := Idle(g), T.Resized(h, true, false);
    IdleAt(g);
    SavedAt(w, g);
    var saving := Alone(w, Checkpoint, Saves);
    var saved := T.Run(w, saving);
    ResizedAt(saved, g, h);
    RunMore(w, saving, [s]);
    OneStep(saved, s);
    var sized := T.Run(w, saving + [s]);
    LoadedAt(sized, g, h);
    RunMore(w, saving + [s], Alone(sized, Rollback, Promptlessly));
  }

  lemma IdleAt(g: Geom)
    ensures At(Idle(g), g, g, g, None)
  {
    IdleIsOrderly(g);
  }

  lemma OneStep(w: T.World, s: T.Step)
    ensures T.Run(w, [s]) == T.Do(w, s)
  {
    assert [s][1..] == [];
  }

  /** Nothing throws and nothing in the monitor goes unanswered, and the guest has the old
      size for good: told the new one, the page has nothing more to tell. */
  lemma GuestLeftBehind(g: Geom, h: Geom, tries: seq<T.Step>)
    requires Usable(Some(g)) && Usable(Some(h)) && g != h
    requires forall s :: s in tries ==> s.TimerFires? || (s.Resized? && s.g == h)
    ensures var r := T.Run(Idle(g), LeftBehind(g, h));
            && r.turn.None? && !r.busy && r.grid == h && r.sync == Sync(Some(h), false) && r.guest == g
            && T.Run(r, tries).guest == g && LeftParted(Idle(g), LeftBehind(g, h))
  {
    hide LeftBehind, LeftParted, T.Orderly, T.Scripted;
    LeftBehindAt(g, h);
    IdleIsOrderly(g);
    BeliefIsRight(Idle(g), LeftBehind(g, h));
    WrongForGood(T.Run(Idle(g), LeftBehind(g, h)), tries);
  }
}
