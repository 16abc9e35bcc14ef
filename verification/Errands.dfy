/** The four scripts that take the console - save, load, checkpoint, rollback - and what a
    save or a load leaves it in. */
module Errands {
  import opened Scripts

  // ---- the pieces -------------------------------------------------------------

  function Plus(a: Block, b: Block): (c: Block)
    ensures Keeps(a) && Keeps(b) ==> Keeps(c)
    decreases a
  {
    match a
    case End => b
    case Then(s, rest) => Then(s, Plus(rest, b))
  }

  function One(s: Stmt): (b: Block)
    ensures KeepsOne(s) ==> Keeps(b)
  {
    Then(s, End)
  }

  function Maybe(part: Block): (b: Block)
    ensures Keeps(part) ==> Keeps(b)
  {
    assert Keeps(part) ==> KeepsOne(Choose(part, End));
    One(Choose(part, End))
  }

  /** Type a line and wait for what it should bring. */
  function Ask(line: Line): (b: Block)
    ensures Keeps(b)
  {
    assert KeepsOne(Await);
    Then(Paste(line), One(Await))
  }

  function GivesUp(): (b: Block)
    ensures Keeps(b)
  {
    Then(Call, One(Return))
  }

  /** Go on only if a check passes. */
  function Only(rest: Block, giveUp: Block): (b: Block)
    ensures Keeps(rest) && Keeps(giveUp) ==> Keeps(b)
  {
    assert Keeps(rest) && Keeps(giveUp) ==> KeepsOne(Choose(rest, giveUp));
    One(Choose(rest, giveUp))
  }

  /** `ensureShell` and the test of its answer. */
  function AtPrompt(rest: Block, giveUp: Block): (b: Block)
    ensures Keeps(rest) && Keeps(giveUp) ==> Keeps(b)
  {
    Then(Call, Plus(Ask(AskPrompt), Only(rest, giveUp)))
  }

  /** A body whose finally lets go, whatever comes before the letting go. */
  function Guarded(body: Block, last: Block): (b: Block)
    ensures Keeps(body) && Keeps(last) ==> LetsGo(b)
  {
    var fin := One(Try(last, One(Release)));
    assert Keeps(last) ==> LetsGo(fin);
    One(Try(body, fin))
  }

  // ---- save and load ------------------------------------------------------------

  function Recover(): (b: Block)
    ensures Keeps(b)
  {
    var echo := Then(Paste(EchoOn), Plus(Ask(ClearScreen), One(Await)));
    assert KeepsOne(Await) && Keeps(echo);
    Then(IfUnclean(Plus(Ask(Interrupt), Ask(Interrupt))), echo)
  }

  /** The console is put back as it was found only if it was ever taken. */
  function Errand(rest: Block, giveUp: Block): (b: Block)
    ensures Keeps(rest) && Keeps(giveUp) ==> LetsGo(b)
  {
    assert KeepsOne(IfEngaged(Recover())) && (Keeps(rest) ==> Keeps(Then(Engage, rest)));
    Guarded(AtPrompt(Then(Engage, rest), giveUp), One(IfEngaged(Recover())))
  }

  function Done(): (b: Block)
    ensures Keeps(b)
  {
    assert KeepsOne(Return);
    Then(Clean, One(Return))
  }

  /** The command taken, the frame arrived, no error in it, decoded, and its sum right. */
  function Saving(): (b: Block)
    ensures Keeps(b)
  {
    var checked := Only(Only(Only(Only(Done(), GivesUp()), GivesUp()), GivesUp()), GivesUp());
    Then(Call, Plus(Ask(Command), Only(Then(Call, Then(Await, checked)), GivesUp())))
  }

  /** `n` blocks, each announced and acknowledged. */
  function Blocks(n: nat, rest: Block): (b: Block)
    ensures Keeps(rest) ==> Keeps(b)
  {
    if n == 0 then rest
    else
      assert KeepsOne(Return);
      var more := Then(Call, Blocks(n - 1, rest));
      assert Keeps(rest) ==> Keeps(more);
      Plus(Ask(Command), Only(Plus(Ask(Payload), Only(more, One(Return))), One(Return)))
  }

  /** The sum asked for; damaged, the guest is at a prompt and nothing was unpacked. */
  function Unpacking(): (b: Block)
    ensures Keeps(b)
  {
    var verdict := Only(Only(Done(), One(Return)), One(Return));
    var unpack := Then(Call, Plus(Ask(Command), verdict));
    Then(Call, Plus(Ask(Command), Only(Only(unpack, Done()), One(Return))))
  }

  function Loading(n: nat): (b: Block)
    ensures Keeps(b)
  {
    Then(Call, Plus(Ask(Command), Only(Blocks(n, Unpacking()), One(Return))))
  }

  // ---- checkpoint and rollback ------------------------------------------------------

  /** Brackets off if they are on, the four keys, and the prompt on the way in. */
  function SwitchMux(): (b: Block)
    ensures Keeps(b)
  {
    var pair := Then(Paste(MuxKey), One(Paste(MuxKey)));
    Plus(Maybe(One(Await)), Plus(pair, Plus(pair, Maybe(One(Await)))))
  }

  /** Back from the monitor if the page is in it, with a cont first if one is due. */
  function Leave(): (b: Block)
    ensures Keeps(b)
  {
    Maybe(Plus(Maybe(Ask(Command)), SwitchMux()))
  }

  function Resync(): (b: Block)
    ensures Keeps(b)
  {
    Then(Paste(SizeLine), Then(Await, One(Await)))
  }

  function Monitor(): (b: Block)
    ensures Keeps(b)
  {
    var save := Plus(Ask(SaveVm), Maybe(Plus(Ask(Command), Maybe(One(Call)))));
    Then(Call, Plus(SwitchMux(), Plus(Maybe(Ask(Command)), Plus(Maybe(Ask(Command)), Plus(Maybe(save), Leave())))))
  }

  function Checkpointing(): (b: Block)
    ensures Keeps(b)
  {
    AtPrompt(Plus(Monitor(), Plus(Maybe(Resync()), GivesUp())), GivesUp())
  }

  function GoingBack(): (b: Block)
    ensures Keeps(b)
  {
    var loadvm := Plus(Ask(LoadVm), Maybe(One(Call)));
    var load := Plus(SwitchMux(), Plus(Maybe(Ask(Command)), Plus(Maybe(loadvm), Leave())));
    var back := Plus(Maybe(One(Await)), Plus(Ask(AskPrompt), Plus(Maybe(Resync()), GivesUp())));
    Then(Call, Plus(load, Only(back, GivesUp())))
  }

  function LastLeave(): (b: Block)
    ensures Keeps(b)
  {
    Plus(Leave(), One(Call))
  }

  // ---- the four --------------------------------------------------------------------

  /** A load of so many blocks. */
  datatype Kind = Save | Load(blocks: nat) | Checkpoint | Rollback

  function Script(kind: Kind): (b: Block)
    ensures LetsGo(b)
  {
    match kind
    case Save => Errand(Saving(), GivesUp())
    case Load(n) => Errand(Loading(n), One(Return))
    case Checkpoint => Guarded(Checkpointing(), LastLeave())
    case Rollback => Guarded(GoingBack(), LastLeave())
  }

  // ---- what a save or a load leaves ---------------------------------------------------

  /** There was a prompt, and so the console was taken. */
  predicate Prompted(o: Oracle) { !o(0).throws && !o(1).throws && o(2).yes }

  /** The lines that put the console back: the reader the transfer may have left is
      interrupted first, unless the transfer ended clean. */
  function PutBack(clean: bool): seq<Line> {
    (if clean then [] else [Interrupt, Interrupt]) + [EchoOn, ClearScreen]
  }

  /** Those lines tried in order, up to the end or to the first that threw. */
  predicate TriedAll(typed: seq<Touch>, lines: seq<Line>)
    decreases |lines|
  {
    if lines == [] then typed == []
    else typed != [] && typed[0].line == lines[0]
         && if typed[0].luck.throws then |typed| == 1 else TriedAll(typed[1..], lines[1..])
  }

  lemma {:induction false} ExecPlus(a: Block, b: Block, l: Local, o: Oracle)
    ensures var r := Exec(a, l, o);
            Exec(Plus(a, b), l, o) == if r.how.Normal? then Exec(b, r.l, o) else r
    decreases a
  {
    match a
    case End =>
    case Then(s, rest) =>
      var r := Does(s, l, o);
      if r.how.Normal? {
        ExecPlus(rest, b, r.l, o);
      }
  }

  lemma AskRuns(line: Line, l: Local, o: Oracle)
    ensures var m := Tick(l).(typed := l.typed + [Touch(line, o(l.clock))]);
            Exec(Ask(line), l, o) == Res(m, if o(l.clock).throws then Thrown else Normal)
  {
    var r := Simple(Paste(line), l, o);
    assert Does(Paste(line), l, o) == r;
    assert Exec(One(Await), r.l, o) == Res(r.l, Normal);
  }

  /** From `l` to `e` these lines were tried, and nothing else was done. */
  ghost predicate Tries(l: Local, e: Res, lines: seq<Line>) {
    && e.l == l.(typed := e.l.typed, clock := e.l.clock) && l.typed <= e.l.typed
    && TriedAll(e.l.typed[|l.typed|..], lines)
    && (e.how.Normal? <==> AllThrough(e.l.typed[|l.typed|..]))
  }

  predicate AllThrough(typed: seq<Touch>) { forall i :: 0 <= i < |typed| ==> !typed[i].luck.throws }

  lemma {:induction false} TriedThen(t: seq<Touch>, u: seq<Touch>, a: seq<Line>, b: seq<Line>)
    requires TriedAll(t, a)
    ensures AllThrough(t) && TriedAll(u, b) ==> TriedAll(t + u, a + b)
    ensures !AllThrough(t) ==> TriedAll(t, a + b)
    decreases |a|
  {
    if a == [] {
      assert t + u == u && a + b == b;
    } else {
      assert (a + b)[1..] == a[1..] + b && (t + u)[1..] == t[1..] + u;
      if !t[0].luck.throws {
        TriedThen(t[1..], u, a[1..], b);
        assert t == [t[0]] + t[1..];
      }
    }
  }

  lemma TriesThen(l: Local, e: Res, f: Res, a: seq<Line>, b: seq<Line>)
    requires Tries(l, e, a) && (e.how.Normal? ==> Tries(e.l, f, b))
    ensures Tries(l, if e.how.Normal? then f else e, a + b)
  {
    var t := e.l.typed[|l.typed|..];
    var u := if e.how.Normal? then f.l.typed[|e.l.typed|..] else [];
    TriedThen(t, u, a, b);
    if e.how.Normal? {
      assert f.l.typed[|l.typed|..] == t + u;
    }
  }

  lemma AskTries(line: Line, l: Local, o: Oracle)
    ensures Tries(l, Exec(Ask(line), l, o), [line])
  {
    AskRuns(line, l, o);
    var e := Exec(Ask(line), l, o);
    assert e.l.typed[|l.typed|..] == [Touch(line, o(l.clock))];
  }

  lemma InterruptTries(l: Local, o: Oracle)
    ensures Tries(l, Does(IfUnclean(Plus(Ask(Interrupt), Ask(Interrupt))), l, o),
                  if l.clean then [] else [Interrupt, Interrupt])
  {
    if !l.clean {
      var e := Exec(Ask(Interrupt), l, o);
      AskTries(Interrupt, l, o);
      AskTries(Interrupt, e.l, o);
      ExecPlus(Ask(Interrupt), Ask(Interrupt), l, o);
      TriesThen(l, e, Exec(Ask(Interrupt), e.l, o), [Interrupt], [Interrupt]);
    }
  }

  lemma EchoTries(l: Local, o: Oracle)
    ensures Tries(l, Exec(Then(Paste(EchoOn), Plus(Ask(ClearScreen), One(Await))), l, o), [EchoOn, ClearScreen])
  {
    var e := Simple(Paste(EchoOn), l, o);
    assert e.l.typed[|l.typed|..] == [Touch(EchoOn, o(l.clock))];
    var f := Exec(Ask(ClearScreen), e.l, o);
    AskTries(ClearScreen, e.l, o);
    ExecPlus(Ask(ClearScreen), One(Await), e.l, o);
    assert Exec(One(Await), f.l, o) == Res(f.l, Normal);
    TriesThen(l, e, f, [EchoOn], [ClearScreen]);
  }

  lemma RecoverTries(l: Local, o: Oracle)
    ensures Tries(l, Exec(Recover(), l, o), PutBack(l.clean))
  {
    var e := Does(IfUnclean(Plus(Ask(Interrupt), Ask(Interrupt))), l, o);
    InterruptTries(l, o);
    EchoTries(e.l, o);
    var f := Exec(Then(Paste(EchoOn), Plus(Ask(ClearScreen), One(Await))), e.l, o);
    TriesThen(l, e, f, if l.clean then [] else [Interrupt, Interrupt], [EchoOn, ClearScreen]);
  }

  /** The finally of a guarded body: its last words, then the letting go, always. */
  lemma GuardedEnds(body: Block, last: Block, l: Local, o: Oracle)
    ensures var q := Exec(last, Exec(body, l, o).l, o).l;
            Exec(Guarded(body, last), l, o).l == q.(releases := q.releases + 1)
  {
    hide Exec;
    var r := Exec(body, l, o);
    TryRuns(body, One(Try(last, One(Release))), l, o);
    TryRuns(last, One(Release), r.l, o);
    ReleaseRuns(Exec(last, r.l, o).l, o);
  }

  lemma ReleaseRuns(l: Local, o: Oracle)
    ensures Exec(One(Release), l, o).l == l.(releases := l.releases + 1)
  {
    var r := Simple(Release, l, o);
    assert Does(Release, l, o) == r;
  }

  lemma TryRuns(body: Block, fin: Block, l: Local, o: Oracle)
    ensures Exec(One(Try(body, fin)), l, o).l == Exec(fin, Exec(body, l, o).l, o).l
  {
    var r := Exec(body, l, o);
    var f := Exec(fin, r.l, o);
    assert Does(Try(body, fin), l, o) == AndThen(r, f);
  }

  /** Up to the prompt, and no further unless there is one. */
  lemma AtPromptRuns(rest: Block, giveUp: Block, o: Oracle)
    ensures var e := Exec(AtPrompt(rest, giveUp), FRESH, o);
            var l := Local(false, false, [Touch(AskPrompt, o(1))], 0, 3);
            e == if o(0).throws then Res(Tick(FRESH), Thrown)
                 else if o(1).throws then Res(Local(false, false, [Touch(AskPrompt, o(1))], 0, 2), Thrown)
                 else Exec(if o(2).yes then rest else giveUp, l, o)
  {
    var l := Tick(FRESH);
    AskRuns(AskPrompt, l, o);
    var a := Exec(Ask(AskPrompt), l, o);
    ExecPlus(Ask(AskPrompt), Only(rest, giveUp), l, o);
    assert l.typed + [Touch(AskPrompt, o(1))] == [Touch(AskPrompt, o(1))];
    OnlyRuns(rest, giveUp, a.l, o);
  }

  lemma OnlyRuns(rest: Block, giveUp: Block, l: Local, o: Oracle)
    ensures Exec(Only(rest, giveUp), l, o) == Exec(if o(l.clock).yes then rest else giveUp, Tick(l), o)
  {
    var r := Exec(if o(l.clock).yes then rest else giveUp, Tick(l), o);
    assert Does(Choose(rest, giveUp), l, o) == r;
  }

  lemma GiveUpRuns(giveUp: Block, l: Local, o: Oracle)
    requires giveUp in {GivesUp(), One(Return)}
    ensures var e := Exec(giveUp, l, o); e.l == l.(clock := e.l.clock)
  {
    assert Exec(One(Return), Tick(l), o) == Res(Tick(l), Returned);
  }

  /** What the body of a save or a load had typed, engaged and finished when it ended. */
  function Body(rest: Block, giveUp: Block, o: Oracle): Local {
    Exec(AtPrompt(Then(Engage, rest), giveUp), FRESH, o).l
  }

  lemma EngageRuns(rest: Block, l: Local, o: Oracle)
    ensures Exec(Then(Engage, rest), l, o) == Exec(rest, l.(engaged := true), o)
  {
    assert Does(Engage, l, o) == Res(l.(engaged := true), Normal);
  }

  lemma BodyRuns(rest: Block, giveUp: Block, o: Oracle)
    requires Keeps(rest) && giveUp in {GivesUp(), One(Return)}
    ensures var b := Body(rest, giveUp, o);
            && b.engaged == Prompted(o) && b.releases == 0
            && (if Prompted(o) then [Touch(AskPrompt, o(1))] <= b.typed
                else b.typed == if o(0).throws then [] else [Touch(AskPrompt, o(1))])
  {
    hide Exec, AtPrompt;
    AtPromptRuns(Then(Engage, rest), giveUp, o);
    var l := Local(false, false, [Touch(AskPrompt, o(1))], 0, 3);
    if Prompted(o) {
      KeepsGrows(rest, l.(engaged := true), o);
      EngageRuns(rest, l, o);
    } else {
      GiveUpRuns(giveUp, l, o);
    }
  }

  ghost predicate PutsBack(rest: Block, giveUp: Block, l: Local, o: Oracle) {
    var b := Body(rest, giveUp, o);
    && l.releases == 1
    && (if Prompted(o) then b.typed <= l.typed && TriedAll(l.typed[|b.typed|..], PutBack(b.clean))
        else l.typed == if o(0).throws then [] else [Touch(AskPrompt, o(1))])
  }

  /** Whatever throws, is refused or goes unanswered in a save or a load, even in putting
      the console back: it is let go of exactly once. With no prompt to begin with, nothing
      was typed but the line that asked for one; with one, the very last lines tried are
      those that put the console back. */
  lemma LeavesTheConsole(rest: Block, giveUp: Block, o: Oracle)
    requires Keeps(rest) && giveUp in {GivesUp(), One(Return)}
    ensures PutsBack(rest, giveUp, Exec(Errand(rest, giveUp), FRESH, o).l, o)
  {
    hide Recover, AtPrompt, Guarded, Exec;
    var b := Body(rest, giveUp, o);
    BodyRuns(rest, giveUp, o);
    GuardedEnds(AtPrompt(Then(Engage, rest), giveUp), One(IfEngaged(Recover())), FRESH, o);
    RecoverTries(b, o);
    IfEngagedRuns(Recover(), b, o);
  }

  lemma IfEngagedRuns(part: Block, l: Local, o: Oracle)
    ensures Exec(One(IfEngaged(part)), l, o).l == if l.engaged then Exec(part, l, o).l else l
  {
    var r := Exec(part, l, o);
    assert l.engaged ==> Does(IfEngaged(part), l, o) == r;
  }

  /** So for the two of them, however many blocks. */
  lemma SaveLeavesTheConsole(o: Oracle)
    ensures PutsBack(Saving(), GivesUp(), Exec(Script(Save), FRESH, o).l, o)
  {
    LeavesTheConsole(Saving(), GivesUp(), o);
  }

  lemma LoadLeavesTheConsole(n: nat, o: Oracle)
    ensures PutsBack(Loading(n), One(Return), Exec(Script(Load(n)), FRESH, o).l, o)
  {
    LeavesTheConsole(Loading(n), One(Return), o);
  }

  // ---- in what order -------------------------------------------------------------------

  /** The lines tried are the first of those, in order, each one but the last gone through. */
  ghost predicate InOrder(typed: seq<Touch>, lines: seq<Line>) {
    && |typed| <= |lines| && (forall i | 0 <= i < |typed| :: typed[i].line == lines[i])
    && forall i | 0 <= i < |typed| - 1 :: !typed[i].luck.throws
  }

  /** From `l` to `e` lines were tried in that order, all of them if it ends normally; and it
      ends clean only with the first `m` of them gone through. */
  ghost predicate Types(l: Local, e: Res, lines: seq<Line>, m: nat) {
    && l.typed <= e.l.typed
    && var t := e.l.typed[|l.typed|..];
       && InOrder(t, lines) && (e.how.Normal? ==> |t| == |lines| && AllThrough(t))
       && (e.l.clean ==> l.clean || (|t| >= m && AllThrough(t)))
  }

  lemma CallTypes(s: Stmt, rest: Block, l: Local, o: Oracle, lines: seq<Line>, m: nat)
    requires s == Call || s == Await
    requires var r := Simple(s, l, o); Types(r.l, Exec(rest, r.l, o), lines, m)
    ensures Types(l, Exec(Then(s, rest), l, o), lines, m)
  {
    var r := Simple(s, l, o);
    assert Does(s, l, o) == r;
    assert r.l.typed == l.typed && l.typed[|l.typed|..] == [];
  }

  lemma AskTypes(line: Line, rest: Block, l: Local, o: Oracle, lines: seq<Line>, m: nat)
    requires var a := Exec(Ask(line), l, o); a.how.Normal? ==> Types(a.l, Exec(rest, a.l, o), lines, m)
    ensures Types(l, Exec(Plus(Ask(line), rest), l, o), [line] + lines, m + 1)
  {
    hide Exec;
    AskRuns(line, l, o);
    ExecPlus(Ask(line), rest, l, o);
    var a := Exec(Ask(line), l, o);
    var e := Exec(Plus(Ask(line), rest), l, o);
    assert a.l.typed[|l.typed|..] == [Touch(line, o(l.clock))];
    if a.how.Normal? {
      assert e.l.typed[|l.typed|..] == [Touch(line, o(l.clock))] + e.l.typed[|a.l.typed|..];
    }
  }

  lemma OnlyTypes(yes: Block, no: Block, l: Local, o: Oracle, lines: seq<Line>, m: nat)
    requires Types(Tick(l), Exec(yes, Tick(l), o), lines, m) && Types(Tick(l), Exec(no, Tick(l), o), lines, m)
    ensures Types(l, Exec(Only(yes, no), l, o), lines, m)
  {
    hide Exec;
    OnlyRuns(yes, no, l, o);
  }

  lemma StopTypes(l: Local, o: Oracle, lines: seq<Line>, m: nat)
    ensures Types(l, Exec(GivesUp(), l, o), lines, m) && Types(l, Exec(One(Return), l, o), lines, m)
  {
    assert l.typed[|l.typed|..] == [];
    assert Exec(One(Return), l, o) == Res(l, Returned);
    assert Exec(One(Return), Tick(l), o) == Res(Tick(l), Returned);
    assert Does(Call, l, o) == Simple(Call, l, o);
  }

  lemma DoneTypes(l: Local, o: Oracle, lines: seq<Line>)
    ensures Types(l, Exec(Done(), l, o), lines, 0)
  {
    assert l.typed[|l.typed|..] == [];
    assert Does(Clean, l, o) == Res(l.(clean := true), Normal);
    assert Exec(One(Return), l.(clean := true), o) == Res(l.(clean := true), Returned);
  }

  lemma SavingTypes(l: Local, o: Oracle)
    ensures Types(l, Exec(Saving(), l, o), [Command], 1)
  {
    hide Exec, Types;
    var checked := Only(Only(Only(Only(Done(), GivesUp()), GivesUp()), GivesUp()), GivesUp());
    var go := Only(Then(Call, Then(Await, checked)), GivesUp());
    var q := Simple(Call, l, o).l;
    var a := Exec(Ask(Command), q, o).l;
    var c := Simple(Await, Simple(Call, Tick(a), o).l, o).l;
    CheckedTypes(c, o);
    CallTypes(Await, checked, Simple(Call, Tick(a), o).l, o, [], 0);
    CallTypes(Call, Then(Await, checked), Tick(a), o, [], 0);
    StopTypes(Tick(a), o, [], 0);
    OnlyTypes(Then(Call, Then(Await, checked)), GivesUp(), a, o, [], 0);
    AskTypes(Command, go, q, o, [], 0);
    assert [Command] + [] == [Command];
    CallTypes(Call, Plus(Ask(Command), go), l, o, [Command], 1);
  }

  lemma CheckedTypes(l: Local, o: Oracle)
    ensures Types(l, Exec(Only(Only(Only(Only(Done(), GivesUp()), GivesUp()), GivesUp()), GivesUp()), l, o), [], 0)
  {
    hide Exec, Types;
    var l1, l2, l3, l4 := Tick(l), Tick(Tick(l)), Tick(Tick(Tick(l))), Tick(Tick(Tick(Tick(l))));
    DoneTypes(l4, o, []);
    StopTypes(l4, o, [], 0);
    StopTypes(l3, o, [], 0);
    StopTypes(l2, o, [], 0);
    StopTypes(l1, o, [], 0);
    OnlyTypes(Done(), GivesUp(), l3, o, [], 0);
    OnlyTypes(Only(Done(), GivesUp()), GivesUp(), l2, o, [], 0);
    OnlyTypes(Only(Only(Done(), GivesUp()), GivesUp()), GivesUp(), l1, o, [], 0);
    OnlyTypes(Only(Only(Only(Done(), GivesUp()), GivesUp()), GivesUp()), GivesUp(), l, o, [], 0);
  }

  /** Each block is announced, and then sent; then the sum is asked for, and it is unpacked. */
  function LoadLines(n: nat): seq<Line> {
    if n == 0 then [Command, Command] else [Command] + ([Payload] + LoadLines(n - 1))
  }

  lemma UnpackingTypes(l: Local, o: Oracle)
    ensures Types(l, Exec(Unpacking(), l, o), [Command, Command], 1)
  {
    hide Exec, Types;
    var verdict := Only(Only(Done(), One(Return)), One(Return));
    var unpack := Then(Call, Plus(Ask(Command), verdict));
    var last := Only(Only(unpack, Done()), One(Return));
    var q := Simple(Call, l, o).l;
    var a := Exec(Ask(Command), q, o).l;
    UnpackTypes(Tick(Tick(a)), o);
    DoneTypes(Tick(Tick(a)), o, [Command]);
    OnlyTypes(unpack, Done(), Tick(a), o, [Command], 0);
    StopTypes(Tick(a), o, [Command], 0);
    OnlyTypes(Only(unpack, Done()), One(Return), a, o, [Command], 0);
    AskTypes(Command, last, q, o, [Command], 0);
    assert [Command] + [Command] == [Command, Command];
    CallTypes(Call, Plus(Ask(Command), last), l, o, [Command, Command], 1);
  }

  lemma UnpackTypes(l: Local, o: Oracle)
    ensures var verdict := Only(Only(Done(), One(Return)), One(Return));
            Types(l, Exec(Then(Call, Plus(Ask(Command), verdict)), l, o), [Command], 0)
  {
    hide Exec, Types;
    var verdict := Only(Only(Done(), One(Return)), One(Return));
    var q := Simple(Call, l, o).l;
    var a := Exec(Ask(Command), q, o).l;
    DoneTypes(Tick(Tick(a)), o, []);
    StopTypes(Tick(Tick(a)), o, [], 0);
    OnlyTypes(Done(), One(Return), Tick(a), o, [], 0);
    StopTypes(Tick(a), o, [], 0);
    OnlyTypes(Only(Done(), One(Return)), One(Return), a, o, [], 0);
    AskTypes(Command, verdict, q, o, [], 0);
    assert [Command] + [] == [Command];
    CallTypes(Call, Plus(Ask(Command), verdict), l, o, [Command], 1);
    LessTypes(l, Exec(Then(Call, Plus(Ask(Command), verdict)), l, o), [Command], 1);
  }

  lemma LessTypes(l: Local, e: Res, lines: seq<Line>, m: nat)
    requires Types(l, e, lines, m)
    ensures Types(l, e, lines, 0)
  {}

  lemma OneBlock(more: Block, l: Local, o: Oracle, lines: seq<Line>, m: nat)
    requires forall q :: Types(q, Exec(more, q, o), lines, m)
    ensures var sent := Only(Then(Call, more), One(Return));
            Types(l, Exec(Plus(Ask(Command), Only(Plus(Ask(Payload), sent), One(Return))), l, o),
                  [Command] + ([Payload] + lines), m + 2)
  {
    hide Exec, Types, Plus, Ask, Only, One;
    var sent := Only(Then(Call, more), One(Return));
    var announced := Only(Plus(Ask(Payload), sent), One(Return));
    var a := Exec(Ask(Command), l, o).l;
    var p := Exec(Ask(Payload), Tick(a), o).l;
    CallTypes(Call, more, Tick(p), o, lines, m);
    StopTypes(Tick(p), o, lines, m);
    OnlyTypes(Then(Call, more), One(Return), p, o, lines, m);
    AskTypes(Payload, sent, Tick(a), o, lines, m);
    StopTypes(Tick(a), o, [Payload] + lines, m + 1);
    OnlyTypes(Plus(Ask(Payload), sent), One(Return), a, o, [Payload] + lines, m + 1);
    AskTypes(Command, announced, l, o, [Payload] + lines, m + 1);
  }

  lemma {:induction false} BlocksType(n: nat, l: Local, o: Oracle)
    ensures Types(l, Exec(Blocks(n, Unpacking()), l, o), LoadLines(n), 2 * n + 1)
    decreases n
  {
    hide Exec, Types, Plus, Ask, Only, One, Unpacking;
    if n == 0 {
      UnpackingTypes(l, o);
    } else {
      var more := Blocks(n - 1, Unpacking());
      forall q ensures Types(q, Exec(more, q, o), LoadLines(n - 1), 2 * (n - 1) + 1) {
        BlocksType(n - 1, q, o);
      }
      OneBlock(more, l, o, LoadLines(n - 1), 2 * (n - 1) + 1);
    }
  }

  lemma LoadingTypes(n: nat, l: Local, o: Oracle)
    ensures Types(l, Exec(Loading(n), l, o), [Command] + LoadLines(n), 2 * n + 2)
  {
    hide Exec, Types;
    var go := Only(Blocks(n, Unpacking()), One(Return));
    var q := Simple(Call, l, o).l;
    var a := Exec(Ask(Command), q, o).l;
    BlocksType(n, Tick(a), o);
    StopTypes(Tick(a), o, LoadLines(n), 2 * n + 1);
    OnlyTypes(Blocks(n, Unpacking()), One(Return), a, o, LoadLines(n), 2 * n + 1);
    AskTypes(Command, go, q, o, LoadLines(n), 2 * n + 1);
    CallTypes(Call, Plus(Ask(Command), go), l, o, [Command] + LoadLines(n), 2 * n + 2);
  }

  lemma BodyTypes(rest: Block, giveUp: Block, o: Oracle, lines: seq<Line>, m: nat)
    requires giveUp in {GivesUp(), One(Return)}
    requires forall l :: Types(l, Exec(rest, l, o), lines, m)
    ensures var b := Body(rest, giveUp, o);
            InOrder(b.typed, [AskPrompt] + lines) && (b.clean ==> |b.typed| >= m + 1 && AllThrough(b.typed))
  {
    hide Exec, AtPrompt, Types, InOrder;
    AtPromptRuns(Then(Engage, rest), giveUp, o);
    var l := Local(false, false, [Touch(AskPrompt, o(1))], 0, 3);
    EngageRuns(rest, l, o);
    StopTypes(l, o, lines, m);
    var b := Body(rest, giveUp, o);
    if o(0).throws || o(1).throws {
      OnlyAsked(b, o, lines);
    } else {
      var e := if o(2).yes then Exec(rest, l.(engaged := true), o) else Exec(giveUp, l, o);
      var from := if o(2).yes then l.(engaged := true) else l;
      AfterPrompt(from, e, o, lines, m);
    }
  }

  lemma OnlyAsked(b: Local, o: Oracle, lines: seq<Line>)
    requires b.typed == (if o(0).throws then [] else [Touch(AskPrompt, o(1))]) && !b.clean
    ensures InOrder(b.typed, [AskPrompt] + lines)
  {}

  lemma AfterPrompt(l: Local, e: Res, o: Oracle, lines: seq<Line>, m: nat)
    requires l.typed == [Touch(AskPrompt, o(1))] && !l.clean && !o(1).throws && Types(l, e, lines, m)
    ensures InOrder(e.l.typed, [AskPrompt] + lines) && (e.l.clean ==> |e.l.typed| >= m + 1 && AllThrough(e.l.typed))
  {
    assert e.l.typed == [Touch(AskPrompt, o(1))] + e.l.typed[1..];
  }

  /** What a save types before it puts the console back: the line asking for a prompt and the
      command, in that order; and it ends clean only if both went through. */
  lemma SaveTypesInOrder(o: Oracle)
    ensures var b := Body(Saving(), GivesUp(), o);
            InOrder(b.typed, [AskPrompt, Command]) && (b.clean ==> |b.typed| == 2 && AllThrough(b.typed))
  {
    hide Exec, Saving;
    forall l ensures Types(l, Exec(Saving(), l, o), [Command], 1) {
      SavingTypes(l, o);
    }
    BodyTypes(Saving(), GivesUp(), o, [Command], 1);
    assert [AskPrompt] + [Command] == [AskPrompt, Command];
  }

  /** And a load of any number of blocks: no block before it is announced, none announced before
      the one before it is sent, none skipped - and it ends clean only if all of them and the
      question for the sum went through. */
  lemma LoadTypesInOrder(n: nat, o: Oracle)
    ensures var b := Body(Loading(n), One(Return), o);
            && InOrder(b.typed, [AskPrompt] + ([Command] + LoadLines(n)))
            && (b.clean ==> |b.typed| >= 2 * n + 3 && AllThrough(b.typed))
  {
    hide Exec, Loading, LoadLines;
    forall l ensures Types(l, Exec(Loading(n), l, o), [Command] + LoadLines(n), 2 * n + 2) {
      LoadingTypes(n, l, o);
    }
    BodyTypes(Loading(n), One(Return), o, [Command] + LoadLines(n), 2 * n + 2);
  }
}
