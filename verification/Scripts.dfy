/** The async functions that type at the console, as scripts: what they call and type, where
    they give up the turn, and what their finally blocks do - run to the end at once, and
    one statement at a time between awaits. */
module Scripts {

  /** What a script types. */
  datatype Line =
    | AskPrompt | Command | SaveVm | LoadVm | Payload | Interrupt | EchoOn | ClearScreen | MuxKey | SizeLine

  /** `Call` is anything else that may throw; `Await` gives up the turn; `Choose` goes by
      an answer or a check; `Release` lets go of the console. */
  datatype Stmt =
    | Call
    | Paste(line: Line)
    | Await
    | Choose(yes: Block, no: Block)
    | Return
    | Engage
    | Clean
    | IfEngaged(part: Block)
    | IfUnclean(part: Block)
    | Try(body: Block, fin: Block)
    | Release

  datatype Block = End | Then(first: Stmt, rest: Block)

  /** How a call or a paste turns out, and which way a choice goes; whether a line that
      was typed does what it is for, and whether a savevm that does not takes the old
      snapshot with it. */
  datatype Luck = Luck(throws: bool, yes: bool, takes: bool, loses: bool)

  type Oracle = nat -> Luck

  datatype Touch = Touch(line: Line, luck: Luck)

  /** A script's own variables, what it tried to type so far, and how often it let go. */
  datatype Local = Local(engaged: bool, clean: bool, typed: seq<Touch>, releases: nat, clock: nat)

  const FRESH := Local(false, false, [], 0, 0)

  datatype How = Normal | Thrown | Returned

  datatype Res = Res(l: Local, how: How)

  function Tick(l: Local): Local { l.(clock := l.clock + 1) }

  /** The effect of a statement that has no parts, and how it ends. */
  function Simple(s: Stmt, l: Local, o: Oracle): Res {
    var luck := o(l.clock);
    match s
    case Call => Res(Tick(l), if luck.throws then Thrown else Normal)
    case Paste(line) => Res(Tick(l).(typed := l.typed + [Touch(line, luck)]), if luck.throws then Thrown else Normal)
    case Return => Res(l, Returned)
    case Engage => Res(l.(engaged := true), Normal)
    case Clean => Res(l.(clean := true), Normal)
    case Release => Res(l.(releases := l.releases + 1), Normal)
    case _ => Res(l, Normal)
  }

  // ---- run to the end -------------------------------------------------------

  function Exec(b: Block, l: Local, o: Oracle): Res
    decreases b
  {
    match b
    case End => Res(l, Normal)
    case Then(s, rest) =>
      var r := Does(s, l, o);
      if r.how.Normal? then Exec(rest, r.l, o) else r
  }

  function Does(s: Stmt, l: Local, o: Oracle): Res
    decreases s
  {
    match s
    case Choose(yes, no) => Exec(if o(l.clock).yes then yes else no, Tick(l), o)
    case IfEngaged(b) => if l.engaged then Exec(b, l, o) else Res(l, Normal)
    case IfUnclean(b) => if l.clean then Res(l, Normal) else Exec(b, l, o)
    case Try(body, fin) =>
      var r := Exec(body, l, o);
      AndThen(r, Exec(fin, r.l, o))
    case _ => Simple(s, l, o)
  }

  /** A finally block that does not end normally has the last word. */
  function AndThen(r: Res, f: Res): Res { if f.how.Normal? then Res(f.l, r.how) else f }

  // ---- one statement at a time ----------------------------------------------

  /** A way to leave other than by reaching the end. */
  type Abrupt = h: How | h != Normal witness Thrown

  /** What is left of a script: blocks to run, and finally blocks to come - `Reraise` goes
      on with a return or a throw once the finally block before it is done. */
  datatype Kont =
    | Stop
    | Run(block: Block, next: Kont)
    | Finally(fin: Block, next: Kont)
    | Reraise(how: Abrupt, next: Kont)

  /** A return or a throw goes to the nearest finally block. */
  function Unwind(k: Kont, how: Abrupt): Kont {
    match k
    case Stop => Stop
    case Run(_, next) => Unwind(next, how)
    case Finally(fin, next) => Run(fin, Reraise(how, next))
    case Reraise(_, next) => Unwind(next, how)
  }

  datatype Task = Task(k: Kont, l: Local)

  function Next(t: Task, o: Oracle): Task {
    match t.k
    case Stop => t
    case Run(End, next) => Task(next, t.l)
    case Run(Then(s, rest), next) => After(s, t.l, Run(rest, next), o)
    case Finally(fin, next) => Task(Run(fin, next), t.l)
    case Reraise(how, next) => Task(Unwind(next, how), t.l)
  }

  function After(s: Stmt, l: Local, k: Kont, o: Oracle): Task {
    match s
    case Choose(yes, no) => Task(Run(if o(l.clock).yes then yes else no, k), Tick(l))
    case IfEngaged(b) => Task(if l.engaged then Run(b, k) else k, l)
    case IfUnclean(b) => Task(if l.clean then k else Run(b, k), l)
    case Try(body, fin) => Task(Run(body, Finally(fin, k)), l)
    case _ => Carry(Simple(s, l, o), k)
  }

  function Carry(r: Res, k: Kont): Task { Task(if r.how == Normal then k else Unwind(k, r.how), r.l) }

  // ---- the two agree ----------------------------------------------------------

  /** Where what is left leads. */
  function Rest(k: Kont, l: Local, o: Oracle): Local
    decreases k, 1
  {
    match k
    case Stop => l
    case Run(b, next) => Onward(Exec(b, l, o), next, o)
    case Finally(fin, next) => Onward(Exec(fin, l, o), next, o)
    case Reraise(how, next) => Onward(Res(l, how), next, o)
  }

  function Onward(r: Res, k: Kont, o: Oracle): Local
    decreases k, 2
  {
    if r.how.Normal? then Rest(k, r.l, o)
    else match k
      case Stop => r.l
      case Run(_, next) => Onward(r, next, o)
      case Finally(fin, next) => Onward(AndThen(r, Exec(fin, r.l, o)), next, o)
      case Reraise(_, next) => Onward(r, next, o)
  }

  lemma {:induction false} UnwindLeads(k: Kont, how: Abrupt, l: Local, o: Oracle)
    ensures Rest(Unwind(k, how), l, o) == Onward(Res(l, how), k, o)
    decreases k
  {
    match k
    case Stop =>
    case Run(_, next) => UnwindLeads(next, how, l, o);
    case Reraise(_, next) => UnwindLeads(next, how, l, o);
    case Finally(fin, next) =>
      var f := Exec(fin, l, o);
      assert Rest(Reraise(how, next), f.l, o) == Onward(Res(f.l, how), next, o);
      if !f.how.Normal? {
        assert Onward(f, Reraise(how, next), o) == Onward(f, next, o);
      }
  }

  /** Each statement run by itself leads where running to the end would. */
  lemma NextLeadsOn(t: Task, o: Oracle)
    ensures Rest(Next(t, o).k, Next(t, o).l, o) == Rest(t.k, t.l, o)
  {
    match t.k {
      case Stop =>
      case Run(End, next) =>
      case Run(Then(s, rest), next) => AfterLeadsOn(s, t.l, rest, next, o);
      case Finally(fin, next) =>
      case Reraise(how, next) => UnwindLeads(next, how, t.l, o);
    }
  }

  lemma AfterLeadsOn(s: Stmt, l: Local, rest: Block, next: Kont, o: Oracle)
    ensures var n := After(s, l, Run(rest, next), o);
            Rest(n.k, n.l, o) == Rest(Run(Then(s, rest), next), l, o)
  {
    var k, r := Run(rest, next), Does(s, l, o);
    DoesLeads(s, l, rest, next, o);
    match s {
      case Choose(yes, no) =>
      case IfEngaged(b) =>
      case IfUnclean(b) =>
      case Try(body, fin) => TryLeads(Exec(body, l, o), fin, k, o);
      case _ => CarryLeads(r, k, o);
    }
  }

  lemma CarryLeads(r: Res, k: Kont, o: Oracle)
    ensures Rest(Carry(r, k).k, r.l, o) == Onward(r, k, o)
  {
    if r.how != Normal {
      UnwindLeads(k, r.how, r.l, o);
    }
  }

  lemma DoesLeads(s: Stmt, l: Local, rest: Block, next: Kont, o: Oracle)
    ensures Rest(Run(Then(s, rest), next), l, o) == Onward(Does(s, l, o), Run(rest, next), o)
  {}

  lemma TryLeads(r: Res, fin: Block, k: Kont, o: Oracle)
    ensures Onward(r, Finally(fin, k), o) == Onward(AndThen(r, Exec(fin, r.l, o)), k, o)
  {}

  // ---- letting go of the console ------------------------------------------------

  /** Nothing in the block lets go. */
  predicate Keeps(b: Block)
    decreases b
  {
    match b
    case End => true
    case Then(s, rest) => KeepsOne(s) && Keeps(rest)
  }

  predicate KeepsOne(s: Stmt)
    decreases s
  {
    match s
    case Choose(yes, no) => Keeps(yes) && Keeps(no)
    case IfEngaged(b) => Keeps(b)
    case IfUnclean(b) => Keeps(b)
    case Try(body, fin) => Keeps(body) && Keeps(fin)
    case Release => false
    case _ => true
  }

  /** All the block does is a try whose finally lets go, or the letting go itself. */
  predicate LetsGo(b: Block)
    decreases b
  {
    b.Then? && b.rest == End &&
    match b.first
    case Release => true
    case Try(body, fin) => Keeps(body) && LetsGo(fin)
    case _ => false
  }

  /** Nothing is left to do. */
  predicate Over(k: Kont) {
    match k
    case Stop => true
    case Run(b, next) => b == End && Over(next)
    case Finally(_, _) => false
    case Reraise(_, next) => Over(next)
  }

  /** However it goes on - to its end, by a return or by a throw - it comes to a finally
      that lets go, and then to nothing. */
  predicate Bound(k: Kont) {
    match k
    case Stop => false
    case Run(b, next) => Keeps(b) && Bound(next)
    case Finally(fin, next) => (LetsGo(fin) && Over(next)) || (Keeps(fin) && Bound(next))
    case Reraise(_, next) => Bound(next)
  }

  predicate Holding(k: Kont) {
    Bound(k) || (k.Run? && LetsGo(k.block) && Over(k.next))
  }

  /** The statement about to be run is the letting go. */
  predicate Releasing(k: Kont) { k.Run? && k.block.Then? && k.block.first == Release }

  lemma {:induction false} UnwindBound(k: Kont, how: Abrupt)
    requires Bound(k)
    ensures Holding(Unwind(k, how))
    decreases k
  {
    match k
    case Run(_, next) => UnwindBound(next, how);
    case Reraise(_, next) => UnwindBound(next, how);
    case Finally(fin, next) => assert LetsGo(fin) && Over(next) ==> Over(Reraise(how, next));
  }

  lemma CarryHolds(r: Res, k: Kont)
    ensures Bound(k) ==> Holding(Carry(r, k).k)
  {
    if Bound(k) && r.how != Normal {
      UnwindBound(k, r.how);
    }
  }

  lemma {:induction false} HoldingIsNotOver(k: Kont)
    requires Holding(k)
    ensures !Over(k)
    decreases k
  {
    match k
    case Stop =>
    case Run(b, next) => if Bound(k) { HoldingIsNotOver(next); }
    case Finally(_, _) =>
    case Reraise(_, next) => HoldingIsNotOver(next);
  }

  lemma {:induction false} OverRests(k: Kont, r: Res, o: Oracle)
    requires Over(k)
    ensures Rest(k, r.l, o) == r.l && Onward(r, k, o) == r.l
    decreases k
  {
    match k
    case Stop =>
    case Run(b, next) => OverRests(next, r, o);
    case Reraise(how, next) =>
      OverRests(next, r, o);
      OverRests(next, Res(r.l, how), o);
  }

  /** The statement about to be run; between statements, one that nobody outside can see. */
  function Head(k: Kont): Stmt { if k.Run? && k.block.Then? then k.block.first else Engage }

  lemma NextTypes(t: Task, o: Oracle)
    ensures Next(t, o).l.typed ==
            if Head(t.k).Paste? then t.l.typed + [Touch(Head(t.k).line, o(t.l.clock))] else t.l.typed
  {
    if t.k.Run? && t.k.block.Then? {
      assert Next(t, o) == After(t.k.block.first, t.l, Run(t.k.block.rest, t.k.next), o);
    }
  }

  /** A script that holds the console goes on holding it until it runs the letting go -
      after which it does nothing more. */
  lemma NextHolds(t: Task, o: Oracle)
    requires Holding(t.k)
    ensures var n := Next(t, o);
            if Releasing(t.k) then Over(n.k) && n.l == t.l.(releases := t.l.releases + 1)
            else Holding(n.k) && n.l.releases == t.l.releases
  {
    match t.k {
      case Run(End, next) =>
      case Run(Then(s, rest), next) => AfterHolds(s, t.l, rest, next, o);
      case Finally(fin, next) =>
      case Reraise(how, next) => UnwindBound(next, how);
    }
  }

  lemma AfterHolds(s: Stmt, l: Local, rest: Block, next: Kont, o: Oracle)
    requires Holding(Run(Then(s, rest), next))
    ensures var n := After(s, l, Run(rest, next), o);
            if s == Release then Over(n.k) && n.l == l.(releases := l.releases + 1)
            else Holding(n.k) && n.l.releases == l.releases
  {
    var k := Run(rest, next);
    if Bound(Run(Then(s, rest), next)) {
      assert KeepsOne(s) && Bound(k);
      match s {
        case Choose(yes, no) => assert Bound(Run(yes, k)) && Bound(Run(no, k));
        case IfEngaged(b) => assert Bound(Run(b, k));
        case IfUnclean(b) => assert Bound(Run(b, k));
        case Try(body, fin) => assert Bound(Finally(fin, k)) && Bound(Run(body, Finally(fin, k)));
        case _ => CarryHolds(Simple(s, l, o), k);
      }
    } else {
      assert rest == End && Over(k);
      if s.Try? {
        assert Bound(Finally(s.fin, k)) && Bound(Run(s.body, Finally(s.fin, k)));
      }
    }
  }

  /** Run to its end a block that keeps the console lets go of it never, and one that lets
      go does so once, whatever it meets; what was typed stays typed. */
  ghost predicate Grown(l: Local, r: Local, releases: nat) {
    l.typed <= r.typed && (l.engaged ==> r.engaged) && r.releases == l.releases + releases
  }

  lemma {:induction false} KeepsGrows(b: Block, l: Local, o: Oracle)
    requires Keeps(b)
    ensures Grown(l, Exec(b, l, o).l, 0)
    decreases b
  {
    match b {
      case End =>
      case Then(s, rest) =>
        KeepsOneGrows(s, l, o);
        var r := Does(s, l, o);
        if r.how.Normal? {
          KeepsGrows(rest, r.l, o);
        }
    }
  }

  lemma {:induction false} KeepsOneGrows(s: Stmt, l: Local, o: Oracle)
    requires KeepsOne(s)
    ensures Grown(l, Does(s, l, o).l, 0)
    decreases s
  {
    match s {
      case Choose(yes, no) => KeepsGrows(if o(l.clock).yes then yes else no, Tick(l), o);
      case IfEngaged(b) => KeepsGrows(b, l, o);
      case IfUnclean(b) => KeepsGrows(b, l, o);
      case Try(body, fin) =>
        KeepsGrows(body, l, o);
        KeepsGrows(fin, Exec(body, l, o).l, o);
      case _ =>
    }
  }

  lemma {:induction false} LetsGoOnce(b: Block, l: Local, o: Oracle)
    requires LetsGo(b)
    ensures Grown(l, Exec(b, l, o).l, 1)
    decreases b
  {
    if b.first.Try? {
      KeepsGrows(b.first.body, l, o);
      LetsGoOnce(b.first.fin, Exec(b.first.body, l, o).l, o);
    }
  }

  // ---- coming to an end ---------------------------------------------------------

  function Size(b: Block): nat
    decreases b
  {
    match b
    case End => 1
    case Then(s, rest) => SizeOne(s) + Size(rest)
  }

  function SizeOne(s: Stmt): nat
    decreases s
  {
    match s
    case Choose(yes, no) => Size(yes) + Size(no) + 1
    case IfEngaged(b) => Size(b) + 1
    case IfUnclean(b) => Size(b) + 1
    case Try(body, fin) => Size(body) + Size(fin) + 3
    case _ => 1
  }

  function Left(k: Kont): nat {
    match k
    case Stop => 0
    case Run(b, next) => Size(b) + Left(next)
    case Finally(fin, next) => Size(fin) + 2 + Left(next)
    case Reraise(_, next) => 1 + Left(next)
  }

  lemma {:induction false} UnwindShrinks(k: Kont, how: Abrupt)
    ensures Left(Unwind(k, how)) <= Left(k)
    decreases k
  {
    match k
    case Stop =>
    case Run(_, next) => UnwindShrinks(next, how);
    case Reraise(_, next) => UnwindShrinks(next, how);
    case Finally(_, _) =>
  }

  lemma NextShrinks(t: Task, o: Oracle)
    requires t.k != Stop
    ensures Left(Next(t, o).k) < Left(t.k)
  {
    match t.k {
      case Run(End, next) =>
      case Run(Then(s, rest), next) => AfterShrinks(s, t.l, rest, next, o);
      case Finally(fin, next) =>
      case Reraise(how, next) => UnwindShrinks(next, how);
    }
  }

  lemma AfterShrinks(s: Stmt, l: Local, rest: Block, next: Kont, o: Oracle)
    ensures Left(After(s, l, Run(rest, next), o).k) < Left(Run(Then(s, rest), next))
  {
    var k := Run(rest, next);
    assert Left(Run(Then(s, rest), next)) == SizeOne(s) + Left(k);
    match s {
      case Choose(yes, no) =>
      case IfEngaged(b) =>
      case IfUnclean(b) =>
      case Try(body, fin) => assert Left(Finally(fin, k)) == Size(fin) + 2 + Left(k);
      case _ =>
        UnwindShrinks(k, Thrown);
        UnwindShrinks(k, Returned);
    }
  }
}
