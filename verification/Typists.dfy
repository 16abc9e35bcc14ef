/** Save, load, checkpoint and rollback taking turns at the console with the line that tells
    the guest the size of the terminal: one event at a time, run to the next await. */
module Typists {
  import opened Options
  import opened GeomSync
  import Scripts
  import opened Errands

  /** An errand under way: what is left of its script, and its own variables. */
  datatype Job = Job(kind: Kind, o: Scripts.Oracle, task: Scripts.Task)

  datatype Mark = Began(id: nat) | Ended(id: nat) | TypedBy(id: nat, touch: Scripts.Touch) | TypedSize(size: Geom)

  /** `turn` is the job whose code is running; with none, the page waits for an event.
      `grid` is the page's terminal, `guest` the size the guest believes in, and `slot`
      the one it believed in when the snapshot was taken, if there is a snapshot. */
  datatype World = World(busy: bool, turn: Option<nat>, jobs: seq<Job>,
                         sync: Sync, grid: Geom, guest: Geom, slot: Option<Geom>, log: seq<Mark>)

  /** What may happen next: an errand is asked for; a job runs its next statement, going on
      or waking up; the window has been resized; the retry timer goes off. `prompt` is
      whether the console looks idle, `throws` whether the paste of the size would throw. */
  datatype Step =
    | Begin(kind: Kind, o: Scripts.Oracle)
    | Goes(id: nat)
    | Resized(g: Geom, prompt: bool, throws: bool)
    | TimerFires(prompt: bool, throws: bool)

  function Note(w: World, m: Mark): World { w.(log := w.log + [m]) }

  function Start(kind: Kind, o: Scripts.Oracle): Job {
    Job(kind, o, Scripts.Task(Scripts.Run(Script(kind), Scripts.Stop), Scripts.FRESH))
  }

  /** What the next statement of job `id` does to the page and the console. */
  function Outside(w: World, id: nat): World
    requires id < |w.jobs|
  {
    var j := w.jobs[id];
    match Scripts.Head(j.task.k)
    case Release => Note(w, Ended(id)).(busy := false)
    case Paste(line) =>
      var touch := Scripts.Touch(line, j.o(j.task.l.clock));
      Note(Lands(w, touch), TypedBy(id, touch))
    case _ => w
  }

  /** Typed, and it did what it is for. */
  predicate Took(t: Scripts.Touch) { !t.luck.throws && t.luck.takes }

  /** What a line typed by a job does to sizes. The re-sync takes the page's size down as
      told, and then pastes it; a savevm keeps the guest's size with all else there is of
      the guest, and a loadvm brings it back. */
  function Lands(w: World, t: Scripts.Touch): (r: World)
    ensures r == w.(sync := r.sync, guest := r.guest, slot := r.slot) && r.sync.timer == w.sync.timer
  {
    match t.line
    case SizeLine =>
      if !Usable(Some(w.grid)) then w
      else w.(sync := w.sync.(told := Some(w.grid)), guest := if Took(t) then w.grid else w.guest)
    case SaveVm =>
      if Took(t) then w.(slot := Some(w.guest))
      else if !t.luck.throws && t.luck.loses then w.(slot := None) else w
    case LoadVm => if Took(t) && w.slot.Some? then w.(guest := w.slot.value) else w
    case _ => w
  }

  /** One statement; then on in the same turn, unless it was an await or the job is over. */
  function Advance(w: World, id: nat): World
    requires id < |w.jobs|
  {
    var j := w.jobs[id];
    var n := Scripts.Next(j.task, j.o);
    var task := if Scripts.Over(n.k) then n.(k := Scripts.Stop) else n;
    var yielded := task.k == Scripts.Stop || Scripts.Head(j.task.k) == Scripts.Await;
    Outside(w, id).(jobs := w.jobs[id := j.(task := task)], turn := if yielded then None else Some(id))
  }

  function Attempted(w: World, r: Tried): World {
    if r.sent.None? then w.(sync := r.sync)
    else Note(w, TypedSize(r.sent.value)).(sync := r.sync, guest := r.sent.value)
  }

  function Do(w: World, s: Step): World {
    match s
    case Begin(kind, o) =>
      if w.turn.Some? || w.busy then w
      else Note(w, Began(|w.jobs|)).(busy := true, turn := Some(|w.jobs|), jobs := w.jobs + [Start(kind, o)])
    case Goes(id) =>
      if id >= |w.jobs| || w.jobs[id].task.k == Scripts.Stop || (w.turn.Some? && w.turn != Some(id)) then w
      else Advance(w, id)
    case Resized(g, prompt, throws) =>
      if w.turn.Some? then w
      else Attempted(w.(grid := g), Attempt(w.sync, Some(g), !w.busy && prompt, throws))
    case TimerFires(prompt, throws) =>
      if w.turn.Some? || !w.sync.timer then w
      else Attempted(w, Attempt(w.sync, Some(w.grid), !w.busy && prompt, throws))
  }

  function Run(w: World, steps: seq<Step>): World
    decreases |steps|
  {
    if steps == [] then w else Run(Do(w, steps[0]), steps[1..])
  }

  // ---- one typist ------------------------------------------------------------------

  /** Whose turn at the console the log says it is. */
  function Holder(log: seq<Mark>): Option<nat>
    decreases |log|
  {
    if log == [] then None
    else match log[|log| - 1]
      case Began(id) => Some(id)
      case Ended(_) => None
      case _ => Holder(log[..|log| - 1])
  }

  /** A job types only in its own turn, and the size is typed only in nobody's; a turn
      begins only when nobody has one and is ended only by who has it. */
  predicate InTurn(log: seq<Mark>, k: nat)
    requires k < |log|
  {
    match log[k]
    case Began(_) => Holder(log[..k]).None?
    case Ended(id) => Holder(log[..k]) == Some(id)
    case TypedBy(id, _) => Holder(log[..k]) == Some(id)
    case TypedSize(_) => Holder(log[..k]).None?
  }

  ghost predicate OneTypist(log: seq<Mark>) { forall k :: 0 <= k < |log| ==> InTurn(log, k) }

  /** The job that has the turn still has its letting go before it, on every way out; every
      other is over. */
  ghost predicate Orderly(w: World) {
    && w.busy == Holder(w.log).Some? && OneTypist(w.log)
    && (w.busy ==> Holder(w.log).value < |w.jobs|)
    && (w.turn.Some? ==> w.turn == Holder(w.log))
    && forall id :: 0 <= id < |w.jobs| ==> HasItsPlace(w, id)
  }

  ghost predicate HasItsPlace(w: World, id: nat)
    requires id < |w.jobs|
  {
    var k := w.jobs[id].task.k;
    if Holder(w.log) == Some(id) then Scripts.Holding(k) else k == Scripts.Stop
  }

  lemma Marked(log: seq<Mark>, m: Mark)
    requires OneTypist(log) && InTurn(log + [m], |log|)
    ensures OneTypist(log + [m])
  {
    var l := log + [m];
    forall k | 0 <= k < |l| ensures InTurn(l, k) {
      if k < |log| {
        assert InTurn(log, k) && l[..k] == log[..k];
      }
    }
  }

  lemma HolderAfter(log: seq<Mark>, m: Mark)
    ensures Holder(log + [m]) == match m { case Began(id) => Some(id) case Ended(_) => None case _ => Holder(log) }
    ensures (log + [m])[..|log|] == log
  {
    assert (log + [m])[..|log|] == log;
  }

  lemma NothingMarked(w: World, r: World)
    requires Orderly(w) && r.log == w.log && r.busy == w.busy && r.jobs == w.jobs && r.turn == w.turn
    ensures Orderly(r)
  {
    forall id | 0 <= id < |r.jobs| ensures HasItsPlace(r, id) {
      assert HasItsPlace(w, id);
    }
  }

  lemma SizeMarked(w: World, g: Geom)
    requires Orderly(w) && !w.busy
    ensures Orderly(Note(w, TypedSize(g)))
  {
    var m := TypedSize(g);
    HolderAfter(w.log, m);
    Marked(w.log, m);
    var r := Note(w, m);
    forall id | 0 <= id < |r.jobs| ensures HasItsPlace(r, id) {
      assert HasItsPlace(w, id);
    }
  }

  lemma BeginsInTurn(w: World, kind: Kind, o: Scripts.Oracle)
    requires Orderly(w) && !w.busy
    ensures Orderly(Do(w, Begin(kind, o)))
  {
    hide Script;
    var m := Began(|w.jobs|);
    HolderAfter(w.log, m);
    Marked(w.log, m);
    var r := Do(w, Begin(kind, o));
    forall id | 0 <= id < |r.jobs| ensures HasItsPlace(r, id) {
      if id < |w.jobs| {
        assert HasItsPlace(w, id);
      }
    }
  }

  /** What the running job does is done in its turn, and leaves it bound to let go - or
      over, if that is what it did. */
  lemma GoesInTurn(w: World, id: nat)
    requires Orderly(w) && id < |w.jobs| && w.jobs[id].task.k != Scripts.Stop
    ensures Orderly(Advance(w, id))
  {
    var j := w.jobs[id];
    assert HasItsPlace(w, id);
    Scripts.NextHolds(j.task, j.o);
    if !Scripts.Releasing(j.task.k) {
      Scripts.HoldingIsNotOver(Scripts.Next(j.task, j.o).k);
    }
    var r := Advance(w, id);
    OutsideInTurn(w, id);
    forall i | 0 <= i < |r.jobs| ensures HasItsPlace(r, i) {
      assert HasItsPlace(w, i);
    }
  }

  lemma OutsideInTurn(w: World, id: nat)
    requires Orderly(w) && id < |w.jobs| && Holder(w.log) == Some(id)
    ensures var r, k := Outside(w, id), w.jobs[id].task.k;
            && OneTypist(r.log) && r.jobs == w.jobs
            && r.busy == !Scripts.Releasing(k)
            && Holder(r.log) == if Scripts.Releasing(k) then None else Some(id)
  {
    hide Lands, OneTypist;
    var j := w.jobs[id];
    match Scripts.Head(j.task.k) {
      case Release =>
        HolderAfter(w.log, Ended(id));
        Marked(w.log, Ended(id));
      case Paste(line) =>
        var m := TypedBy(id, Scripts.Touch(line, j.o(j.task.l.clock)));
        HolderAfter(w.log, m);
        Marked(w.log, m);
      case _ =>
    }
  }

  lemma TellsInTurn(w: World, a: Tried)
    requires Orderly(w) && (a.sent.Some? ==> !w.busy)
    ensures Orderly(Attempted(w, a))
  {
    if a.sent.Some? {
      SizeMarked(w, a.sent.value);
      NothingMarked(Note(w, TypedSize(a.sent.value)), Attempted(w, a));
    } else {
      NothingMarked(w, Attempted(w, a));
    }
  }

  lemma StepsInTurn(w: World, s: Step)
    requires Orderly(w)
    ensures Orderly(Do(w, s))
  {
    hide Advance, Script, Orderly;
    match s {
      case Begin(kind, o) => if !w.busy { BeginsInTurn(w, kind, o); }
      case Goes(id) =>
        if id < |w.jobs| && w.jobs[id].task.k != Scripts.Stop && (w.turn.None? || w.turn == Some(id)) {
          GoesInTurn(w, id);
        }
      case Resized(g, prompt, throws) =>
        NothingMarked(w, w.(grid := g));
        TellsInTurn(w.(grid := g), Attempt(w.sync, Some(g), !w.busy && prompt, throws));
      case TimerFires(prompt, throws) =>
        TellsInTurn(w, Attempt(w.sync, Some(w.grid), !w.busy && prompt, throws));
    }
  }

  /** In every interleaving one types at a time, and `busy` is held exactly for its turn. */
  lemma {:induction false} OneTypistAtATime(w: World, steps: seq<Step>)
    requires Orderly(w)
    ensures Orderly(Run(w, steps))
    decreases |steps|
  {
    if steps != [] {
      StepsInTurn(w, steps[0]);
      OneTypistAtATime(Do(w, steps[0]), steps[1..]);
    }
  }

  // ---- let go of on every exit --------------------------------------------------------

  function Turns(id: nat, n: nat): seq<Step> { seq(n, _ => Goes(id)) }

  /** Whatever is left of the errand that has the console, whatever throws in it and
      wherever: given its turns it ends, and the console is free. */
  lemma {:induction false} AlwaysLetsGo(w: World, id: nat, n: nat)
    requires Orderly(w) && Holder(w.log) == Some(id) && Scripts.Left(w.jobs[id].task.k) <= n
    ensures var r := Run(w, Turns(id, n));
            && Orderly(r) && !r.busy && r.turn.None? && |r.jobs| == |w.jobs|
            && r.jobs[id].task.k == Scripts.Stop
    decreases n
  {
    assert HasItsPlace(w, id);
    var j := w.jobs[id];
    Scripts.HoldingIsNotOver(j.task.k);
    Scripts.NextShrinks(j.task, j.o);
    StepsInTurn(w, Goes(id));
    var r := Do(w, Goes(id));
    assert r == Advance(w, id);
    assert Turns(id, n)[1..] == Turns(id, n - 1);
    assert HasItsPlace(r, id);
    if Holder(r.log) == Some(id) {
      AlwaysLetsGo(r, id, n - 1);
    } else {
      LetGo(w, id);
      Idles(r, id, n - 1);
    }
  }

  lemma LetGo(w: World, id: nat)
    requires Orderly(w) && id < |w.jobs| && Holder(w.log) == Some(id) && w.jobs[id].task.k != Scripts.Stop
    requires Holder(Advance(w, id).log) != Some(id)
    ensures var r := Advance(w, id); !r.busy && r.turn.None? && r.jobs[id].task.k == Scripts.Stop
  {
    assert HasItsPlace(w, id);
    OutsideInTurn(w, id);
    Scripts.NextHolds(w.jobs[id].task, w.jobs[id].o);
  }

  lemma {:induction false} Idles(w: World, id: nat, n: nat)
    requires id < |w.jobs| && w.jobs[id].task.k == Scripts.Stop
    ensures Run(w, Turns(id, n)) == w
    decreases n
  {
    if n > 0 {
      assert Turns(id, n)[1..] == Turns(id, n - 1);
      Idles(w, id, n - 1);
    }
  }

  // ---- each to its own script -----------------------------------------------------------

  /** What an errand comes to by itself. */
  function Outcome(kind: Kind, o: Scripts.Oracle): Scripts.Local { Scripts.Exec(Script(kind), Scripts.FRESH, o).l }

  /** What the log says job `id` tried to type. */
  function Of(log: seq<Mark>, id: nat): seq<Scripts.Touch>
    decreases |log|
  {
    if log == [] then []
    else
      var m, before := log[|log| - 1], Of(log[..|log| - 1], id);
      if m.TypedBy? && m.id == id then before + [m.touch] else before
  }

  /** The job is on its way to what its script comes to alone, and has typed what it says. */
  ghost predicate OnItsWay(w: World, id: nat)
    requires id < |w.jobs|
  {
    var j := w.jobs[id];
    Scripts.Rest(j.task.k, j.task.l, j.o) == Outcome(j.kind, j.o) && Of(w.log, id) == j.task.l.typed
  }

  ghost predicate Scripted(w: World) {
    && (forall id :: 0 <= id < |w.jobs| ==> OnItsWay(w, id))
    && (forall id :: |w.jobs| <= id ==> Of(w.log, id) == [])
  }

  lemma OfAfter(log: seq<Mark>, m: Mark, id: nat)
    ensures Of(log + [m], id) == if m.TypedBy? && m.id == id then Of(log, id) + [m.touch] else Of(log, id)
  {
    assert (log + [m])[..|log|] == log;
  }

  /** The touch that job `id`'s next statement makes, if it makes one. */
  function Touched(j: Job): seq<Scripts.Touch> {
    var s := Scripts.Head(j.task.k);
    if s.Paste? then [Scripts.Touch(s.line, j.o(j.task.l.clock))] else []
  }

  lemma AdvanceLogs(w: World, id: nat, i: nat)
    requires id < |w.jobs|
    ensures Of(Advance(w, id).log, i) == Of(w.log, i) + if i == id then Touched(w.jobs[id]) else []
  {
    hide Scripts.Next, Scripts.Over, Lands;
    var r, j := Outside(w, id), w.jobs[id];
    match Scripts.Head(j.task.k) {
      case Release => OfAfter(w.log, Ended(id), i);
      case Paste(line) => OfAfter(w.log, TypedBy(id, Touched(j)[0]), i);
      case _ =>
    }
  }

  lemma AdvanceLeads(w: World, id: nat)
    requires id < |w.jobs|
    ensures var j, n := w.jobs[id], Advance(w, id).jobs[id];
            && n.kind == j.kind && n.o == j.o && n.task.l.typed == j.task.l.typed + Touched(j)
            && Scripts.Rest(n.task.k, n.task.l, n.o) == Scripts.Rest(j.task.k, j.task.l, j.o)
  {
    var j := w.jobs[id];
    Scripts.NextLeadsOn(j.task, j.o);
    Scripts.NextTypes(j.task, j.o);
    EndsWhereItIs(Scripts.Next(j.task, j.o), j.o);
  }

  lemma EndsWhereItIs(n: Scripts.Task, o: Scripts.Oracle)
    ensures Scripts.Over(n.k) ==> Scripts.Rest(Scripts.Stop, n.l, o) == Scripts.Rest(n.k, n.l, o)
  {
    if Scripts.Over(n.k) {
      Scripts.OverRests(n.k, Scripts.Res(n.l, Scripts.Normal), o);
    }
  }

  lemma GoesItsWay(w: World, id: nat, i: nat)
    requires Scripted(w) && id < |w.jobs|
    ensures i < |w.jobs| ==> OnItsWay(Advance(w, id), i)
    ensures i >= |w.jobs| ==> Of(Advance(w, id).log, i) == []
  {
    hide Script, Scripts.Next, Scripts.Over, Scripts.Rest, Outside;
    AdvanceLogs(w, id, i);
    if i < |w.jobs| {
      assert OnItsWay(w, i);
      AdvanceLeads(w, id);
    }
  }

  lemma AllGoTheirWay(w: World, id: nat)
    requires Scripted(w) && id < |w.jobs|
    ensures Scripted(Advance(w, id))
  {
    hide Script, Scripts.Next, Scripts.Over, Scripts.Rest, Outside;
    var r := Advance(w, id);
    forall i: nat
      ensures i < |w.jobs| ==> OnItsWay(r, i)
      ensures i >= |w.jobs| ==> Of(r.log, i) == []
    {
      GoesItsWay(w, id, i);
    }
  }

  lemma StartsItsWay(w: World, kind: Kind, o: Scripts.Oracle)
    requires Scripted(w) && w.turn.None? && !w.busy
    ensures Scripted(Do(w, Begin(kind, o)))
  {
    hide Script;
    var r := Do(w, Begin(kind, o));
    forall i: nat ensures Of(r.log, i) == Of(w.log, i) {
      OfAfter(w.log, Began(|w.jobs|), i);
    }
    forall i | 0 <= i < |r.jobs| ensures OnItsWay(r, i) {
      if i < |w.jobs| {
        assert OnItsWay(w, i);
      } else {
        var l := Scripts.Exec(Script(kind), Scripts.FRESH, o);
        Scripts.OverRests(Scripts.Stop, l, o);
      }
    }
  }

  lemma SizeItsWay(w: World, g: Geom)
    requires Scripted(w)
    ensures Scripted(Note(w, TypedSize(g)))
  {
    var r := Note(w, TypedSize(g));
    forall i: nat ensures Of(r.log, i) == Of(w.log, i) {
      OfAfter(w.log, TypedSize(g), i);
    }
    forall i | 0 <= i < |r.jobs| ensures OnItsWay(r, i) {
      assert OnItsWay(w, i);
    }
  }

  lemma SameWay(w: World, r: World)
    requires Scripted(w) && r.log == w.log && r.jobs == w.jobs
    ensures Scripted(r)
  {
    forall i | 0 <= i < |r.jobs| ensures OnItsWay(r, i) {
      assert OnItsWay(w, i);
    }
  }

  lemma TellsItsWay(w: World, a: Tried)
    requires Scripted(w)
    ensures Scripted(Attempted(w, a))
  {
    if a.sent.Some? {
      SizeItsWay(w, a.sent.value);
      SameWay(Note(w, TypedSize(a.sent.value)), Attempted(w, a));
    } else {
      SameWay(w, Attempted(w, a));
    }
  }

  lemma StepsItsWay(w: World, s: Step)
    requires Scripted(w)
    ensures Scripted(Do(w, s))
  {
    hide Advance, Script, Scripted;
    match s {
      case Begin(kind, o) => if w.turn.None? && !w.busy { StartsItsWay(w, kind, o); }
      case Goes(id) =>
        if Do(w, s) != w {
          AllGoTheirWay(w, id);
        }
      case Resized(g, prompt, throws) =>
        SameWay(w, w.(grid := g));
        TellsItsWay(w.(grid := g), Attempt(w.sync, Some(g), !w.busy && prompt, throws));
      case TimerFires(prompt, throws) =>
        TellsItsWay(w, Attempt(w.sync, Some(w.grid), !w.busy && prompt, throws));
    }
  }

  lemma {:induction false} EachToItsScript(w: World, steps: seq<Step>)
    requires Scripted(w)
    ensures Scripted(Run(w, steps))
    decreases |steps|
  {
    if steps != [] {
      StepsItsWay(w, steps[0]);
      EachToItsScript(Do(w, steps[0]), steps[1..]);
    }
  }

  /** An errand that is over has typed what its script types alone, let go exactly once,
      and - a save or a load - put the console back if and only if it took it. */
  ghost predicate DidItsErrand(log: seq<Mark>, id: nat, j: Job) {
    var l := j.task.l;
    && l == Outcome(j.kind, j.o) && l.typed == Of(log, id) && l.releases == 1
    && (j.kind.Save? ==> PutsBack(Saving(), GivesUp(), l, j.o))
    && (j.kind.Load? ==> PutsBack(Loading(j.kind.blocks), One(Scripts.Return), l, j.o))
  }

  /** Whatever else happens meanwhile: other errands asked for, resizes, retries. */
  lemma ErrandsAreDone(w: World, steps: seq<Step>, id: nat)
    requires Scripted(w) && id < |Run(w, steps).jobs|
    ensures var r := Run(w, steps);
            r.jobs[id].task.k == Scripts.Stop ==> DidItsErrand(r.log, id, r.jobs[id])
  {
    hide Script, Saving, Loading;
    EachToItsScript(w, steps);
    var r := Run(w, steps);
    var j := r.jobs[id];
    assert OnItsWay(r, id);
    if j.task.k == Scripts.Stop {
      Scripts.LetsGoOnce(Script(j.kind), Scripts.FRESH, j.o);
      match j.kind {
        case Save => SaveLeavesTheConsole(j.o);
        case Load(n) => LoadLeavesTheConsole(n, j.o);
        case _ =>
      }
    }
  }
}
