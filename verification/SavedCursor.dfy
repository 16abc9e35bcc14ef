/** A restored cursor lands on the row it was saved on, or the model says it
    cannot be sure. `moves` is the whole of the evidence. */
module SavedCursor {
  import opened Options
  import opened Parser
  import opened Terminal

  /** What an onlooker notes when the main screen's saved cursor changes: the row,
      counted from the top of the scrollback, and the geometry it was saved at. */
  datatype Mark = Mark(row: nat, scroll: nat, cols: nat, rows: nat)

  /** The note after action `a`, taken from the outside: made afresh whenever the
      saved cursor is seen to change. */
  function Noted(t: Term, mark: Option<Mark>, a: Action): Option<Mark>
    requires Grid(t)
  {
    var r := Apply(t, a);
    if r.main.saved == t.main.saved then mark
    else if r.main.saved.None? then None
    else Some(Mark(|r.main.scroll| + r.main.saved.value.y, |r.main.scroll|, r.cols, r.rows))
  }

  function NotedAll(t: Term, actions: seq<Action>): Option<Mark>
    requires Grid(t)
  {
    if actions == [] then None
    else
      var before := actions[..|actions| - 1];
      Noted(ApplyAll(t, before), NotedAll(t, before), actions[|actions| - 1])
  }

  /** While the saved `moves` is still the current one, nothing has shifted. */
  ghost predicate Vouched(t: Term, mark: Option<Mark>) {
    t.main.saved.Some? ==>
      var s := t.main.saved.value;
      && mark.Some? && s.moves <= t.moves
      && (s.moves == t.moves ==>
            && mark.value == Mark(|t.main.scroll| + s.y, |t.main.scroll|, t.cols, t.rows)
            && s.y < t.rows)
  }

  lemma VouchedStep(t: Term, mark: Option<Mark>, a: Action)
    requires Grid(t) && Vouched(t, mark)
    ensures Vouched(Apply(t, a), Noted(t, mark, a))
  {
    if !a.Resize? && !a.Reset? {
      assert Steady(t, Apply(t, a));
    }
  }

  /** Over every run of actions, resizes and alternate-screen excursions included:
      an unchanged `moves` means an unshifted scrollback and an unchanged geometry. */
  lemma {:induction false} VouchedAlways(t: Term, actions: seq<Action>)
    requires Grid(t) && t.main.saved.None?
    ensures Vouched(ApplyAll(t, actions), NotedAll(t, actions))
  {
    if actions == [] {
    } else {
      var before := actions[..|actions| - 1];
      VouchedAlways(t, before);
      VouchedStep(ApplyAll(t, before), NotedAll(t, before), actions[|actions| - 1]);
    }
  }

  /** A cursor put back on the row, counted through the scrollback, that it was saved on. */
  ghost predicate PutBack(r: Term, mark: Option<Mark>) {
    mark == Some(Mark(|r.main.scroll| + r.y, |r.main.scroll|, r.cols, r.rows))
  }

  /** So the main screen's cursor, restored there or on the way back from the alternate
      screen, is on the very row it was saved on whenever the model stays sure of it. */
  lemma RestoreIsRightOrUnsure(t: Term, actions: seq<Action>)
    requires Grid(t) && t.main.saved.None?
    ensures
      var now := ApplyAll(t, actions);
      now.main.saved.Some? ==>
        && (var back := Mode(now, 1049, false); !back.unsure ==> PutBack(back, NotedAll(t, actions)))
        && (var r := RestoreTerm(now); now.alt.None? && !r.unsure ==> PutBack(r, NotedAll(t, actions)))
  {
    hide ApplyAll, NotedAll, Mode, RestoreTerm, Vouched;
    VouchedAlways(t, actions);
    var now := ApplyAll(t, actions);
    if now.main.saved.Some? {
      RestoresTo(now, NotedAll(t, actions));
    }
  }

  lemma RestoresTo(now: Term, mark: Option<Mark>)
    requires Grid(now) && now.main.saved.Some? && Vouched(now, mark)
    ensures var back := Mode(now, 1049, false); !back.unsure ==> PutBack(back, mark)
    ensures var r := RestoreTerm(now); now.alt.None? && !r.unsure ==> PutBack(r, mark)
  {}
}
