/** Telling the guest the shape of the terminal, and trying again until it lands. */
module GeomSync {
  import opened Options

  datatype Geom = Geom(cols: int, rows: int)

  predicate Usable(g: Option<Geom>) { g.Some? && g.value.cols != 0 && g.value.rows != 0 }

  /** What `makeSync` keeps: what the guest was last told, and whether a retry is due. */
  datatype Sync = Sync(told: Option<Geom>, timer: bool)

  /** One attempt: what is kept afterwards, and what is sent if anything. Thrown out of, it
      has sent nothing and keeps no retry. */
  datatype Tried = Tried(sync: Sync, sent: Option<Geom>, threw: bool)

  /** A size that matters is told already, sent now, or due - unless its paste throws: then
      it is given up. */
  function Attempt(s: Sync, want: Option<Geom>, canSend: bool, throws: bool): (r: Tried)
    ensures Usable(want) ==> ((r.sync.told == want || r.sync.timer) <==> !r.threw)
    ensures r.threw <==> throws && canSend && Usable(want) && s.told != want
    ensures r.sent.Some? ==> canSend && r.sent == want && r.sync.told == want && s.told != want
    ensures r.sync.timer ==> !canSend && Usable(want)
    ensures r.sync.told == if r.sent.Some? then r.sent else s.told
  {
    if !Usable(want) || s.told == want then Tried(s.(timer := false), None, false)
    else if !canSend then Tried(s.(timer := true), None, false)
    else if throws then Tried(s.(timer := false), None, true)
    else Tried(Sync(want, false), want, false)
  }

  // ---- as it is written ---------------------------------------------------

  class Syncer {
    var told: Option<Geom>
    var timer: bool

    function Kept(): Sync reads this { Sync(told, timer) }

    constructor ()
      ensures Kept() == Sync(None, false)
    {
      told, timer := None, false;
    }

    method AttemptNow(want: Option<Geom>, canSend: bool, throws: bool) returns (sent: Option<Geom>, threw: bool)
      modifies this
      ensures Tried(Kept(), sent, threw) == Attempt(old(Kept()), want, canSend, throws)
    {
      timer, threw := false, false;
      if want.None? || want.value.cols == 0 || want.value.rows == 0 {
        return None, false;
      }
      if told.Some? && told.value.cols == want.value.cols && told.value.rows == want.value.rows {
        return None, false;
      }
      if !canSend {
        timer := true;
        return None, false;
      }
      if throws {
        return None, true;
      }
      told := Some(Geom(want.value.cols, want.value.rows));
      return want, false;
    }

    /** A retry already due is dropped for the attempt made now. */
    method Request(want: Option<Geom>, canSend: bool, throws: bool) returns (sent: Option<Geom>, threw: bool)
      modifies this
      ensures Tried(Kept(), sent, threw) == Attempt(old(Kept()), want, canSend, throws)
    {
      if timer {
        timer := false;
      }
      sent, threw := AttemptNow(want, canSend, throws);
    }

    method Seed(g: Option<Geom>)
      modifies this`told
      ensures Kept() == old(Kept()).(told := g)
    {
      told := if g.Some? then Some(Geom(g.value.cols, g.value.rows)) else None;
    }
  }
}
