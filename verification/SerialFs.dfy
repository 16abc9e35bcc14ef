/** web/serialfs.js as it is written: module variables changed step by step. Each method
    is proved to do what Checkpoint's function of the same operation says. */
module SerialFs {
  import opened Options
  import opened Mux
  import opened Checkpoint

  class Console {
    // what the page remembers
    var busy: bool
    var switches: nat
    var paused: bool
    var unanswered: bool
    var layered: bool
    var savedAt: Option<nat>
    // the world it types at
    var keyboard: Keyboard
    var engine: Engine
    var log: seq<Event>
    var clock: nat
    const world: Oracle

    function Now(): State
      reads this
    {
      State(busy, switches, paused, unanswered, layered, savedAt, keyboard, engine, log, clock)
    }

    constructor (world: Oracle, keyboard: Keyboard, engine: Engine)
      ensures this.world == world
      ensures Now() == State(false, 0, false, false, false, None, keyboard, engine, [], 0)
    {
      this.world, this.keyboard, this.engine := world, keyboard, engine;
      busy, switches, paused, unanswered, layered, savedAt := false, 0, false, false, false, None;
      log, clock := [], 0;
    }

    /** One paste, thrown out of or seen by the mux. */
    method Paste(t: Typed, ch: char) returns (threw: bool)
      modifies this`log, this`clock, this`keyboard
      ensures Now() == Try(world, old(Now()), t, ch).s && threw == Try(world, old(Now()), t, ch).threw
    {
      threw := world(clock).throws;
      var whole := !keyboard.held;
      if !threw {
        keyboard := Key(keyboard, ch);
      }
      log := log + [Tried(t, keyboard.side, whole, engine, threw)];
      clock := clock + 1;
    }

    method PasteKey(ch: char) returns (threw: bool)
      modifies this`log, this`clock, this`keyboard
      ensures Now() == TryKey(world, old(Now()), ch).s && threw == TryKey(world, old(Now()), ch).threw
    {
      threw := Paste(SwitchKey, ch);
    }

    method PasteKeys(first: char, second: char) returns (threw: bool)
      modifies this`log, this`clock, this`keyboard
      ensures Now() == TryKeys(world, old(Now()), first, second).s
      ensures threw == TryKeys(world, old(Now()), first, second).threw
    {
      threw := PasteKey(first);
      if !threw {
        threw := PasteKey(second);
      }
    }

    method PasteSwitch() returns (threw: bool)
      modifies this`log, this`clock, this`keyboard, this`switches
      ensures Now() == TypeSwitch(world, old(Now())).s && threw == TypeSwitch(world, old(Now())).threw
    {
      threw := PasteKeys(CTRL_A, NUL);
      if !threw {
        threw := PasteKeys(CTRL_A, 'c');
        if !threw {
          switches := switches + 1;
        }
      }
    }

    /** `mux`: the four keys, and the monitor's prompt if this was the switch into it. */
    method SwitchSide() returns (threw: bool, ok: bool)
      modifies this`log, this`clock, this`keyboard, this`switches
      ensures Out(Now(), threw, ok) == SwitchMux(world, old(Now()))
    {
      ok := true;
      threw := PasteSwitch();
      if !threw && switches % 2 == 1 {
        ok := world(clock).answers;
        clock := clock + 1;
      }
    }

    /** `run`: one monitor command, and whether it was answered without an error. */
    method RunCommand(t: Typed) returns (threw: bool, ok: bool)
      modifies this`log, this`clock, this`keyboard, this`engine, this`paused, this`unanswered
      ensures Out(Now(), threw, ok) == Run(world, old(Now()), t)
    {
      ok := true;
      var heard := Heard(keyboard);
      if t == Stop {
        unanswered := true;
      }
      threw := Paste(t, First(t));
      if !threw {
        ok := Hear(t, heard);
        if ok {
          if t == Stop {
            paused, unanswered := true, false;
          }
          if t == Cont {
            paused := false;
          }
        }
      }
    }

    /** The wait for a prompt and the error before it. */
    method Hear(t: Typed, heard: bool) returns (ok: bool)
      modifies this`log, this`clock, this`engine
      ensures Out(Now(), false, ok) == Reply(world, old(Now()), t, heard)
    {
      var f := world(clock);
      ok := f.answers && (t == Stop || !heard || !Fails(engine, t, f));
      if heard && (f.runs || f.answers) {
        engine := Effect(engine, t, f);
      }
      clock := clock + 1;
      if ok {
        log := log + [Answered(t)];
      }
    }

    method ResumeMachine(resume: bool) returns (threw: bool, ok: bool)
      modifies this`log, this`clock, this`keyboard, this`engine, this`paused, this`unanswered
      ensures Out(Now(), threw, ok) == Resume(world, old(Now()), resume)
    {
      var short := unanswered;
      unanswered := false;
      threw, ok := false, true;
      if short && resume {
        threw, ok := RunCommand(Cont);
      } else if paused && resume {
        threw, ok := RunCommand(Cont);
      }
    }

    /** `leave`: back to the serial side, resuming the machine if the page stopped it. */
    method LeaveMonitor(resume: bool) returns (threw: bool, ok: bool)
      modifies this`log, this`clock, this`keyboard, this`switches, this`engine, this`paused, this`unanswered
      ensures Out(Now(), threw, ok) == Leave(world, old(Now()), resume)
    {
      threw, ok := false, true;
      if switches % 2 == 0 {
        return;
      }
      threw, ok := ResumeMachine(resume);
      if threw {
        return;
      }
      var answered;
      threw, answered := SwitchSide();
      if threw {
        ok := answered;
      }
    }

    /** A line for the shell, and the wait for what it was sent for. */
    method TypeLine(t: Typed) returns (threw: bool, ok: bool)
      modifies this`log, this`clock, this`keyboard
      ensures Out(Now(), threw, ok) == Shell(world, old(Now()), t)
    {
      ok := true;
      threw := Paste(t, First(t));
      if !threw {
        ok := world(clock).answers;
        clock := clock + 1;
        if ok {
          log := log + [Answered(t)];
        }
      }
    }

    /** From the switch in to the snapshot. */
    method SaveInMonitor() returns (threw: bool, ok: bool)
      modifies this`log, this`clock, this`keyboard, this`switches, this`engine,
               this`paused, this`unanswered, this`layered, this`savedAt
      ensures Out(Now(), threw, ok) == Saving(world, old(Now()))
    {
      threw, ok := SwitchSide();
      if threw || !ok {
        return;
      }
      threw, ok := SaveStopped();
    }

    method SaveStopped() returns (threw: bool, ok: bool)
      modifies this`log, this`clock, this`keyboard, this`engine, this`paused, this`unanswered,
               this`layered, this`savedAt
      ensures Out(Now(), threw, ok) == StopThenSave(world, old(Now()))
    {
      threw, ok := RunCommand(Stop);
      if threw || !ok {
        return;
      }
      threw, ok := SaveLayered();
    }

    /** The layer first, if this is the first snapshot. */
    method SaveLayered() returns (threw: bool, ok: bool)
      modifies this`log, this`clock, this`keyboard, this`engine, this`paused, this`unanswered,
               this`layered, this`savedAt
      ensures Out(Now(), threw, ok) == LayerThenSave(world, old(Now()))
    {
      if !layered {
        threw, ok := RunCommand(Layer);
        if threw || !ok {
          return;
        }
        layered := true;
      }
      threw, ok := TakeSnapshot();
    }

    method TakeSnapshot() returns (threw: bool, ok: bool)
      modifies this`log, this`clock, this`keyboard, this`engine, this`paused, this`unanswered, this`savedAt
      ensures Out(Now(), threw, ok) == SaveSnapshot(world, old(Now()))
    {
      threw, ok := RunCommand(SaveVm);
      if threw {
        return;
      }
      if ok {
        savedAt := Some(clock);
      } else {
        threw, ok := RunCommand(InfoSnapshots);
        if threw {
          return;
        }
        if !ok || !engine.slot {
          savedAt := None;
        }
        ok := false;
      }
    }

    /** `checkpoint` up to its finally. */
    method CheckpointTry() returns (threw: bool, ok: bool)
      modifies this`log, this`clock, this`keyboard, this`switches, this`engine,
               this`paused, this`unanswered, this`layered, this`savedAt
      ensures Out(Now(), threw, ok) == CheckpointBody(world, old(Now()))
    {
      threw, ok := TypeLine(Prompt);
      if threw || !ok {
        return;
      }
      threw, ok := SaveInMonitor();
      if threw {
        return;
      }
      var saved := ok;
      threw, ok := LeaveMonitor(true);
      if threw {
        return;
      }
      ok := saved && ok;
      if !paused {
        var ran;
        threw, ran := TypeLine(Sync);
        if threw {
          ok := ran;
        }
      }
    }

    /** The finally of both: leave once more, and let go of the console even if that throws. */
    method LetGo(bodyThrew: bool, bodyOk: bool, resume: bool) returns (threw: bool, ok: bool)
      modifies this
      ensures Out(Now(), threw, ok) ==
              Release(Out(old(Now()), bodyThrew, bodyOk), Leave(world, old(Now()), resume))
    {
      var left;
      threw, left := LeaveMonitor(resume);
      busy := false;
      ok := bodyOk && !bodyThrew && !threw;
      threw := bodyThrew || threw;
    }

    /** `checkpoint`: whatever happens, the monitor is left again and `busy` let go of. */
    method DoCheckpoint() returns (threw: bool, ok: bool)
      modifies this
      ensures Out(Now(), threw, ok) == TakeCheckpoint(world, old(Now()))
    {
      if busy {
        return false, false;
      }
      busy := true;
      threw, ok := CheckpointTry();
      threw, ok := LetGo(threw, ok, true);
    }

    /** From the switch in to the loadvm; `resumable` is false from when that is sent
        until it answers cleanly. */
    method LoadInMonitor() returns (threw: bool, ok: bool, resumable: bool)
      modifies this`log, this`clock, this`keyboard, this`switches, this`engine, this`paused, this`unanswered
      ensures Going(Out(Now(), threw, ok), resumable) == Loading(world, old(Now()))
    {
      resumable := true;
      threw, ok := SwitchSide();
      if threw || !ok {
        return;
      }
      threw, ok := RunCommand(Stop);
      if threw || !ok {
        return;
      }
      resumable := false;
      threw, ok := RunCommand(LoadVm);
      if !threw && ok {
        resumable := true;
      }
    }

    method RollbackTry() returns (threw: bool, ok: bool, resumable: bool)
      modifies this`log, this`clock, this`keyboard, this`switches, this`engine, this`paused, this`unanswered
      ensures Going(Out(Now(), threw, ok), resumable) == RollbackBody(world, old(Now()))
    {
      threw, ok, resumable := LoadInMonitor();
      if threw {
        return;
      }
      var loaded := ok;
      threw, ok := LeaveMonitor(resumable);
      ok := loaded && ok;
      if threw || !ok {
        return;
      }
      var prompt;
      threw, prompt := TypeLine(Prompt);
      if !threw && prompt {
        threw, prompt := TypeLine(Sync);
      }
    }

    /** `rollback`. */
    method DoRollback() returns (threw: bool, ok: bool)
      modifies this
      ensures Out(Now(), threw, ok) == Rollback(world, old(Now()))
    {
      if busy || savedAt.None? {
        return false, false;
      }
      busy := true;
      var resumable;
      threw, ok, resumable := RollbackTry();
      threw, ok := LetGo(threw, ok, resumable);
    }
  }
}
