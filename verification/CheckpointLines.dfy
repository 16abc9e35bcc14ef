/** The lines the page types, in full: nothing after the first byte of one means anything
    to the mux. */
module CheckpointLines {
  import opened Decimals
  import opened Options
  import opened Mux
  import opened Checkpoint

  const LAYER := "snapshot_blkdev" + " root " + "/tmp/bashtion-" + "root.qcow2" + " qcow2\r"

  const QUIET := " >/dev/null" + " 2>&1; "

  /** Clock and screen size put right in one line; the size only if the page has one. */
  function SyncLine(time: nat, size: Option<(nat, nat)>): string {
    "sudo date -u -s @" + Decimal(time) + QUIET + "sudo hwclock --systohc" + QUIET
    + (if size.None? then "" else "stty rows " + Decimal(size.value.0) + " cols " + Decimal(size.value.1) + "; ")
    + "clear\r"
  }

  /** The line as it is typed: only the re-sync's depends on anything, the time and the size. */
  function Line(t: Typed, time: nat, size: Option<(nat, nat)>): string {
    match t
    case Stop => "stop\r"
    case Cont => "cont\r"
    case Layer => LAYER
    case SaveVm => "savevm bashtion\r"
    case LoadVm => "loadvm bashtion\r"
    case InfoSnapshots => "info snapshots\r"
    case Prompt => [CTRL_U, '\r']
    case Sync => SyncLine(time, size)
    case SwitchKey => [CTRL_A]
  }

  /** To the mux a line is its first byte: the rest of it has no Ctrl-A. */
  lemma LineMeansFirst(k: Keyboard, t: Typed, time: nat, size: Option<(nat, nat)>)
    requires t != SwitchKey
    ensures Keys(k, Line(t, time, size)) == Key(k, First(t))
  {
    NoCtrlA(t, time, size);
    FirstByteDecides(k, Line(t, time, size));
  }

  lemma NoCtrlA(t: Typed, time: nat, size: Option<(nat, nat)>)
    requires t != SwitchKey
    ensures var line := Line(t, time, size); line != "" && line[0] == First(t) && CTRL_A !in line
  {
    match t {
      case Layer => LayerPlain();
      case Sync => SyncPlain(time, size);
      case _ =>
    }
  }

  lemma LayerPlain()
    ensures CTRL_A !in LAYER && LAYER[0] == 's'
  {
    var a, b, c, d, e := "snapshot_blkdev", " root ", "/tmp/bashtion-", "root.qcow2", " qcow2\r";
    assert CTRL_A !in a && CTRL_A !in b && CTRL_A !in c && CTRL_A !in d && CTRL_A !in e;
    assert CTRL_A !in a + b && CTRL_A !in a + b + c && CTRL_A !in a + b + c + d;
    assert LAYER == a + b + c + d + e;
  }

  lemma Together(a: string, b: string)
    requires CTRL_A !in a && CTRL_A !in b
    ensures CTRL_A !in a + b
  {}

  lemma DigitsPlain(n: nat)
    ensures CTRL_A !in Decimal(n)
  {
    DecimalDigits(n);
  }

  lemma SizePlain(size: (nat, nat))
    ensures CTRL_A !in "stty rows " + Decimal(size.0) + " cols " + Decimal(size.1) + "; "
  {
    DigitsPlain(size.0);
    DigitsPlain(size.1);
    var a := "stty rows " + Decimal(size.0);
    Together("stty rows ", Decimal(size.0));
    Together(a, " cols ");
    Together(a + " cols ", Decimal(size.1));
    Together(a + " cols " + Decimal(size.1), "; ");
  }

  lemma SyncPlain(time: nat, size: Option<(nat, nat)>)
    ensures CTRL_A !in SyncLine(time, size) && SyncLine(time, size)[0] == 's'
  {
    var date, clock := "sudo date -u -s @", "sudo hwclock --systohc";
    var shape := if size.None? then ""
                 else "stty rows " + Decimal(size.value.0) + " cols " + Decimal(size.value.1) + "; ";
    DigitsPlain(time);
    if size.Some? {
      SizePlain(size.value);
    }
    Together(" >/dev/null", " 2>&1; ");
    Together(date, Decimal(time));
    Together(date + Decimal(time), QUIET);
    Together(date + Decimal(time) + QUIET, clock);
    Together(date + Decimal(time) + QUIET + clock, QUIET);
    Together(date + Decimal(time) + QUIET + clock + QUIET, shape);
    Together(date + Decimal(time) + QUIET + clock + QUIET + shape, "clear\r");
  }
}
