/** POSIX cksum: the table-driven form the page computes, against bit-serial long
    division by the generator polynomial, and what it is sure to detect. */
module Cksum {
  import opened Feedback

  type Byte = bv8

  /** The generator x^32 + x^26 + ... + 1, its top bit implied. */
  const POLY: bv32 := 0x04c1_1db7

  const MSB: bv32 := 0x8000_0000

  // ---- words --------------------------------------------------------------

  function Xor(a: bv32, b: bv32): bv32 { a ^ b }

  function Not(a: bv32): bv32 { !a }

  function ShiftLeft(w: bv32): bv32 { w << 1 }

  predicate TopBit(w: bv32) { w & MSB != 0 }

  /** A byte at the top of a word. */
  function Top(b: Byte): bv32 { ToTop(b as bv32) }

  function ToTop(i: bv32): bv32 { i << 24 }

  function ByteUp(c: bv32): bv32 { c << 8 }

  // ---- the reference: dividing the message, bit by bit --------------------

  function Enters(bit: bool): bv32 { if bit then 1 else 0 }

  function ShiftIn(r: bv32, bit: bool): bv32 { (r << 1) | Enters(bit) }

  /** The divisor if the top bit is set, else nothing. */
  function Taken(c: bv32): bv32 { (0 - (c >> 31)) & POLY }

  /** What a bit in the top place takes off. */
  function Acts(bit: bool): bv32 { if bit then POLY else 0 }

  lemma TakenIsDivisor(c: bv32)
    ensures Taken(c) == Acts(TopBit(c))
  {
  }

  /** One step of long division: a bit comes in at the bottom of the remainder, and
      the divisor is taken off if a bit went out at the top. */
  function Divide(r: bv32, bit: bool): bv32 { Xor(ShiftIn(r, bit), Taken(r)) }

  /** The top `n` bits of a word, most significant first. */
  function TopBits(w: bv32, n: nat): seq<bool>
    decreases n
  {
    if n == 0 then [] else [TopBit(w)] + TopBits(ShiftLeft(w), n - 1)
  }

  function Bits(bytes: seq<Byte>): seq<bool> {
    if bytes == [] then [] else TopBits(Top(bytes[0]), 8) + Bits(bytes[1..])
  }

  function Zeros(n: nat): seq<bool> { seq(n, _ => false) }

  function LowOctet(n: nat): Byte { (n % 256) as bv8 }

  /** The length in octets, least significant first, with no leading zeros. */
  function LengthOctets(n: nat): seq<Byte> {
    if n == 0 then [] else [LowOctet(n)] + LengthOctets(n / 256)
  }

  /** POSIX.1-2017, Shell and Utilities, cksum: the remainder of the message, its
      length and 32 zero bits, complemented. */
  function Posix(bytes: seq<Byte>): bv32 {
    Not(Feed(Divide, 0, Bits(bytes + LengthOctets(|bytes|)) + Zeros(32)))
  }

  // ---- what the page computes --------------------------------------------

  function Shift(c: bv32): bv32 { Xor(ShiftLeft(c), Taken(c)) }

  function Shift8(c: bv32): bv32 {
    Shift(Shift(Shift(Shift(Shift(Shift(Shift(Shift(c))))))))
  }

  /** One entry of the table: a byte at the top of the register, shifted out. */
  function Entry(i: bv32): bv32 { Shift8(ToTop(i)) }

  /** One byte through the table. */
  function Step(c: bv32, b: Byte): bv32 { StepWord(c, b as bv32) }

  function StepWord(c: bv32, b: bv32): bv32 { Xor(ByteUp(c), Entry(Index(c, b))) }

  function Index(c: bv32, b: bv32): bv32 { ((c >> 24) ^ b) & 0xff }

  /** The octets `for (n; n; n >>>= 8)` folds in: the first from the whole length, the
      rest from its low 32 bits, which is all an unsigned shift leaves. */
  function FoldedOctets(n: nat): seq<Byte> {
    if n == 0 then [] else [LowOctet(n)] + LengthOctets(n % 0x1_0000_0000 / 256)
  }

  function Checksum(bytes: seq<Byte>): bv32 { Not(Feed(Step, Feed(Step, 0, bytes), FoldedOctets(|bytes|))) }

  method ShiftOnce(c: bv32) returns (r: bv32)
    ensures r == Shift(c)
  {
    TakenIsDivisor(c);
    XorNothing(ShiftLeft(c));
    r := if c & MSB != 0 then Xor(c << 1, POLY) else c << 1;
  }

  method ShiftOut(i: bv32) returns (c: bv32)
    ensures c == Entry(i)
  {
    c := i << 24;
    var n := 8;
    for k := 0 to n
      invariant Iterate(Shift, c, n - k) == Iterate(Shift, ToTop(i), n)
    {
      c := ShiftOnce(c);
    }
    Iterate8(ToTop(i), n);
  }

  ghost predicate Table(t: seq<bv32>) { |t| == 256 && forall i | 0 <= i < 256 :: t[i] == Entry(i as bv32) }

  method MakeTable() returns (t: seq<bv32>)
    ensures Table(t)
  {
    t := [];
    for i := 0 to 256
      invariant |t| == i && forall j | 0 <= j < i :: t[j] == Entry(j as bv32)
    {
      var c := ShiftOut(i as bv32);
      t := t + [c];
    }
  }

  /** One byte folded in by looking the table up. */
  method LookUp(table: seq<bv32>, c: bv32, b: Byte) returns (r: bv32)
    requires Table(table)
    ensures r == Step(c, b)
  {
    var at := Index(c, b as bv32);
    IndexFits(at);
    var entry := table[at as int];
    assert entry == Entry(at);
    r := Xor(ByteUp(c), entry);
  }

  lemma IndexFits(x: bv32)
    requires x & 0xff == x
    ensures x as int < 256 && (x as int) as bv32 == x
  {
  }

  method FoldBytes(table: seq<bv32>, c: bv32, bytes: seq<Byte>) returns (r: bv32)
    requires Table(table)
    ensures r == Feed(Step, c, bytes)
  {
    r := c;
    for i := 0 to |bytes|
      invariant Feed(Step, r, bytes[i..]) == Feed(Step, c, bytes)
    {
      assert bytes[i..][1..] == bytes[i + 1..];
      r := LookUp(table, r, bytes[i]);
    }
  }

  /** The length octet by octet, each taken off by an unsigned shift. */
  method FoldLength(table: seq<bv32>, c: bv32, length: nat) returns (r: bv32)
    requires Table(table)
    ensures r == Feed(Step, c, FoldedOctets(length))
  {
    r := c;
    if length == 0 {
      return;
    }
    r := LookUp(table, r, LowOctet(length));
    var n: nat := length % 0x1_0000_0000 / 256;
    OctetShrinks(length);
    ghost var first := r;
    FeedOne(c, LowOctet(length), LengthOctets(n));
    while n != 0
      invariant n < 0x100_0000
      invariant Feed(Step, r, LengthOctets(n)) == Feed(Step, first, LengthOctets(length % 0x1_0000_0000 / 256))
      decreases n
    {
      OctetShrinks(n);
      FeedOne(r, LowOctet(n), LengthOctets(n / 256));
      r := LookUp(table, r, LowOctet(n));
      n := n % 0x1_0000_0000 / 256;
    }
  }

  lemma FeedOne(c: bv32, b: Byte, rest: seq<Byte>)
    ensures Feed(Step, c, [b] + rest) == Feed(Step, Step(c, b), rest)
  {
    assert ([b] + rest)[1..] == rest;
  }

  lemma OctetShrinks(n: nat)
    requires n != 0
    ensures n % 0x1_0000_0000 / 256 < 0x100_0000 && n % 0x1_0000_0000 / 256 < n
    ensures n < 0x1_0000_0000 ==> n % 0x1_0000_0000 == n
  {
    var m := n % 0x1_0000_0000;
    assert m <= n;
    assert 256 * (m / 256) <= m;
  }

  method Compute(bytes: seq<Byte>) returns (sum: bv32)
    ensures sum == Checksum(bytes)
  {
    var table := MakeTable();
    var c := FoldBytes(table, 0, bytes);
    c := FoldLength(table, c, |bytes|);
    sum := Not(c);
  }

  // ---- one shift ----------------------------------------------------------

  lemma LeftLinear(a: bv32, b: bv32)
    ensures ShiftLeft(Xor(a, b)) == Xor(ShiftLeft(a), ShiftLeft(b))
  {
  }

  lemma TopBitLinear(a: bv32, b: bv32)
    ensures TopBit(Xor(a, b)) <==> TopBit(a) != TopBit(b)
  {
  }

  lemma ActsLinear(x: bool, y: bool, z: bool)
    requires z <==> x != y
    ensures Acts(z) == Xor(Acts(x), Acts(y))
  {
  }

  lemma TakenLinear(a: bv32, b: bv32)
    ensures Taken(Xor(a, b)) == Xor(Taken(a), Taken(b))
  {
    TakenIsDivisor(a);
    TakenIsDivisor(b);
    TakenIsDivisor(Xor(a, b));
    TopBitLinear(a, b);
    ActsLinear(TopBit(a), TopBit(b), TopBit(Xor(a, b)));
  }

  lemma XorCommutes(a: bv32, b: bv32)
    ensures Xor(a, b) == Xor(b, a)
  {
  }

  lemma XorAssociates(a: bv32, b: bv32, c: bv32)
    ensures Xor(Xor(a, b), c) == Xor(a, Xor(b, c))
  {
  }

  lemma XorSwaps(a: bv32, b: bv32, c: bv32, d: bv32)
    ensures Xor(Xor(a, b), Xor(c, d)) == Xor(Xor(a, c), Xor(b, d))
  {
    XorAssociates(a, b, Xor(c, d));
    XorAssociates(b, c, d);
    XorCommutes(b, c);
    XorAssociates(c, b, d);
    XorAssociates(a, c, Xor(b, d));
  }

  lemma ShiftLinear(a: bv32, b: bv32)
    ensures Shift(Xor(a, b)) == Xor(Shift(a), Shift(b))
  {
    LeftLinear(a, b);
    TakenLinear(a, b);
    XorSwaps(ShiftLeft(a), ShiftLeft(b), Taken(a), Taken(b));
  }

  lemma ZeroStays(c: bv32)
    ensures Shift(c) == 0 <==> c == 0
  {
  }

  lemma XorNothing(a: bv32)
    ensures Xor(a, 0) == a && Xor(a, a) == 0
  {
  }

  lemma XorZero(a: bv32, b: bv32)
    ensures Xor(a, b) == 0 <==> a == b
  {
    XorNothing(a);
    XorNothing(b);
    XorAssociates(a, b, b);
    XorCommutes(0, b);
  }

  lemma ShiftIsLinear()
    ensures Linear(Shift, Xor)
  {
    forall a, b
      ensures Shift(Xor(a, b)) == Xor(Shift(a), Shift(b))
    {
      ShiftLinear(a, b);
    }
  }

  /** No two registers shift to the same one: the divisor's last bit is set. */
  lemma ShiftIsInjective()
    ensures Injective(Shift)
  {
    forall a, b | Shift(a) == Shift(b)
      ensures a == b
    {
      ShiftLinear(a, b);
      XorZero(Shift(a), Shift(b));
      ZeroStays(Xor(a, b));
      XorZero(a, b);
    }
  }

  // ---- the division, fed from the top ------------------------------------

  function AtTop(bit: bool): bv32 { if bit then MSB else 0 }

  /** A bit added at the top of the register instead of shifted in below. */
  function Direct(c: bv32, bit: bool): bv32 { Shift(Xor(c, AtTop(bit))) }

  lemma InIsXor(r: bv32, bit: bool)
    ensures ShiftIn(r, bit) == Xor(ShiftLeft(r), Enters(bit))
  {
  }

  lemma XorMoves(a: bv32, b: bv32, c: bv32)
    ensures Xor(Xor(a, b), c) == Xor(Xor(a, c), b)
  {
    XorAssociates(a, b, c);
    XorCommutes(b, c);
    XorAssociates(a, c, b);
  }

  lemma DivideParts(r: bv32, bit: bool)
    ensures Divide(r, bit) == Xor(Shift(r), Enters(bit))
  {
    InIsXor(r, bit);
    XorMoves(ShiftLeft(r), Enters(bit), Taken(r));
  }

  lemma TopActs(bit: bool)
    ensures Shift(AtTop(bit)) == Acts(bit)
  {
  }

  lemma DirectParts(c: bv32, bit: bool)
    ensures Direct(c, bit) == Xor(Shift(c), Acts(bit))
  {
    ShiftLinear(c, AtTop(bit));
    TopActs(bit);
  }

  lemma {:induction false} ZeroThrough(n: nat)
    ensures Iterate(Shift, 0, n) == 0
  {
    ZeroStays(0);
    if n > 0 {
      ZeroThrough(n - 1);
    }
  }

  /** A lone one bit climbs to the top, and then brings the divisor in. */
  lemma {:induction false} OneClimbs(c: bv32, n: nat)
    requires n <= 31 && c == 1 << (31 - n)
    ensures Iterate(Shift, c, n + 1) == POLY
    decreases n
  {
    if n > 0 {
      Climb(31 - n);
      OneClimbs(Shift(c), n - 1);
    } else {
      assert Iterate(Shift, c, 1) == Shift(c);
    }
  }

  lemma Climb(n: nat)
    requires n < 31
    ensures Shift(1 << n) == 1 << (n + 1)
  {
  }

  lemma EnterThenAct(n: nat, bit: bool)
    requires n == 32
    ensures Iterate(Shift, Enters(bit), n) == Acts(bit)
  {
    if bit {
      OneClimbs(1, n - 1);
    } else {
      ZeroThrough(n);
    }
  }

  lemma DivideZero(r: bv32)
    ensures Divide(r, false) == Shift(r)
  {
    DivideParts(r, false);
    XorNothing(Shift(r));
  }

  lemma {:induction false} ZerosShift(r: bv32, n: nat)
    ensures Feed(Divide, r, Zeros(n)) == Iterate(Shift, r, n)
    decreases n
  {
    if n > 0 {
      DivideZero(r);
      assert Zeros(n)[1..] == Zeros(n - 1);
      ZerosShift(Shift(r), n - 1);
    }
  }

  /** Dividing with 32 zeros appended is feeding the bits in at the top. */
  lemma DivisionIsDirect(bits: seq<bool>, n: nat)
    requires n == 32
    ensures Feed(Divide, 0, bits + Zeros(n)) == Feed(Direct, 0, bits)
  {
    hide Shift, Divide, Direct, Enters, Acts, Xor;
    FeedConcat(Divide, 0, bits, Zeros(n));
    ZerosShift(Feed(Divide, 0, bits), n);
    ShiftIsLinear();
    DividesByParts();
    DirectByParts();
    EntersThenActs(n);
    ZeroThrough(n);
    DirectIsDivision(Shift, Xor, Divide, Direct, Enters, Acts, 0, bits, n);
  }

  lemma DividesByParts()
    ensures forall c, b :: Divide(c, b) == Xor(Shift(c), Enters(b))
  {
    forall c, b ensures Divide(c, b) == Xor(Shift(c), Enters(b)) {
      DivideParts(c, b);
    }
  }

  lemma DirectByParts()
    ensures forall c, b :: Direct(c, b) == Xor(Shift(c), Acts(b))
  {
    forall c, b ensures Direct(c, b) == Xor(Shift(c), Acts(b)) {
      DirectParts(c, b);
    }
  }

  lemma EntersThenActs(n: nat)
    requires n == 32
    ensures forall b :: Iterate(Shift, Enters(b), n) == Acts(b)
  {
    forall b ensures Iterate(Shift, Enters(b), n) == Acts(b) {
      EnterThenAct(n, b);
    }
  }

  // ---- a byte at a time ---------------------------------------------------

  lemma DirectPeels(c: bv32, w: bv32)
    ensures Shift(Xor(c, w)) == Xor(Direct(c, TopBit(w)), ShiftLeft(w))
  {
    ShiftLinear(c, w);
    DirectParts(c, TopBit(w));
    TakenIsDivisor(w);
    XorTurns(Shift(c), ShiftLeft(w), Taken(w));
  }

  lemma XorTurns(a: bv32, b: bv32, c: bv32)
    ensures Xor(a, Xor(b, c)) == Xor(Xor(a, c), b)
  {
    XorCommutes(b, c);
    XorAssociates(a, c, b);
  }

  /** Feeding in the top bits of a word is adding the word and shifting them out. */
  lemma {:induction false} WordAtOnce(c: bv32, w: bv32, n: nat)
    ensures Xor(Feed(Direct, c, TopBits(w, n)), Iterate(ShiftLeft, w, n)) == Iterate(Shift, Xor(c, w), n)
    decreases n
  {
    if n > 0 {
      DirectPeels(c, w);
      WordAtOnce(Direct(c, TopBit(w)), ShiftLeft(w), n - 1);
    }
  }

  lemma Iterate8(c: bv32, n: nat)
    requires n == 8
    ensures Iterate(Shift, c, n) == Shift8(c)
  {
    assert Iterate(Shift, c, n) == Iterate(Shift, Shift(Shift(c)), n - 2);
    assert Iterate(Shift, Shift(Shift(c)), n - 2) == Iterate(Shift, Shift(Shift(Shift(Shift(c)))), n - 4);
    var d := Shift(Shift(Shift(Shift(c))));
    assert Iterate(Shift, d, n - 4) == Iterate(Shift, Shift(Shift(d)), n - 6);
  }

  /** A register whose top byte is clear shifts a byte left with no division. */
  lemma ClearTop(c: bv32)
    requires c >> 24 == 0
    ensures Shift8(c) == ByteUp(c)
  {
  }

  lemma Shift8Linear(a: bv32, b: bv32, n: nat)
    requires n == 8
    ensures Shift8(Xor(a, b)) == Xor(Shift8(a), Shift8(b))
  {
    ShiftIsLinear();
    IterateLinear(Shift, Xor, a, b, n);
    Iterate8(a, n);
    Iterate8(b, n);
    Iterate8(Xor(a, b), n);
  }

  function Rest(c: bv32): bv32 { c & 0xff_ffff }

  lemma TopAndRest(c: bv32, b: bv32)
    ensures Rest(c) >> 24 == 0 && ByteUp(Rest(c)) == ByteUp(c)
    ensures Xor(Rest(c), ToTop(Index(c, b))) == Xor(c, ToTop(b))
  {
  }

  lemma StepWordShifts(c: bv32, b: bv32)
    ensures StepWord(c, b) == Shift8(Xor(c, ToTop(b)))
  {
    TopAndRest(c, b);
    ClearTop(Rest(c));
    Shift8Linear(Rest(c), ToTop(Index(c, b)), 8);
  }

  /** The table's step is eight shifts of the register with the byte at its top. */
  lemma StepIsShift8(c: bv32, b: Byte)
    ensures Step(c, b) == Shift8(Xor(c, Top(b)))
  {
    StepWordShifts(c, b as bv32);
  }

  lemma StepIsShifts(c: bv32, b: Byte, n: nat)
    requires n == 8
    ensures Step(c, b) == Iterate(Shift, Xor(c, Top(b)), n)
  {
    StepIsShift8(c, b);
    Iterate8(Xor(c, Top(b)), n);
  }

  lemma EightLeft(w: bv32, n: nat)
    requires n == 8
    ensures Iterate(ShiftLeft, w, n) == w << 8
  {
    var a := ShiftLeft(ShiftLeft(w));
    var b := ShiftLeft(ShiftLeft(a));
    var c := ShiftLeft(ShiftLeft(b));
    assert Iterate(ShiftLeft, w, n) == Iterate(ShiftLeft, a, n - 2);
    assert Iterate(ShiftLeft, a, n - 2) == Iterate(ShiftLeft, b, n - 4);
    assert Iterate(ShiftLeft, b, n - 4) == Iterate(ShiftLeft, c, n - 6);
  }

  lemma ByteGone(b: Byte, n: nat)
    requires n == 8
    ensures Iterate(ShiftLeft, Top(b), n) == 0
  {
    EightLeft(Top(b), n);
  }

  lemma NothingLeft(a: bv32, left: bv32, b: bv32)
    requires Xor(a, left) == b && left == 0
    ensures a == b
  {
    XorNothing(a);
  }

  lemma StepIsDirect(c: bv32, b: Byte, n: nat)
    requires n == 8
    ensures Step(c, b) == Feed(Direct, c, TopBits(Top(b), n))
  {
    var w := Top(b);
    StepIsShifts(c, b, n);
    WordAtOnce(c, w, n);
    ByteGone(b, n);
    NothingLeft(Feed(Direct, c, TopBits(w, n)), Iterate(ShiftLeft, w, n), Iterate(Shift, Xor(c, w), n));
  }

  lemma {:induction false} StepsAreDirect(c: bv32, bytes: seq<Byte>, n: nat)
    requires n == 8
    ensures Feed(Step, c, bytes) == Feed(Direct, c, Bits(bytes))
    decreases |bytes|
  {
    if bytes != [] {
      var bits := TopBits(Top(bytes[0]), n);
      StepIsDirect(c, bytes[0], n);
      StepsAreDirect(Step(c, bytes[0]), bytes[1..], n);
      FeedConcat(Direct, c, bits, Bits(bytes[1..]));
    }
  }

  lemma RemainderIsSteps(all: seq<Byte>, n: nat)
    requires n == 32
    ensures Feed(Divide, 0, Bits(all) + Zeros(n)) == Feed(Step, 0, all)
  {
    StepsAreDirect(0, all, 8);
    DivisionIsDirect(Bits(all), n);
  }

  /** The page's checksum is the POSIX one when it folds in the octets POSIX asks for. */
  lemma TableIsDivision(bytes: seq<Byte>)
    requires FoldedOctets(|bytes|) == LengthOctets(|bytes|)
    ensures Checksum(bytes) == Posix(bytes)
  {
    FeedConcat(Step, 0, bytes, LengthOctets(|bytes|));
    RemainderIsSteps(bytes + LengthOctets(|bytes|), 32);
  }

  lemma {:induction false} OctetCount(n: nat, k: nat, bound: nat)
    requires bound == Power256(k)
    ensures n < bound <==> |LengthOctets(n)| <= k
    decreases k
  {
    if n > 0 {
      assert n == 256 * (n / 256) + n % 256;
      assert |LengthOctets(n)| == 1 + |LengthOctets(n / 256)|;
      if k > 0 {
        var p := Power256(k - 1);
        assert n / 256 < p <==> n < 256 * p;
        OctetCount(n / 256, k - 1, Power256(k - 1));
      }
    }
  }

  function Power256(k: nat): (r: nat)
    ensures r >= 1
  {
    if k == 0 then 1 else 256 * Power256(k - 1)
  }

  /** And that is for every length below 2^32, no more: the unsigned shift has no
      fifth octet to give. */
  lemma FoldsPosixOctets(n: nat)
    ensures FoldedOctets(n) == LengthOctets(n) <==> n < 0x1_0000_0000
  {
    assert Power256(4) == 0x1_0000_0000 && Power256(3) == 0x100_0000;
    OctetCount(n, 4, 0x1_0000_0000);
    if n > 0 {
      OctetShrinks(n);
      OctetCount(n % 0x1_0000_0000 / 256, 3, 0x100_0000);
    }
  }

  // ---- what it detects ----------------------------------------------------

  lemma XorCancels(a: bv32, b: bv32, w: bv32)
    requires Xor(a, w) == Xor(b, w)
    ensures a == b
  {
    XorSwaps(a, w, b, w);
    XorZero(Xor(a, w), Xor(b, w));
    XorNothing(w);
    XorNothing(Xor(a, b));
    XorZero(a, b);
  }

  lemma StepInjective(a: bv32, b: bv32, byte: Byte)
    requires Step(a, byte) == Step(b, byte)
    ensures a == b
  {
    var n := 8;
    StepIsShifts(a, byte, n);
    StepIsShifts(b, byte, n);
    ShiftIsInjective();
    IterateInjective(Shift, Xor(a, Top(byte)), Xor(b, Top(byte)), n);
    XorCancels(a, b, Top(byte));
  }

  lemma StepsInjective(a: bv32, b: bv32, bytes: seq<Byte>)
    requires Feed(Step, a, bytes) == Feed(Step, b, bytes)
    ensures a == b
  {
    forall x, y, i | Step(x, i) == Step(y, i)
      ensures x == y
    {
      StepInjective(x, y, i);
    }
    FeedInjective(Step, a, b, bytes);
  }

  function Down(w: bv32): bv32 { w >> 8 }

  /** Up to four bytes, packed from the top of a word. */
  function Packed(bytes: seq<Byte>): bv32 { Pack(Xor, Top, Down, 0, bytes) }

  lemma PackOne(b: Byte, w: bv32)
    ensures w & 0xff == 0 ==> Xor(Top(b), Down(w)) & 0 == 0
    ensures w & 0xffff == 0 ==> Xor(Top(b), Down(w)) & 0xff == 0
    ensures w & 0xff_ffff == 0 ==> Xor(Top(b), Down(w)) & 0xffff == 0
    ensures w == 0 ==> Xor(Top(b), Down(w)) & 0xff_ffff == 0
  {
  }

  lemma {:induction false} PackedLow(bytes: seq<Byte>)
    ensures |bytes| <= 3 ==> Packed(bytes) & 0xff == 0
    ensures |bytes| <= 2 ==> Packed(bytes) & 0xffff == 0
    ensures |bytes| <= 1 ==> Packed(bytes) & 0xff_ffff == 0
  {
    if bytes != [] {
      PackedLow(bytes[1..]);
      PackOne(bytes[0], Packed(bytes[1..]));
    }
  }

  lemma DownClears(w: bv32)
    requires w & 0xff == 0
    ensures Down(w) >> 24 == 0 && ByteUp(Down(w)) == w
  {
  }

  lemma PackedShiftsUp(bytes: seq<Byte>, n: nat)
    requires |bytes| < 4 && n == 8
    ensures Iterate(Shift, Down(Packed(bytes)), n) == Packed(bytes)
  {
    PackedLow(bytes);
    DownClears(Packed(bytes));
    ClearTop(Down(Packed(bytes)));
    Iterate8(Down(Packed(bytes)), n);
  }

  lemma XorIsAssociative()
    ensures Associative(Xor)
  {
    forall x, y, z
      ensures Xor(Xor(x, y), z) == Xor(x, Xor(y, z))
    {
      XorAssociates(x, y, z);
    }
  }

  lemma ZeroIsNeutral()
    ensures Neutral(Xor, 0)
  {
    forall x
      ensures Xor(x, 0) == x
    {
      XorNothing(x);
    }
  }

  lemma StepIsByShifts(n: nat)
    requires n == 8
    ensures StepsBy(Shift, Xor, Step, Top, n)
  {
    forall x, b
      ensures Step(x, b) == Iterate(Shift, Xor(x, Top(b)), n)
    {
      StepIsShifts(x, b, n);
    }
  }

  lemma WordsComeUp(n: nat)
    requires n == 8
    ensures ComesUp(Shift, Xor, Top, Down, 0, n, 4)
  {
    forall s: seq<Byte> | |s| < 4
      ensures Iterate(Shift, Down(Pack(Xor, Top, Down, 0, s)), n) == Pack(Xor, Top, Down, 0, s)
    {
      PackedShiftsUp(s, n);
    }
  }

  /** A window of up to four bytes acts on the register as one word does. */
  lemma WindowAtOnce(c: bv32, bytes: seq<Byte>, n: nat)
    requires |bytes| <= 4 && n == 8
    ensures Feed(Step, c, bytes) == Iterate(Shift, Xor(c, Packed(bytes)), n * |bytes|)
  {
    ShiftIsLinear();
    XorIsAssociative();
    ZeroIsNeutral();
    StepIsByShifts(n);
    WordsComeUp(n);
    WindowIsWord(Shift, Xor, Step, Top, Down, 0, c, bytes, n, 4);
  }

  lemma FirstByte(a: Byte, x: bv32, b: Byte, y: bv32)
    requires x & 0xff == 0 && y & 0xff == 0
    requires Xor(Top(a), Down(x)) == Xor(Top(b), Down(y))
    ensures a == b && x == y
  {
  }

  lemma {:induction false} PackedInjective(u: seq<Byte>, v: seq<Byte>)
    requires |u| == |v| <= 4 && Packed(u) == Packed(v)
    ensures u == v
  {
    if u != [] {
      PackedLow(u[1..]);
      PackedLow(v[1..]);
      FirstByte(u[0], Packed(u[1..]), v[0], Packed(v[1..]));
      PackedInjective(u[1..], v[1..]);
      assert u == [u[0]] + u[1..] && v == [v[0]] + v[1..];
    }
  }

  lemma XorCancelsLeft(c: bv32, a: bv32, b: bv32)
    requires Xor(c, a) == Xor(c, b)
    ensures a == b
  {
    XorCommutes(c, a);
    XorCommutes(c, b);
    XorCancels(a, b, c);
  }

  lemma WindowDiffers(c: bv32, u: seq<Byte>, v: seq<Byte>, n: nat)
    requires |u| == |v| <= 4 && n == 8 && Feed(Step, c, u) == Feed(Step, c, v)
    ensures u == v
  {
    WindowAtOnce(c, u, n);
    WindowAtOnce(c, v, n);
    ShiftIsInjective();
    IterateInjective(Shift, Xor(c, Packed(u)), Xor(c, Packed(v)), n * |u|);
    XorCancelsLeft(c, Packed(u), Packed(v));
    PackedInjective(u, v);
  }

  lemma Complement(a: bv32, b: bv32)
    ensures Not(a) == Not(b) ==> a == b
  {
  }

  /** Two inputs of the same length that differ, and only inside a window of four
      consecutive bytes, always get different checksums. */
  lemma WindowDetected(before: seq<Byte>, u: seq<Byte>, v: seq<Byte>, after: seq<Byte>)
    requires |u| == |v| <= 4 && u != v
    ensures Checksum(before + u + after) != Checksum(before + v + after)
  {
    if Checksum(before + u + after) == Checksum(before + v + after) {
      SameRegister(before + u + after, before + v + after);
      SameWindow(before, u, v, after);
    }
  }

  lemma SameRegister(a: seq<Byte>, b: seq<Byte>)
    requires |a| == |b| && Checksum(a) == Checksum(b)
    ensures Feed(Step, 0, a) == Feed(Step, 0, b)
  {
    var octets := FoldedOctets(|a|);
    var x, y := Feed(Step, 0, a), Feed(Step, 0, b);
    Complement(Feed(Step, x, octets), Feed(Step, y, octets));
    StepsInjective(x, y, octets);
  }

  lemma SameWindow(before: seq<Byte>, u: seq<Byte>, v: seq<Byte>, after: seq<Byte>)
    requires |u| == |v| <= 4
    requires Feed(Step, 0, before + u + after) == Feed(Step, 0, before + v + after)
    ensures u == v
  {
    FeedConcat(Step, 0, before + u, after);
    FeedConcat(Step, 0, before + v, after);
    FeedConcat(Step, 0, before, u);
    FeedConcat(Step, 0, before, v);
    var c := Feed(Step, 0, before);
    StepsInjective(Feed(Step, c, u), Feed(Step, c, v), after);
    WindowDiffers(c, u, v, 8);
  }
}
