/** Numbers to words and back. */
module Widths {
  /** Every octet is some word's value: counted up to, one at a time. */
  lemma {:induction false} OctetFound(b: int) returns (w: bv8)
    requires 0 <= b < 256
    ensures w as int == b
  {
    if b == 0 {
      w := 0;
    } else {
      w := OctetFound(b - 1);
      OneMore(w);
      w := w + 1;
    }
  }

  lemma OneMore(w: bv8)
    ensures w as int < 255 ==> (w + 1) as int == w as int + 1
  {}

  lemma ByteBack(w: bv8)
    ensures (w as int) as bv8 == w
  {}

  lemma OctetBack(b: int)
    requires 0 <= b < 256
    ensures (b as bv8) as int == b
  {
    var w := OctetFound(b);
    ByteBack(w);
  }

  lemma WordBack(w: bv32)
    ensures (w as int) as bv32 == w
  {}
}
