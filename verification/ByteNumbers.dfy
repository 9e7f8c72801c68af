/** Numbers below 256 as bytes, written out bit by bit: lengths and addresses are computed
    as numbers and stored as bytes (lvds/lvds_context.c:122-123, tool/epcs.c:233-236). */
module ByteNumbers {
  import opened Counting

  function Bit(b: bool, v: bv8): bv8 {
    if b then v else 0
  }

  function Compose(b0: bool, b1: bool, b2: bool, b3: bool, b4: bool, b5: bool, b6: bool, b7: bool): bv8 {
    Bit(b0, 1) | Bit(b1, 2) | Bit(b2, 4) | Bit(b3, 8) | Bit(b4, 16) | Bit(b5, 32) | Bit(b6, 64) | Bit(b7, 128)
  }

  function Sum(b0: bool, b1: bool, b2: bool, b3: bool, b4: bool, b5: bool, b6: bool, b7: bool): nat {
    One(b0) + 2 * One(b1) + 4 * One(b2) + 8 * One(b3) + 16 * One(b4) + 32 * One(b5) + 64 * One(b6) + 128 * One(b7)
  }

  /** The byte of a number below 256, and the number of a byte. */
  function ByteOf(n: nat): bv8 {
    var h1, h2, h3 := n / 2, n / 2 / 2, n / 2 / 2 / 2;
    var h4, h5, h6 := h3 / 2, h3 / 2 / 2, h3 / 2 / 2 / 2;
    var h7 := h6 / 2;
    Compose(n % 2 == 1, h1 % 2 == 1, h2 % 2 == 1, h3 % 2 == 1, h4 % 2 == 1, h5 % 2 == 1, h6 % 2 == 1, h7 % 2 == 1)
  }

  function NumberOf(b: bv8): nat {
    Sum(b & 1 != 0, b & 2 != 0, b & 4 != 0, b & 8 != 0, b & 16 != 0, b & 32 != 0, b & 64 != 0, b & 128 != 0)
  }

  lemma ComposedNumber(b0: bool, b1: bool, b2: bool, b3: bool, b4: bool, b5: bool, b6: bool, b7: bool)
    ensures NumberOf(Compose(b0, b1, b2, b3, b4, b5, b6, b7)) == Sum(b0, b1, b2, b3, b4, b5, b6, b7)
  {}

  lemma OneOf(n: nat)
    ensures One(n % 2 == 1) == n % 2
  {}

  lemma Binary(n: nat, h1: nat, h2: nat, h3: nat, h4: nat, h5: nat, h6: nat, h7: nat)
    requires n < 256 && h1 == n / 2 && h2 == h1 / 2 && h3 == h2 / 2
    requires h4 == h3 / 2 && h5 == h4 / 2 && h6 == h5 / 2 && h7 == h6 / 2
    ensures n == Sum(n % 2 == 1, h1 % 2 == 1, h2 % 2 == 1, h3 % 2 == 1,
                     h4 % 2 == 1, h5 % 2 == 1, h6 % 2 == 1, h7 % 2 == 1)
  {
    OneOf(n); OneOf(h1); OneOf(h2); OneOf(h3); OneOf(h4); OneOf(h5); OneOf(h6); OneOf(h7);
  }

  lemma ComposedHalves(n: nat, h1: nat, h2: nat, h3: nat, h4: nat, h5: nat, h6: nat, h7: nat)
    requires n < 256 && h1 == n / 2 && h2 == h1 / 2 && h3 == h2 / 2
    requires h4 == h3 / 2 && h5 == h4 / 2 && h6 == h5 / 2 && h7 == h6 / 2
    ensures NumberOf(Compose(n % 2 == 1, h1 % 2 == 1, h2 % 2 == 1, h3 % 2 == 1,
                             h4 % 2 == 1, h5 % 2 == 1, h6 % 2 == 1, h7 % 2 == 1)) == n
  {
    Binary(n, h1, h2, h3, h4, h5, h6, h7);
    ComposedNumber(n % 2 == 1, h1 % 2 == 1, h2 % 2 == 1, h3 % 2 == 1,
                   h4 % 2 == 1, h5 % 2 == 1, h6 % 2 == 1, h7 % 2 == 1);
  }

  lemma NumberOfByte(n: nat)
    requires n < 256
    ensures NumberOf(ByteOf(n)) == n
  {
    var h1, h2, h3 := n / 2, n / 2 / 2, n / 2 / 2 / 2;
    var h4, h5, h6 := h3 / 2, h3 / 2 / 2, h3 / 2 / 2 / 2;
    ComposedHalves(n, h1, h2, h3, h4, h5, h6, h6 / 2);
  }
}
