/** Bytes, and numbers spelled in them most significant byte first. */
module Octets {
  type byte = b: nat | b < 0x100 witness 0
  type uint16 = n: nat | n < 0x1_0000 witness 0
  type uint32 = n: nat | n < 0x1_0000_0000 witness 0

  function Bytes16(n: uint16): (bs: seq<byte>)
    ensures |bs| == 2
  {
    [n / 0x100, n % 0x100]
  }

  function Bytes32(n: uint32): (bs: seq<byte>)
    ensures |bs| == 4
  {
    Bytes16(n / 0x1_0000) + Bytes16(n % 0x1_0000)
  }

  function Read16(b: seq<byte>, i: nat): (n: uint16)
    requires i + 2 <= |b|
  {
    var high: nat, low: nat := b[i], b[i + 1];
    0x100 * high + low
  }

  function Read32(b: seq<byte>, i: nat): (n: uint32)
    requires i + 4 <= |b|
  {
    var high: nat, low: nat := Read16(b, i), Read16(b, i + 2);
    0x1_0000 * high + low
  }

  /** A numeral in base 256. */
  function Weighed(digits: seq<nat>): nat
  {
    if digits == [] then 0 else 256 * Weighed(digits[..|digits| - 1]) + digits[|digits| - 1]
  }

  /** What is read weighs the bytes by their places, the first the most. */
  lemma MostSignificantFirst(b: seq<byte>, i: nat)
    requires i + 2 <= |b|
    ensures Read16(b, i) == Weighed([b[i], b[i + 1]])
    ensures i + 4 <= |b| ==> Read32(b, i) == Weighed([b[i], b[i + 1], b[i + 2], b[i + 3]])
  {
    var d: seq<nat> := [b[i], b[i + 1]];
    assert d[..1] == [b[i]] && Weighed([]) == 0 && Weighed([b[i]]) == b[i];
    if i + 4 <= |b| {
      var d4: seq<nat> := [b[i], b[i + 1], b[i + 2], b[i + 3]];
      assert d4[..3][..2] == d && d4[..3] == [b[i], b[i + 1], b[i + 2]];
    }
  }

  lemma ReadsBack16(n: uint16, a: seq<byte>, c: seq<byte>)
    ensures Read16(a + Bytes16(n) + c, |a|) == n
  {
    var b := a + Bytes16(n) + c;
    assert b[|a|] == n / 0x100 && b[|a| + 1] == n % 0x100;
  }

  lemma ReadsBack32(n: uint32, a: seq<byte>, c: seq<byte>)
    ensures Read32(a + Bytes32(n) + c, |a|) == n
  {
    var hi, lo: uint16 := n / 0x1_0000, n % 0x1_0000;
    var b := a + Bytes32(n) + c;
    assert b == a + Bytes16(hi) + (Bytes16(lo) + c);
    ReadsBack16(hi, a, Bytes16(lo) + c);
    assert b == (a + Bytes16(hi)) + Bytes16(lo) + c;
    ReadsBack16(lo, a + Bytes16(hi), c);
  }

  lemma SpellsBack16(b: seq<byte>, i: nat)
    requires i + 2 <= |b|
    ensures Bytes16(Read16(b, i)) == b[i..i + 2]
  {
    var high: nat, low: nat := b[i], b[i + 1];
    assert Read16(b, i) / 0x100 == high && Read16(b, i) % 0x100 == low;
  }

  lemma SpellsBack32(b: seq<byte>, i: nat)
    requires i + 4 <= |b|
    ensures Bytes32(Read32(b, i)) == b[i..i + 4]
  {
    var high: nat, low: nat := Read16(b, i), Read16(b, i + 2);
    assert Read32(b, i) / 0x1_0000 == high && Read32(b, i) % 0x1_0000 == low;
    SpellsBack16(b, i);
    SpellsBack16(b, i + 2);
    hide Read16, Bytes16;
    assert b[i..i + 4] == b[i..i + 2] + b[i + 2..i + 4];
  }
}
