/** Unsigned integers as fixed-width little-endian bytes. */
module LittleEndian {

  newtype byte = x: int | 0 <= x < 256

  function Pow256(width: nat): nat {
    if width == 0 then 1 else 256 * Pow256(width - 1)
  }

  function Le(value: nat, width: nat): (bytes: seq<byte>)
    ensures |bytes| == width
  {
    if width == 0 then [] else [(value % 256) as byte] + Le(value / 256, width - 1)
  }

  function FromLe(bytes: seq<byte>): nat {
    if bytes == [] then 0 else bytes[0] as nat + 256 * FromLe(bytes[1..])
  }

  lemma {:induction false} FromLeBound(bytes: seq<byte>)
    ensures FromLe(bytes) < Pow256(|bytes|)
  {
    if bytes != [] {
      FromLeBound(bytes[1..]);
    }
  }

  lemma {:induction false} FromLeOfLe(value: nat, width: nat)
    requires value < Pow256(width)
    ensures FromLe(Le(value, width)) == value
  {
    if width > 0 {
      assert Le(value, width)[1..] == Le(value / 256, width - 1);
      FromLeOfLe(value / 256, width - 1);
    }
  }

  lemma {:induction false} LeOfFromLe(bytes: seq<byte>)
    ensures Le(FromLe(bytes), |bytes|) == bytes
  {
    if bytes != [] {
      var value, rest := FromLe(bytes), FromLe(bytes[1..]);
      assert value == bytes[0] as nat + 256 * rest;
      assert value % 256 == bytes[0] as nat && value / 256 == rest;
      LeOfFromLe(bytes[1..]);
    }
  }

  /** Different values of a width have different bytes. */
  lemma LeInjective(a: nat, b: nat, width: nat)
    requires a < Pow256(width) && b < Pow256(width) && Le(a, width) == Le(b, width)
    ensures a == b
  {
    FromLeOfLe(a, width);
    FromLeOfLe(b, width);
  }
}
