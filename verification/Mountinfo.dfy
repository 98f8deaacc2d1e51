/** Paths as the kernel's mount table writes them: some bytes as a backslash and three octal digits (section
    3.5 of the Linux kernel's Documentation/filesystems/proc.rst). */
module Mountinfo {
  import opened Outcomes
  import opened LittleEndian

  type Bytes = seq<byte>

  const BACKSLASH: byte := 92
  const ZERO: byte := 48
  const SEVEN: byte := 55

  datatype Malformed = TruncatedEscape | InvalidEscape | NulEscape

  predicate IsOctal(b: byte) {
    ZERO <= b <= SEVEN
  }

  predicate IsEscape(escape: Bytes) {
    |escape| == 3 && forall b <- escape :: IsOctal(b)
  }

  function DigitOf(escape: Bytes, i: nat): (n: nat)
    requires IsEscape(escape) && i < 3
    ensures n < 8
  {
    assert escape[i] in escape;
    (escape[i] - ZERO) as nat
  }

  /** The number that three octal digits stand for. */
  function EscapeValue(escape: Bytes): nat
    requires IsEscape(escape)
  {
    DigitOf(escape, 0) * 64 + DigitOf(escape, 1) * 8 + DigitOf(escape, 2)
  }

  /** A product or sum of bytes, kept to a byte. */
  function Wrap(n: nat): byte {
    (n % 256) as byte
  }

  /** The value as the decoder computes it, one byte operation after the other. */
  function WrappedValue(escape: Bytes): byte
    requires IsEscape(escape)
  {
    var high := Wrap(DigitOf(escape, 0) * 64);
    var middle := Wrap(DigitOf(escape, 1) * 8);
    Wrap(Wrap(high as nat + middle as nat) as nat + DigitOf(escape, 2))
  }

  /** None of the byte operations leaves the range of a byte exactly when the first digit is at most three. */
  lemma OverflowsAboveThree(escape: Bytes)
    requires IsEscape(escape)
    ensures DigitOf(escape, 0) <= 3 <==>
            && DigitOf(escape, 0) * 64 < 256 && DigitOf(escape, 1) * 8 < 256
            && DigitOf(escape, 0) * 64 + DigitOf(escape, 1) * 8 < 256 && EscapeValue(escape) < 256
    ensures DigitOf(escape, 0) <= 3 <==> WrappedValue(escape) as nat == EscapeValue(escape)
  {
    hide DigitOf, Wrap;
    var d0, d1, d2 := DigitOf(escape, 0), DigitOf(escape, 1), DigitOf(escape, 2);
    if d0 <= 3 {
      WrapKeeps(d0 * 64);
      WrapKeeps(d1 * 8);
      WrapKeeps(d0 * 64 + d1 * 8);
      WrapKeeps(d0 * 64 + d1 * 8 + d2);
    } else {
      assert d0 * 64 + d1 * 8 + d2 >= 256;
    }
  }

  lemma WrapKeeps(n: nat)
    requires n < 256
    ensures Wrap(n) as nat == n
  {
  }

  /** What an encoded path stands for. */
  function Decoded(encoded: Bytes): Answer<Bytes, Malformed> {
    if encoded == [] then Ok([])
    else if encoded[0] != BACKSLASH then Prepend(encoded[0], Decoded(encoded[1..]))
    else if |encoded| < 4 then Err(TruncatedEscape)
    else if !IsEscape(encoded[1..4]) then Err(InvalidEscape)
    else if WrappedValue(encoded[1..4]) == 0 then Err(NulEscape)
    else Prepend(WrappedValue(encoded[1..4]), Decoded(encoded[4..]))
  }

  function Prepend(b: byte, rest: Answer<Bytes, Malformed>): Answer<Bytes, Malformed> {
    if rest.Ok? then Ok([b] + rest.value) else rest
  }

  function Joined(before: Bytes, rest: Answer<Bytes, Malformed>): Answer<Bytes, Malformed> {
    if rest.Ok? then Ok(before + rest.value) else rest
  }

  method Decode(encoded: Bytes) returns (r: Answer<Bytes, Malformed>)
    ensures r == Decoded(encoded)
  {
    var decoded: Bytes := [];
    var index := 0;
    assert encoded[0..] == encoded && forall tail: Bytes :: [] + tail == tail;
    while index < |encoded|
      invariant 0 <= index <= |encoded|
      invariant Decoded(encoded) == Joined(decoded, Decoded(encoded[index..]))
    {
      var b := encoded[index];
      ghost var rest := encoded[index..];
      if b != BACKSLASH {
        assert rest[1..] == encoded[index + 1..];
        assert forall tail: Bytes :: decoded + ([b] + tail) == (decoded + [b]) + tail;
        decoded := decoded + [b];
        index := index + 1;
        continue;
      }
      if index + 4 > |encoded| { return Err(TruncatedEscape); }
      var escape := encoded[index + 1..index + 4];
      assert rest[1..4] == escape && rest[4..] == encoded[index + 4..];
      if !IsEscape(escape) { return Err(InvalidEscape); }
      var value := WrappedValue(escape);
      if value == 0 { return Err(NulEscape); }
      assert forall tail: Bytes :: decoded + ([value] + tail) == (decoded + [value]) + tail;
      decoded := decoded + [value];
      index := index + 4;
    }
    assert encoded[index..] == [] && decoded + [] == decoded;
    r := Ok(decoded);
  }

  function Digit(n: nat): byte
    requires n < 8
  {
    ZERO + n as byte
  }

  function Escaped(b: byte): Bytes {
    [BACKSLASH, Digit(b as nat / 64), Digit(b as nat / 8 % 8), Digit(b as nat % 8)]
  }

  /** How the kernel writes a path: the bytes that it chooses are escaped, the backslash among them. */
  function Encoded(path: Bytes, chosen: byte -> bool): Bytes {
    if path == [] then []
    else (if chosen(path[0]) then Escaped(path[0]) else [path[0]]) + Encoded(path[1..], chosen)
  }

  lemma EscapeReads(b: byte)
    ensures IsEscape(Escaped(b)[1..4]) && WrappedValue(Escaped(b)[1..4]) == b && DigitOf(Escaped(b)[1..4], 0) <= 3
  {
    var n := b as nat;
    assert n == n / 64 * 64 + n / 8 % 8 * 8 + n % 8;
    var escape := Escaped(b)[1..4];
    assert escape[0] == Digit(n / 64) && escape[1] == Digit(n / 8 % 8) && escape[2] == Digit(n % 8);
    OverflowsAboveThree(escape);
  }

  /** The decoder undoes the kernel's escaping of every path without a NUL, whichever bytes are escaped. */
  lemma {:induction false} DecodeUndoesEscaping(path: Bytes, chosen: byte -> bool)
    requires chosen(BACKSLASH) && 0 !in path
    ensures Decoded(Encoded(path, chosen)) == Ok(path)
  {
    if path != [] {
      var rest := Encoded(path[1..], chosen);
      DecodeUndoesEscaping(path[1..], chosen);
      assert path == [path[0]] + path[1..];
      if chosen(path[0]) {
        EscapeReads(path[0]);
        var encoded := Escaped(path[0]) + rest;
        assert encoded[1..4] == Escaped(path[0])[1..4] && encoded[4..] == rest;
      } else {
        assert ([path[0]] + rest)[1..] == rest;
      }
    }
  }

  /** An escape that the kernel never writes, with a first digit above three, is read as another byte, or as the
      NUL that it is not. */
  lemma HighEscapeIsMisread(escape: Bytes)
    requires IsEscape(escape) && DigitOf(escape, 0) > 3
    ensures WrappedValue(escape) as nat != EscapeValue(escape)
    ensures Decoded([BACKSLASH] + escape) ==
            if WrappedValue(escape) == 0 then Err(NulEscape) else Ok([WrappedValue(escape)])
  {
    var encoded := [BACKSLASH] + escape;
    OverflowsAboveThree(escape);
    assert encoded[1..4] == escape && encoded[4..] == [];
    assert [WrappedValue(escape)] + [] == [WrappedValue(escape)];
    assert WrappedValue(escape) != 0 ==> Decoded(encoded) == Prepend(WrappedValue(escape), Decoded(encoded[4..]));
  }
}
