/** File identities as bytes: a tag, then fixed-width little-endian numbers. */
module FileIdCodec {
  import opened Outcomes
  import opened LittleEndian

  type U32 = n: nat | n < 0x1_0000_0000
  type U64 = n: nat | n < 0x1_0000_0000_0000_0000
  type U128 = n: nat | n < 0x1_0000_0000_0000_0000_0000_0000_0000_0000

  datatype FileId = Inode(device: U64, inode: U64) | LowRes(volume: U32, index: U64) | HighRes(serial: U64, id: U128)

  type Bytes = seq<byte>

  lemma Widths()
    ensures Pow256(4) == 0x1_0000_0000 && Pow256(8) == 0x1_0000_0000_0000_0000
    ensures Pow256(16) == 0x1_0000_0000_0000_0000_0000_0000_0000_0000
  {
    assert Pow256(2) == 0x1_0000;
    assert Pow256(4) == 0x1_0000_0000;
    assert Pow256(6) == 0x1_0000_0000_0000;
    assert Pow256(8) == 0x1_0000_0000_0000_0000;
    assert Pow256(10) == 0x1_0000_0000_0000_0000_0000;
    assert Pow256(12) == 0x1_0000_0000_0000_0000_0000_0000;
    assert Pow256(14) == 0x1_0000_0000_0000_0000_0000_0000_0000;
  }

  function Tag(file: FileId): byte {
    match file
    case Inode(_, _) => 0
    case LowRes(_, _) => 1
    case HighRes(_, _) => 2
  }

  /** The widths of a tag's two numbers. */
  function Fields(tag: byte): Option<(nat, nat)> {
    if tag == 0 then Some((8, 8)) else if tag == 1 then Some((4, 8)) else if tag == 2 then Some((8, 16)) else None
  }

  function First(file: FileId): nat {
    match file
    case Inode(device, _) => device
    case LowRes(volume, _) => volume
    case HighRes(serial, _) => serial
  }

  function Second(file: FileId): nat {
    match file
    case Inode(_, inode) => inode
    case LowRes(_, index) => index
    case HighRes(_, id) => id
  }

  function Encode(file: FileId): Bytes {
    var widths := Fields(Tag(file)).value;
    [Tag(file)] + Le(First(file), widths.0) + Le(Second(file), widths.1)
  }

  /** A buffer that encodings are appended to. */
  class Buffer {
    var bytes: Bytes

    constructor ()
      ensures bytes == []
    {
      bytes := [];
    }

    method Append(file: FileId)
      modifies this
      ensures bytes == old(bytes) + Encode(file)
    {
      match file {
        case Inode(device, inode) =>
          bytes := bytes + [0];
          bytes := bytes + Le(device, 8);
          bytes := bytes + Le(inode, 8);
        case LowRes(volume, index) =>
          bytes := bytes + [1];
          bytes := bytes + Le(volume, 4);
          bytes := bytes + Le(index, 8);
        case HighRes(serial, id) =>
          bytes := bytes + [2];
          bytes := bytes + Le(serial, 8);
          bytes := bytes + Le(id, 16);
      }
    }

    /** Reuses the buffer for one identity. */
    method EncodeInto(file: FileId)
      modifies this
      ensures bytes == Encode(file)
    {
      bytes := [];
      Append(file);
    }
  }

  lemma FieldsFit(file: FileId)
    ensures var widths := Fields(Tag(file)).value;
            First(file) < Pow256(widths.0) && Second(file) < Pow256(widths.1)
  {
    Widths();
  }

  lemma EncodeParts(file: FileId, encoded: Bytes)
    requires Encode(file) <= encoded
    ensures encoded != [] && encoded[0] == Tag(file)
    ensures var widths := Fields(Tag(file)).value; var n := 1 + widths.0 + widths.1;
            && |Encode(file)| == n <= |encoded| && encoded[..n] == Encode(file)
            && encoded[1..1 + widths.0] == Le(First(file), widths.0)
            && encoded[1 + widths.0..n] == Le(Second(file), widths.1)
  {
    var widths := Fields(Tag(file)).value;
    var n := 1 + widths.0 + widths.1;
    assert encoded[..n] == Encode(file);
    assert encoded[1..1 + widths.0] == encoded[..n][1..1 + widths.0];
    assert encoded[1 + widths.0..n] == encoded[..n][1 + widths.0..];
  }

  /** No two identities begin the same bytes: the encoding can be decoded from a prefix. */
  lemma PrefixFree(a: FileId, b: FileId, encoded: Bytes)
    requires Encode(a) <= encoded && Encode(b) <= encoded
    ensures a == b
  {
    EncodeParts(a, encoded);
    EncodeParts(b, encoded);
    FieldsFit(a);
    FieldsFit(b);
    var widths := Fields(Tag(a)).value;
    LeInjective(First(a), First(b), widths.0);
    LeInjective(Second(a), Second(b), widths.1);
  }

  /** Takes a number of so many bytes off the front of the input. */
  method Take(input: Bytes, width: nat) returns (r: Option<(nat, Bytes)>)
    ensures r.None? <==> |input| < width
    ensures r.Some? ==> r.value.0 < Pow256(width) && input == Le(r.value.0, width) + r.value.1
  {
    if |input| < width { return None; }
    FromLeBound(input[..width]);
    LeOfFromLe(input[..width]);
    r := Some((FromLe(input[..width]), input[width..]));
  }

  function Build(tag: byte, first: nat, second: nat): FileId
    requires Fields(tag).Some?
    requires first < Pow256(Fields(tag).value.0) && second < Pow256(Fields(tag).value.1)
  {
    Widths();
    if tag == 0 then Inode(first, second) else if tag == 1 then LowRes(first, second) else HighRes(first, second)
  }

  /** The identity that the bytes begin with, and how many bytes it takes; none exactly when they begin with
      no encoding. */
  method DecodePrefix(encoded: Bytes) returns (r: Option<(FileId, nat)>)
    ensures r.Some? ==> Encode(r.value.0) <= encoded && r.value.1 == |Encode(r.value.0)|
    ensures r.None? ==> forall file :: !(Encode(file) <= encoded)
  {
    forall file | Encode(file) <= encoded
      ensures encoded != [] && encoded[0] == Tag(file)
      ensures var widths := Fields(Tag(file)).value; 1 + widths.0 + widths.1 <= |encoded|
    {
      EncodeParts(file, encoded);
    }
    if encoded == [] { return None; }
    var tag := encoded[0];
    var widths := Fields(tag);
    if widths.None? { return None; }
    var total := 1 + widths.value.0 + widths.value.1;
    if |encoded| < total { return None; }
    var payload := encoded[1..total];
    var first := Take(payload, widths.value.0);
    var second := Take(first.value.1, widths.value.1);
    var file := Build(tag, first.value.0, second.value.0);
    assert second.value.1 == [];
    assert encoded[..total] == [tag] + payload == Encode(file);
    r := Some((file, total));
  }

  /** The identity that the bytes are, exactly when they are an encoding. */
  method Decode(encoded: Bytes) returns (r: Option<FileId>)
    ensures r.Some? ==> encoded == Encode(r.value)
    ensures r.None? ==> forall file :: Encode(file) != encoded
  {
    var decoded := DecodePrefix(encoded);
    if decoded.None? { return None; }
    if decoded.value.1 != |encoded| {
      forall file
        ensures Encode(file) != encoded
      {
        if Encode(file) == encoded { PrefixFree(file, decoded.value.0, encoded); }
      }
      return None;
    }
    r := Some(decoded.value.0);
  }

  /** Decoding an encoding gives the identity back, whatever follows it. */
  method RoundTrip(file: FileId, suffix: Bytes) returns (r: Option<(FileId, nat)>)
    ensures r == Some((file, |Encode(file)|))
  {
    var buffer := new Buffer();
    buffer.Append(file);
    assert Encode(file) <= Encode(file) + suffix;
    r := DecodePrefix(buffer.bytes + suffix);
    PrefixFree(file, r.value.0, Encode(file) + suffix);
  }

  // ---- the order of encodings ----

  datatype Ordering = Less | Equal | Greater

  function CompareBytes(a: byte, b: byte): Ordering {
    if a < b then Less else if a == b then Equal else Greater
  }

  function Then(first: Ordering, second: Ordering): Ordering {
    if first == Equal then second else first
  }

  /** The lexicographic order of byte strings. */
  function Lex(a: Bytes, b: Bytes): Ordering {
    if a == [] && b == [] then Equal
    else if a == [] then Less
    else if b == [] then Greater
    else Then(CompareBytes(a[0], b[0]), Lex(a[1..], b[1..]))
  }

  /** Compares without encoding: the tags first, then the fields as bytes. */
  function CompareByEncoding(left: FileId, right: FileId): Ordering {
    if Tag(left) != Tag(right) then CompareBytes(Tag(left), Tag(right))
    else
      match (left, right)
      case (Inode(d1, i1), Inode(d2, i2)) => Then(Lex(Le(d1, 8), Le(d2, 8)), Lex(Le(i1, 8), Le(i2, 8)))
      case (LowRes(v1, x1), LowRes(v2, x2)) => Then(Lex(Le(v1, 4), Le(v2, 4)), Lex(Le(x1, 8), Le(x2, 8)))
      case (HighRes(s1, i1), HighRes(s2, i2)) => Then(Lex(Le(s1, 8), Le(s2, 8)), Lex(Le(i1, 16), Le(i2, 16)))
  }

  lemma {:induction false} LexConcat(a: Bytes, b: Bytes, c: Bytes, d: Bytes)
    requires |a| == |c|
    ensures Lex(a + b, c + d) == Then(Lex(a, c), Lex(b, d))
  {
    if a == [] {
      assert a + b == b && c + d == d;
    } else {
      LexConcat(a[1..], b, c[1..], d);
      assert (a + b)[1..] == a[1..] + b && (c + d)[1..] == c[1..] + d;
    }
  }

  /** The comparison is the order of the encodings. */
  lemma CompareIsLex(left: FileId, right: FileId)
    ensures CompareByEncoding(left, right) == Lex(Encode(left), Encode(right))
  {
    var l, r := Fields(Tag(left)).value, Fields(Tag(right)).value;
    assert Encode(left) == [Tag(left)] + (Le(First(left), l.0) + Le(Second(left), l.1));
    assert Encode(right) == [Tag(right)] + (Le(First(right), r.0) + Le(Second(right), r.1));
    LexConcat([Tag(left)], Le(First(left), l.0) + Le(Second(left), l.1),
              [Tag(right)], Le(First(right), r.0) + Le(Second(right), r.1));
    assert Lex([Tag(left)], [Tag(right)]) == CompareBytes(Tag(left), Tag(right));
    if Tag(left) == Tag(right) {
      LexConcat(Le(First(left), l.0), Le(Second(left), l.1), Le(First(right), r.0), Le(Second(right), r.1));
    }
  }

  lemma {:induction false} LexEqual(a: Bytes, b: Bytes)
    ensures Lex(a, b) == Equal <==> a == b
  {
    if a != [] && b != [] {
      LexEqual(a[1..], b[1..]);
      assert a == [a[0]] + a[1..] && b == [b[0]] + b[1..];
    }
  }

  lemma {:induction false} LexFlips(a: Bytes, b: Bytes)
    ensures Lex(a, b) == Less <==> Lex(b, a) == Greater
  {
    if a != [] && b != [] {
      LexFlips(a[1..], b[1..]);
      LexEqual(a[1..], b[1..]);
    }
  }

  lemma {:induction false} LexTransitive(a: Bytes, b: Bytes, c: Bytes)
    requires Lex(a, b) == Less && Lex(b, c) == Less
    ensures Lex(a, c) == Less
  {
    if a != [] && b != [] && c != [] {
      if a[0] == b[0] && b[0] == c[0] {
        LexTransitive(a[1..], b[1..], c[1..]);
      }
    }
  }

  /** So it is a total order of identities, in which only the same identity is equal. */
  lemma CompareIsTotalOrder(a: FileId, b: FileId, c: FileId)
    ensures CompareByEncoding(a, b) == Equal <==> a == b
    ensures CompareByEncoding(a, b) == Less <==> CompareByEncoding(b, a) == Greater
    ensures CompareByEncoding(a, b) == Less && CompareByEncoding(b, c) == Less ==> CompareByEncoding(a, c) == Less
  {
    CompareIsLex(a, b);
    CompareIsLex(b, a);
    CompareIsLex(b, c);
    CompareIsLex(a, c);
    LexEqual(Encode(a), Encode(b));
    if Encode(a) == Encode(b) { PrefixFree(a, b, Encode(a)); }
    LexFlips(Encode(a), Encode(b));
    if Lex(Encode(a), Encode(b)) == Less && Lex(Encode(b), Encode(c)) == Less {
      LexTransitive(Encode(a), Encode(b), Encode(c));
    }
  }
}
