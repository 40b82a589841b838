/** The wire types of section 5 of RFC 4251 that the certificate builder uses: uint32, uint64 and string. */
module SshWire {
  import opened Prelude

  type Byte = b: int | 0 <= b < 256
  type Bytes = seq<Byte>

  const LIMIT32 := 0x1_0000_0000
  const LIMIT64 := 0x1_0000_0000_0000_0000

  function Power256(n: nat): nat {
    if n == 0 then 1 else 256 * Power256(n - 1)
  }

  /** Big-endian encoding in exactly width bytes. */
  function BigEndian(value: nat, width: nat): Bytes {
    if width == 0 then [] else BigEndian(value / 256, width - 1) + [value % 256]
  }

  function Value(bytes: Bytes): nat {
    if bytes == [] then 0 else 256 * Value(bytes[..|bytes| - 1]) + bytes[|bytes| - 1]
  }

  lemma ValueAppended(front: Bytes, last: Byte)
    ensures Value(front + [last]) == 256 * Value(front) + last
  {
    assert (front + [last])[..|front|] == front;
  }

  lemma {:induction false} EncodedValue(value: nat, width: nat)
    requires value < Power256(width)
    ensures |BigEndian(value, width)| == width && Value(BigEndian(value, width)) == value
  {
    if width == 0 {
    } else {
      var front := BigEndian(value / 256, width - 1);
      EncodedValue(value / 256, width - 1);
      ValueAppended(front, value % 256);
    }
  }

  lemma {:induction false} ValueEncoded(bytes: Bytes)
    ensures Value(bytes) < Power256(|bytes|) && BigEndian(Value(bytes), |bytes|) == bytes
  {
    if bytes == [] {
    } else {
      ValueEncoded(bytes[..|bytes| - 1]);
    }
  }

  lemma Powers()
    ensures Power256(4) == LIMIT32 && Power256(8) == LIMIT64
  {
    assert Power256(2) == 0x1_0000;
    assert Power256(4) == 256 * (256 * Power256(2));
    assert Power256(6) == 256 * (256 * Power256(4));
    assert Power256(8) == 256 * (256 * Power256(6));
  }

  /** struct.pack raises when the value does not fit. */
  function Pack(value: int, width: nat): Option<Bytes> {
    if 0 <= value < Power256(width) then Some(BigEndian(value, width)) else None
  }

  function PackString(s: Bytes): Option<Bytes> {
    var length :- Pack(|s|, 4);
    Some(length + s)
  }

  // ----- decoding -----

  /** A parsed value and the bytes after it. */
  datatype Parsed<+T> = Parsed(value: T, rest: Bytes)

  function Unpack(width: nat, input: Bytes): Option<Parsed<nat>> {
    if |input| < width then None else Some(Parsed(Value(input[..width]), input[width..]))
  }

  function UnpackString(input: Bytes): (r: Option<Parsed<Bytes>>)
    ensures r.Some? ==> |r.value.rest| + |r.value.value| + 4 == |input|
  {
    var Parsed(length, rest) :- Unpack(4, input);
    if |rest| < length then None else Some(Parsed(rest[..length], rest[length..]))
  }

  /** Unpacking inverts packing, and accepts nothing else. */
  lemma UnpackIffPacked(width: nat, input: Bytes, value: nat, rest: Bytes)
    ensures Unpack(width, input) == Some(Parsed(value, rest)) <==>
            (value < Power256(width) && input == BigEndian(value, width) + rest)
  {
    if |input| >= width {
      ValueEncoded(input[..width]);
      assert input == input[..width] + input[width..];
    }
    if value < Power256(width) && input == BigEndian(value, width) + rest {
      EncodedValue(value, width);
      assert input[..width] == BigEndian(value, width) && input[width..] == rest;
    }
  }

  lemma StringIffPacked(input: Bytes, s: Bytes, rest: Bytes)
    ensures UnpackString(input) == Some(Parsed(s, rest)) <==>
            (PackString(s).Some? && input == PackString(s).value + rest)
  {
    var after := s + rest;
    UnpackIffPacked(4, input, |s|, after);
    assert BigEndian(|s|, 4) + after == (BigEndian(|s|, 4) + s) + rest;
    assert after[..|s|] == s && after[|s|..] == rest;
    if UnpackString(input) == Some(Parsed(s, rest)) {
      assert Unpack(4, input).value.rest == after;
    }
  }

  /** A fixed-width number followed by rest, in the form the certificate proofs use. */
  lemma NumberIffPacked(width: nat, input: Bytes, value: int, rest: Bytes)
    ensures (value >= 0 && Unpack(width, input) == Some(Parsed(value, rest))) <==>
            (Pack(value, width).Some? && input == Pack(value, width).value + rest)
  {
    if value >= 0 {
      UnpackIffPacked(width, input, value, rest);
    }
  }

  lemma OneMoreByte(front: nat, last: Byte, width: nat)
    requires width > 0
    ensures BigEndian(front * 256 + last, width) == BigEndian(front, width - 1) + [last]
  {
    assert (front * 256 + last) / 256 == front;
  }

  /** The most significant byte comes first. */
  lemma NumberBytes(a: Byte, b: Byte, c: Byte, d: Byte)
    ensures BigEndian(((a * 256 + b) * 256 + c) * 256 + d, 4) == [a, b, c, d]
  {
    var two := a * 256 + b;
    var three := two * 256 + c;
    OneMoreByte(three, d, 4);
    OneMoreByte(two, c, 3);
    OneMoreByte(a, b, 2);
    OneMoreByte(0, a, 1);
  }

  /** A string is its length in four bytes and then its bytes; a longer one cannot be packed. */
  lemma StringBytes(s: Bytes)
    ensures PackString(s) == if |s| < 0x1_0000_0000 then Some(BigEndian(|s|, 4) + s) else None
  {
    Powers();
  }
}
