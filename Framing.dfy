/**
 * The wire frame of one message:
 *   uint32 big-endian length of the title ++ title bytes ++ payload bytes.
 * Titles are modelled as the bytes that the UTF-8 conversion produces.
 */
module Framing {
  import opened Wrappers

  newtype byte = x: int | 0 <= x < 256
  type Bytes = seq<byte>

  /** The first value that does not fit in an unsigned 32-bit integer. */
  const U32_LIMIT: int := 0x1_0000_0000

  /** Size of the length prefix. */
  const HEADER_SIZE: nat := 4

  datatype CodecError =
    | TitleLengthOutOfRange  // writing a length >= 2^32 with a 32-bit writer
    | FrameTooShort          // reading 4 bytes from a shorter buffer

  /** A decoded message: its title bytes and its payload. */
  datatype Message = Message(title: Bytes, data: Bytes)

  /** Big-endian 4-byte encoding of `n`: most significant byte first. */
  function U32BE(n: nat): (b: Bytes)
    requires n < U32_LIMIT
    ensures |b| == HEADER_SIZE
  {
    var q1 := n / 0x100;
    var q2 := q1 / 0x100;
    [(q2 / 0x100) as byte, (q2 % 0x100) as byte, (q1 % 0x100) as byte, (n % 0x100) as byte]
  }

  /** The unsigned big-endian number held in the first four bytes of `b`. */
  function ReadU32BE(b: Bytes): (n: nat)
    requires |b| >= HEADER_SIZE
    ensures n < U32_LIMIT
  {
    ((b[0] as int * 0x100 + b[1] as int) * 0x100 + b[2] as int) * 0x100 + b[3] as int
  }

  lemma DivMod256(x: nat, r: int)
    requires 0 <= r < 0x100
    ensures (x * 0x100 + r) / 0x100 == x && (x * 0x100 + r) % 0x100 == r
  {
  }

  /** Reading back a written length gives the length. */
  lemma ReadWrittenLength(n: nat)
    requires n < U32_LIMIT
    ensures ReadU32BE(U32BE(n)) == n
  {
    var q1 := n / 0x100;
    var q2 := q1 / 0x100;
    assert n == q1 * 0x100 + n % 0x100;
    assert q1 == q2 * 0x100 + q1 % 0x100;
    assert q2 == (q2 / 0x100) * 0x100 + q2 % 0x100;
  }

  /** Writing a length that was read gives back the four bytes it was read from. */
  lemma WriteReadLength(b: Bytes)
    requires |b| >= HEADER_SIZE
    ensures U32BE(ReadU32BE(b)) == b[..HEADER_SIZE]
  {
    var x1 := b[0] as int * 0x100 + b[1] as int;
    var x2 := x1 * 0x100 + b[2] as int;
    var n := x2 * 0x100 + b[3] as int;
    assert n == ReadU32BE(b);
    DivMod256(x2, b[3] as int);
    DivMod256(x1, b[2] as int);
    DivMod256(b[0] as int, b[1] as int);
    assert U32BE(n) == b[..HEADER_SIZE];
  }

  /**
   * Encodes one message. Fails only when the title length cannot be written as
   * an unsigned 32-bit number.
   */
  function Encode(title: Bytes, data: Bytes): (r: Result<Bytes, CodecError>)
    ensures r.Failure? <==> |title| >= U32_LIMIT
    ensures r.Failure? ==> r.error == TitleLengthOutOfRange
    ensures r.Success? ==> |r.value| == HEADER_SIZE + |title| + |data|
  {
    if |title| >= U32_LIMIT then Failure(TitleLengthOutOfRange)
    else Success(U32BE(|title|) + title + data)
  }

  /**
   * Decodes one received buffer. Only a buffer too short to hold the length
   * fails. A declared title length larger than what follows is clamped to the
   * available bytes (slicing past the end is not an error), and the payload is
   * then empty.
   */
  function Decode(b: Bytes): (r: Result<Message, CodecError>)
    ensures r.Failure? <==> |b| < HEADER_SIZE
    ensures r.Failure? ==> r.error == FrameTooShort
    ensures r.Success? ==> r.value.title + r.value.data == b[HEADER_SIZE..]
    ensures r.Success? ==> |r.value.title| == Min(ReadU32BE(b), |b| - HEADER_SIZE)
  {
    if |b| < HEADER_SIZE then Failure(FrameTooShort)
    else
      var titleEnd := Min(HEADER_SIZE + ReadU32BE(b), |b|);
      assert b[HEADER_SIZE..titleEnd] + b[titleEnd..] == b[HEADER_SIZE..];
      Success(Message(b[HEADER_SIZE..titleEnd], b[titleEnd..]))
  }

  function Min(x: int, y: int): int {
    if x <= y then x else y
  }

  /** Framing round trip: decoding an encoded message gives back its title and payload. */
  lemma DecodeEncode(title: Bytes, data: Bytes)
    requires |title| < U32_LIMIT
    ensures Encode(title, data).Success?
    ensures Decode(Encode(title, data).value) == Success(Message(title, data))
  {
    var f := Encode(title, data).value;
    assert f[..HEADER_SIZE] == U32BE(|title|);
    ReadWrittenLength(|title|);
    assert f[HEADER_SIZE..HEADER_SIZE + |title|] == title;
    assert f[HEADER_SIZE + |title|..] == data;
  }

  /**
   * The other direction: a buffer whose declared title length fits in it is
   * exactly the encoding of what it decodes to.
   */
  lemma EncodeDecode(b: Bytes)
    requires |b| >= HEADER_SIZE && HEADER_SIZE + ReadU32BE(b) <= |b|
    ensures Decode(b).Success?
    ensures Encode(Decode(b).value.title, Decode(b).value.data) == Success(b)
  {
    var m := Decode(b).value;
    assert |m.title| == ReadU32BE(b);
    WriteReadLength(b);
    assert b == b[..HEADER_SIZE] + b[HEADER_SIZE..];
    assert m.title + m.data == b[HEADER_SIZE..];
    assert U32BE(|m.title|) + m.title + m.data == b[..HEADER_SIZE] + (m.title + m.data);
  }

  /**
   * A buffer whose declared title length exceeds what follows still decodes:
   * the title is everything after the prefix and the payload is empty.
   */
  lemma DecodeClampsTitle(b: Bytes)
    requires |b| >= HEADER_SIZE && HEADER_SIZE + ReadU32BE(b) > |b|
    ensures Decode(b) == Success(Message(b[HEADER_SIZE..], []))
  {
    var m := Decode(b).value;
    assert |m.title| == |b| - HEADER_SIZE;
    assert m.title + m.data == b[HEADER_SIZE..];
    assert m.title == b[HEADER_SIZE..];
  }
}
