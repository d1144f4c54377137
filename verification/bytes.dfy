/**
 * Fixed-width unsigned integers and the big-endian layouts that
 * `encoding/binary` gives them (packet.go:35, packet.go:98, utils.go:89,
 * utils.go:192, and the hand-written shifts of utils.go:56-61 and
 * connection.go:40).
 */
module Bytes {
  type uint8 = x: int | 0 <= x < 0x100
  type uint16 = x: int | 0 <= x < 0x1_0000
  type uint32 = x: int | 0 <= x < 0x1_0000_0000

  const MaxUint16: uint16 := 0xFFFF
  const MaxUint32: uint32 := 0xFFFF_FFFF

  /** `uint16(n)`: Go's conversion keeps the low 16 bits. */
  function TruncateTo16(n: nat): (r: uint16)
    ensures n <= MaxUint16 ==> r == n
  {
    n % 0x1_0000
  }

  /** `binary.BigEndian.PutUint16`: high byte first. */
  function BE16(x: uint16): seq<uint8>
  {
    [x / 0x100, x % 0x100]
  }

  /** `binary.BigEndian.Uint16`: reads the first two bytes. */
  function Uint16At(b: seq<uint8>): uint16
    requires |b| >= 2
  {
    (b[0] as int) * 0x100 + b[1]
  }

  /** The four bytes `byte(x >> 24), byte(x >> 16), byte(x >> 8), byte(x)`. */
  function BE32(x: uint32): seq<uint8>
  {
    [x / 0x100_0000, (x / 0x1_0000) % 0x100, (x / 0x100) % 0x100, x % 0x100]
  }

  /** `binary.BigEndian.Uint32`: reads the first four bytes. */
  function Uint32At(b: seq<uint8>): uint32
    requires |b| >= 4
  {
    (((b[0] as int) * 0x100 + b[1]) * 0x100 + b[2]) * 0x100 + b[3]
  }

  lemma BE16RoundTrip(x: uint16)
    ensures |BE16(x)| == 2 && Uint16At(BE16(x)) == x
  {
  }

  lemma Uint16AtRoundTrip(b: seq<uint8>)
    requires |b| == 2
    ensures BE16(Uint16At(b)) == b
  {
  }

  /** Reading back the four bytes written for `x` gives `x`. */
  lemma BE32RoundTrip(x: uint32)
    ensures |BE32(x)| == 4 && Uint32At(BE32(x)) == x
  {
  }

  /** Every four bytes are the encoding of the value read from them. */
  lemma Uint32AtRoundTrip(b: seq<uint8>)
    requires |b| == 4
    ensures BE32(Uint32At(b)) == b
  {
    var v: int := Uint32At(b);
    var b0, b1, b2, b3: int := b[0], b[1], b[2], b[3];
    assert v == b0 * 0x100_0000 + b1 * 0x1_0000 + b2 * 0x100 + b3;
    assert v / 0x100_0000 == b0;
    assert v / 0x1_0000 == b0 * 0x100 + b1;
    assert v / 0x100 == b0 * 0x1_0000 + b1 * 0x100 + b2;
  }
}
