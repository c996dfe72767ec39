/** Padding and block-wise folding, sections 3.1, 3.2 and the outer loop of section 3.4 of RFC 1321. */
module Md5Padding {

  import opened Bytes

  const BLOCK: nat := 64

  // ---------------------------------------------------------------- padding (3.1, 3.2)

  /** Zero bytes that follow the 0x80 byte: the fewest that bring the length to 56 modulo 64. */
  function ZeroCount(length: nat): (k: nat)
    ensures k < BLOCK && (length + 1 + k) % BLOCK == 56
  {
    (55 - length) % BLOCK
  }

  /** The message, a 1 bit, zero bits, and the low 64 bits of the message's length in bits. */
  function Padded(message: seq<Byte>): seq<Byte> {
    message + [0x80 as Byte] + Zeros(ZeroCount(|message|)) + LittleEndian(8 * |message|, 8)
  }

  /** The state after folding all whole blocks of a message into `q`. */
  function Absorb<S>(f: (S, seq<Byte>) -> S, q: S, message: seq<Byte>): S
    decreases |message|
  {
    if |message| < BLOCK then q else Absorb(f, f(q, message[..BLOCK]), message[BLOCK..])
  }
}
