/** Fixed-width unsigned integers as the driver's C++ code uses them:
    uint8_t/uint16_t/uint32_t values, wrap-around arithmetic on uint32_t
    and the big-endian 32-bit field layout of the module's CAN payloads. */
module Wire {

  const Two32: int := 0x1_0000_0000

  type uint8 = x: int | 0 <= x < 0x100
  type uint16 = x: int | 0 <= x < 0x1_0000
  type uint32 = x: int | 0 <= x < 0x1_0000_0000

  /** `a + b` evaluated in uint32_t: the sum reduced modulo 2^32. */
  function Add32(a: uint32, b: int): uint32
  {
    (a + b) % Two32
  }

  /** `a - b` on two uint32_t values: the difference reduced modulo 2^32.
      Adding the result back to `b` gives `a` again. */
  function Sub32(a: uint32, b: uint32): (d: uint32)
    ensures Add32(b, d) == a
  {
    var d := (a - b) % Two32;
    assert d == if a >= b then a - b else a - b + Two32;
    d
  }

  /** Subtraction undoes a wrapped addition of any uint32 amount. */
  lemma {:induction false} Sub32OfAdd32(b: uint32, d: uint32)
    ensures Sub32(Add32(b, d), b) == d
  {
    var a := Add32(b, d);
    if b + d < Two32 {
      assert a == b + d;
    } else {
      assert a == b + d - Two32;
    }
  }

  /** The elapsed wrap-around time from `since` to `now` is below `bound`
      exactly when `now` lies less than `bound` ticks after `since`,
      counting across the 2^32 wrap. */
  lemma {:induction false} WithinWindow(now: uint32, since: uint32, bound: uint32)
    ensures Sub32(now, since) < bound <==> exists d :: 0 <= d < bound && Add32(since, d) == now
  {
    if Sub32(now, since) < bound {
      var d := Sub32(now, since);
      assert Add32(since, d) == now;
    }
    if exists d :: 0 <= d < bound && Add32(since, d) == now {
      var d :| 0 <= d < bound && Add32(since, d) == now;
      Sub32OfAdd32(since, d);
    }
  }

  /** The value of four bytes read most significant first, as
      `(b0 << 24) | (b1 << 16) | (b2 << 8) | b3` computes it (the shifted
      parts occupy disjoint bits, so `|` is `+`). */
  function DecodeBE32(b: seq<uint8>): uint32
    requires |b| == 4
  {
    b[0] as int * 0x100_0000 + b[1] as int * 0x1_0000 + b[2] as int * 0x100 + b[3] as int
  }

  /** The four bytes `(v >> 24) & 0xFF, (v >> 16) & 0xFF, (v >> 8) & 0xFF, v & 0xFF`. */
  function EncodeBE32(v: uint32): (b: seq<uint8>)
    ensures |b| == 4
  {
    [(v / 0x100_0000) % 0x100, (v / 0x1_0000) % 0x100, (v / 0x100) % 0x100, v % 0x100]
  }

  /** Reading the encoded bytes back gives the encoded value. */
  lemma {:induction false} DecodeEncodeBE32(v: uint32)
    ensures DecodeBE32(EncodeBE32(v)) == v
  {
    var b := EncodeBE32(v);
    assert b[0] == v / 0x100_0000;
    assert v % 0x100_0000 == b[1] as int * 0x1_0000 + v % 0x1_0000;
    assert v % 0x1_0000 == b[2] as int * 0x100 + b[3];
  }

  /** Encoding the value of four bytes gives back the same bytes. */
  lemma {:induction false} EncodeDecodeBE32(b: seq<uint8>)
    requires |b| == 4
    ensures EncodeBE32(DecodeBE32(b)) == b
  {
    var v := DecodeBE32(b);
    assert v / 0x100 == b[0] as int * 0x1_0000 + b[1] as int * 0x100 + b[2];
    assert v / 0x1_0000 == b[0] as int * 0x100 + b[1];
    assert v / 0x100_0000 == b[0];
  }
}
