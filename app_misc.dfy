/**
 * app/misc.go: the UID manager. `Generate` fills a 16-byte buffer from
 * two draws of a 63-bit random source, eight bytes per draw, least
 * significant byte first; `GenerateHex` prints it as lower-case hex.
 *
 * The random source is the sequence of values its `Int63` will return
 * next, each in [0, 2^63); how it is seeded (the clock) is not modelled.
 */
module AppMisc {
  import opened Common

  /** The bound of `Int63`'s results. */
  const Int63Bound := 0x8000_0000_0000_0000

  /** The length of a UID in bytes. */
  const UidLength := 16

  function Pow256(n: nat): (r: nat)
    ensures r >= 1
  {
    if n == 0 then 1 else 256 * Pow256(n - 1)
  }

  /** The `n` low-order bytes of `w`, least significant first (`byte(val & 0xff)` then `val >>= 8`). */
  function LittleEndian(w: nat, n: nat): (r: seq<byte>)
    ensures |r| == n
  {
    if n == 0 then [] else [w % 256] + LittleEndian(w / 256, n - 1)
  }

  /** The number whose little-endian bytes are `bs`. */
  function LittleEndianValue(bs: seq<byte>): nat
  {
    if |bs| == 0 then 0 else bs[0] + 256 * LittleEndianValue(bs[1..])
  }

  /** The UID made from two draws. */
  function Uid(w0: nat, w1: nat): seq<byte>
  {
    LittleEndian(w0, 8) + LittleEndian(w1, 8)
  }

  /** Reading the `n` bytes back gives the number, when it fits in `n` bytes. */
  lemma {:induction false} LittleEndianRoundTrip(w: nat, n: nat)
    requires w < Pow256(n)
    ensures LittleEndianValue(LittleEndian(w, n)) == w
  {
    if n > 0 {
      assert w / 256 < Pow256(n - 1);
      LittleEndianRoundTrip(w / 256, n - 1);
      assert LittleEndian(w, n)[1..] == LittleEndian(w / 256, n - 1);
    }
  }

  /** The last of the `n` bytes of a number below 128 * 256^(n-1) is below 128. */
  lemma {:induction false} LittleEndianTopBit(w: nat, n: nat)
    requires n >= 1 && w < 128 * Pow256(n - 1)
    ensures LittleEndian(w, n)[n - 1] < 128
  {
    if n > 1 {
      assert w / 256 < 128 * Pow256(n - 2);
      LittleEndianTopBit(w / 256, n - 1);
      assert LittleEndian(w, n)[n - 1] == LittleEndian(w / 256, n - 1)[n - 2];
    }
  }

  /**
   * A UID determines its two draws: each half read back little-endian
   * is its draw, so distinct pairs of draws give distinct UIDs.
   */
  lemma UidDecodes(w0: nat, w1: nat)
    requires w0 < Int63Bound && w1 < Int63Bound
    ensures |Uid(w0, w1)| == UidLength
    ensures LittleEndianValue(Uid(w0, w1)[..8]) == w0
    ensures LittleEndianValue(Uid(w0, w1)[8..]) == w1
  {
    assert Pow256(8) == 0x1_0000_0000_0000_0000;
    LittleEndianRoundTrip(w0, 8);
    LittleEndianRoundTrip(w1, 8);
    assert Uid(w0, w1)[..8] == LittleEndian(w0, 8);
    assert Uid(w0, w1)[8..] == LittleEndian(w1, 8);
  }

  lemma UidInjective(a0: nat, a1: nat, b0: nat, b1: nat)
    requires a0 < Int63Bound && a1 < Int63Bound && b0 < Int63Bound && b1 < Int63Bound
    requires Uid(a0, a1) == Uid(b0, b1)
    ensures a0 == b0 && a1 == b1
  {
    UidDecodes(a0, a1);
    UidDecodes(b0, b1);
  }

  /**
   * A draw has 63 bits, so the high bit of the eighth byte of each half,
   * bytes 7 and 15, is always clear.
   */
  lemma UidHighBitsClear(w0: nat, w1: nat)
    requires w0 < Int63Bound && w1 < Int63Bound
    ensures Uid(w0, w1)[7] < 128 && Uid(w0, w1)[15] < 128
  {
    assert Pow256(7) == 0x1_0000_0000_0000_00;
    LittleEndianTopBit(w0, 8);
    LittleEndianTopBit(w1, 8);
  }

  /** The lower-case hex digit of `d`. */
  function HexDigit(d: nat): char
    requires d < 16
  {
    if d < 10 then ('0' as int + d) as char else ('a' as int + d - 10) as char
  }

  /** The digit value of a lower-case hex character (0 for any other). */
  function DigitValue(c: char): nat
  {
    if '0' <= c <= '9' then (c - '0') as nat
    else if 'a' <= c <= 'f' then (c - 'a') as nat + 10
    else 0
  }

  /** `fmt.Sprintf("%x", bs)`: two lower-case hex digits per byte, high nibble first. */
  function Hex(bs: seq<byte>): (r: string)
    ensures |r| == 2 * |bs|
    ensures forall i :: 0 <= i < |r| ==> r[i] in "0123456789abcdef"
  {
    if |bs| == 0 then [] else [HexDigit(bs[0] / 16), HexDigit(bs[0] % 16)] + Hex(bs[1..])
  }

  /** Reads pairs of hex digits back into bytes. */
  function Unhex(s: string): seq<byte>
  {
    if |s| < 2 then [] else [DigitValue(s[0]) * 16 + DigitValue(s[1])] + Unhex(s[2..])
  }

  /** The hex form loses nothing: reading it back gives the bytes. */
  lemma {:induction false} HexRoundTrip(bs: seq<byte>)
    ensures Unhex(Hex(bs)) == bs
  {
    if |bs| > 0 {
      var h := Hex(bs);
      assert h[2..] == Hex(bs[1..]);
      HexRoundTrip(bs[1..]);
      assert DigitValue(HexDigit(bs[0] / 16)) == bs[0] / 16;
      assert DigitValue(HexDigit(bs[0] % 16)) == bs[0] % 16;
      assert Unhex(h)[0] == bs[0];
    }
  }

  /** Emitting the low byte of `val` moves it from the bytes still to come to the bytes written. */
  lemma EmitStep(written: seq<byte>, val: nat, n: nat)
    requires n >= 1
    ensures (written + [val % 256]) + LittleEndian(val / 256, n - 1) == written + LittleEndian(val, n)
  {
  }

  class UidManager {
    /** The values the random source's `Int63` returns next, in order. */
    var pending: seq<nat>

    /** Every value still to come is one `Int63` can return. */
    predicate Valid()
      reads this
    {
      forall i :: 0 <= i < |pending| ==> pending[i] < Int63Bound
    }

    constructor (pending: seq<nat>)
      requires forall i :: 0 <= i < |pending| ==> pending[i] < Int63Bound
      ensures this.pending == pending && Valid()
    {
      this.pending := pending;
    }

    /**
     * `Generate`: two draws are consumed; the UID is the eight bytes of
     * the first draw, then the eight bytes of the second, each least
     * significant first. As the draws have 63 bits, the high bits of
     * bytes 7 and 15 are clear.
     */
    method Generate() returns (uid: seq<byte>)
      requires Valid() && |pending| >= 2
      modifies this
      ensures Valid() && pending == old(pending)[2..]
      ensures uid == Uid(old(pending)[0], old(pending)[1])
      ensures |uid| == UidLength
      ensures uid[7] < 128 && uid[15] < 128
    {
      UidHighBitsClear(pending[0], pending[1]);
      var cargo := new byte[UidLength](_ => 0);
      var todo := UidLength;
      var offset := 0;
      ghost var target := Uid(pending[0], pending[1]);
      ghost var drawn := 0;
      while true
        invariant 0 <= drawn <= 1 && offset == 8 * drawn && offset + todo == UidLength
        invariant cargo[..offset] == target[..offset]
        invariant pending == old(pending)[drawn..]
        decreases todo
      {
        var val := pending[0];
        assert LittleEndian(val, 8) == target[offset..offset + 8];
        pending := pending[1..];
        var i := 0;
        while i < 8
          invariant 0 <= i <= 8 && offset == 8 * drawn + i && offset + todo == UidLength && todo >= 1
          invariant cargo[..offset] + LittleEndian(val, 8 - i) == target[..8 * drawn + 8]
          invariant pending == old(pending)[drawn + 1..]
        {
          ghost var written := cargo[..offset];
          cargo[offset] := val % 256;
          assert cargo[..offset + 1] == written + [val % 256];
          EmitStep(written, val, 8 - i);
          todo := todo - 1;
          if todo == 0 {
            assert cargo[..] == cargo[..16];
            return cargo[..];
          }
          offset := offset + 1;
          val := val / 256;
          i := i + 1;
        }
        drawn := drawn + 1;
      }
    }

    /** `GenerateHex`: the 32 hex digits of a fresh UID. */
    method GenerateHex() returns (hex: string)
      requires Valid() && |pending| >= 2
      modifies this
      ensures Valid() && pending == old(pending)[2..]
      ensures hex == Hex(Uid(old(pending)[0], old(pending)[1]))
      ensures |hex| == 2 * UidLength
    {
      var uid := Generate();
      hex := Hex(uid);
    }
  }
}
