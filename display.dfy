/**
 * The digit renderer (`displayDigit`): four digit values are packed into two
 * bytes of two BCD nibbles each, any value above 9 becoming the blank code
 * 0xF, and the bytes are shifted out to the shift registers `data[1]` first,
 * then `data[0]`, each most significant bit first.
 */
module Display {
  import opened Units

  /** The nibble the BCD decoder shows as an unlit tube. */
  const Blank: byte := 0xF

  /** A displayable digit keeps its value; anything above 9 becomes `Blank`. */
  function Coerce(d: byte): (c: byte)
    ensures c <= 9 <==> d <= 9
    ensures d <= 9 ==> c == d
    ensures d > 9 ==> c == Blank
  {
    if d > 9 then Blank else d
  }

  /** One shift-register byte: `lo` in the low nibble, `hi` in the high nibble. */
  function PackByte(lo: byte, hi: byte): bv8
  {
    ((Coerce(hi) as bv8) << 4) | ((Coerce(lo) as bv8) & 0x0F)
  }

  /** The two bytes of a frame: `data[i]` holds `digits[2i]` low and `digits[2i+1]` high. */
  function Pack(digits: seq<byte>): (data: seq<bv8>)
    requires |digits| == 4
    ensures |data| == 2
  {
    [PackByte(digits[0], digits[1]), PackByte(digits[2], digits[3])]
  }

  function LowNibble(b: bv8): byte
  {
    (b & 0x0F) as int as byte
  }

  function HighNibble(b: bv8): byte
  {
    (b >> 4) as int as byte
  }

  /** Both nibbles of a packed byte read back as the coerced digits. */
  lemma PackByteNibbles(lo: byte, hi: byte)
    ensures LowNibble(PackByte(lo, hi)) == Coerce(lo)
    ensures HighNibble(PackByte(lo, hi)) == Coerce(hi)
  {
    var l, h := Coerce(lo) as bv8, Coerce(hi) as bv8;
    assert l <= 15 && h <= 15;
    assert ((h << 4) | (l & 0x0F)) & 0x0F == l;
    assert ((h << 4) | (l & 0x0F)) >> 4 == h;
  }

  /** The eight bits `shiftOut(..., MSBFIRST, b)` puts on the data line, in order. */
  function MsbFirst(b: bv8): (bits: seq<bool>)
    ensures |bits| == 8
  {
    [b & 0x80 != 0, b & 0x40 != 0, b & 0x20 != 0, b & 0x10 != 0,
     b & 0x08 != 0, b & 0x04 != 0, b & 0x02 != 0, b & 0x01 != 0]
  }

  /** Reassembles a byte from eight bits received most significant first. */
  function FromMsbFirst(bits: seq<bool>): bv8
    requires |bits| == 8
  {
    (if bits[0] then 0x80 else 0) | (if bits[1] then 0x40 else 0) |
    (if bits[2] then 0x20 else 0) | (if bits[3] then 0x10 else 0) |
    (if bits[4] then 0x08 else 0) | (if bits[5] then 0x04 else 0) |
    (if bits[6] then 0x02 else 0) | (if bits[7] then 0x01 else 0)
  }

  lemma MsbFirstRoundTrip(b: bv8)
    ensures FromMsbFirst(MsbFirst(b)) == b
  {
  }

  /** The whole serial stream for a frame: `data[1]` then `data[0]`, each MSB first. */
  function Stream(digits: seq<byte>): (wire: seq<bool>)
    requires |digits| == 4
    ensures |wire| == 16
  {
    var data := Pack(digits);
    MsbFirst(data[1]) + MsbFirst(data[0])
  }

  /** What the BCD decoders latch from a 16-bit stream, tube by tube. */
  function Unpack(wire: seq<bool>): (digits: seq<byte>)
    requires |wire| == 16
    ensures |digits| == 4
  {
    var data1 := FromMsbFirst(wire[..8]);
    var data0 := FromMsbFirst(wire[8..]);
    [LowNibble(data0), HighNibble(data0), LowNibble(data1), HighNibble(data1)]
  }

  /** Unpacking two shifted-out bytes recovers their four nibbles. */
  lemma UnpackBytes(data1: bv8, data0: bv8)
    ensures Unpack(MsbFirst(data1) + MsbFirst(data0))
         == [LowNibble(data0), HighNibble(data0), LowNibble(data1), HighNibble(data1)]
  {
    var wire := MsbFirst(data1) + MsbFirst(data0);
    assert wire[..8] == MsbFirst(data1);
    assert wire[8..] == MsbFirst(data0);
    MsbFirstRoundTrip(data0);
    MsbFirstRoundTrip(data1);
  }

  /**
   * Nibble-level round trip: every tube receives exactly its coerced digit,
   * so a digit 0..9 arrives unchanged and anything else arrives blank.
   */
  lemma StreamRoundTrip(digits: seq<byte>)
    requires |digits| == 4
    ensures |Unpack(Stream(digits))| == 4
    ensures forall k :: 0 <= k < 4 ==> Unpack(Stream(digits))[k] == Coerce(digits[k])
    ensures (forall k :: 0 <= k < 4 ==> digits[k] <= 9) ==> Unpack(Stream(digits)) == digits
  {
    var data := Pack(digits);
    UnpackBytes(data[1], data[0]);
    PackByteNibbles(digits[0], digits[1]);
    PackByteNibbles(digits[2], digits[3]);
    var got := Unpack(Stream(digits));
    assert got == [Coerce(digits[0]), Coerce(digits[1]), Coerce(digits[2]), Coerce(digits[3])];
  }

  /**
   * `displayDigit`: packs the frame in a loop over the two bytes, then shifts
   * them out from `data[1]` down to `data[0]`. The returned sequence is the
   * data line as the shift registers see it between latch low and latch high.
   */
  method DisplayDigit(digits: array<byte>) returns (wire: seq<bool>)
    requires digits.Length == 4
    ensures wire == Stream(digits[..])
  {
    var data := new bv8[2];
    var i := 0;
    while i < 2
      invariant 0 <= i <= 2
      invariant forall k :: 0 <= k < i ==> data[k] == PackByte(digits[2 * k], digits[2 * k + 1])
    {
      var digit1 := digits[i * 2];
      var digit2 := digits[i * 2 + 1];
      if digit1 > 9 {
        digit1 := 0xF;
      }
      if digit2 > 9 {
        digit2 := 0xF;
      }
      data[i] := ((digit2 as bv8) << 4) | ((digit1 as bv8) & 0x0F);
      i := i + 1;
    }
    wire := [];
    var j := 1;
    while j >= 0
      invariant -1 <= j <= 1
      invariant j == 1 ==> wire == []
      invariant j == 0 ==> wire == MsbFirst(data[1])
      invariant j == -1 ==> wire == MsbFirst(data[1]) + MsbFirst(data[0])
    {
      wire := wire + MsbFirst(data[j]);
      j := j - 1;
    }
    assert Pack(digits[..]) == data[..];
  }
}
