/**
 * The byte image of the persistent store. `EEPROM.put(address, value)`
 * writes `sizeof(value)` bytes from `address` on, least significant first;
 * the firmware keeps the brightness (an `int`) at address 0, the preset
 * (an `int`) at address 1 and the daylight-saving flag (a `bool`) at
 * address 2. With a two-byte `int` these ranges overlap: address 1 belongs
 * to both the brightness and the preset, address 2 to both the preset and
 * the flag. This module shows the clobbering that layout causes, and proves
 * that spacing the addresses by `sizeof(int)` makes the byte image behave
 * as the key-by-key store the dispatcher model writes to.
 */
module Eeprom {
  import opened Units
  import opened Remote

  /** `sizeof(int)` on the 8-bit AVR target. */
  const IntSize: nat := 2

  /** The EEPROM, address by address. */
  type Image = map<int, byte>

  /** Where each setting lives. */
  datatype Layout = Layout(brightnessAddr: int, presetAddr: int, dstAddr: int)

  /** The addresses the firmware uses: 0, 1 and 2. */
  const AsWritten: Layout := Layout(0, 1, 2)

  /** Addresses spaced by the size of what is stored: 0, 2 and 4. */
  const Spaced: Layout := Layout(0, IntSize, 2 * IntSize)

  predicate InInt16(v: int)
  {
    -0x8000 <= v < 0x8000
  }

  /** `EEPROM.put` of an `int`: two bytes, low byte first, two's complement. */
  function PutInt(m: Image, addr: int, v: int): Image
  {
    m[addr := (v % 256) as byte][addr + 1 := ((v / 256) % 256) as byte]
  }

  /** `EEPROM.get` of an `int`. */
  function GetInt(m: Image, addr: int): int
    requires addr in m && addr + 1 in m
  {
    var u := m[addr] as int + 256 * m[addr + 1] as int;
    if u >= 0x8000 then u - 0x1_0000 else u
  }

  /** `EEPROM.put` of a `bool`: one byte. */
  function PutFlag(m: Image, addr: int, b: bool): Image
  {
    m[addr := if b then 1 else 0]
  }

  function GetFlag(m: Image, addr: int): bool
    requires addr in m
  {
    m[addr] != 0
  }

  /** An `int` written and read back at the same address is unchanged, within the `int` range. */
  lemma IntRoundTrip(m: Image, addr: int, v: int)
    requires InInt16(v)
    ensures var m' := PutInt(m, addr, v);
      addr in m' && addr + 1 in m' && GetInt(m', addr) == v
  {
    var q := v / 256;
    assert v == 256 * q + v % 256;
    assert -128 <= q < 128;
    var m' := PutInt(m, addr, v);
    assert m'[addr] as int == v % 256;
    assert m'[addr + 1] as int == q % 256;
    if q < 0 {
      assert q % 256 == q + 256;
    }
  }

  /** The bytes a setting occupies under a layout. */
  function Addresses(l: Layout, k: Key): set<int>
  {
    match k
    case BrightnessKey => {l.brightnessAddr, l.brightnessAddr + 1}
    case PresetKey => {l.presetAddr, l.presetAddr + 1}
    case DstKey => {l.dstAddr}
  }

  /** Writes one setting into the image, as the dispatcher's `EEPROM.put` calls do. */
  function Write(l: Layout, m: Image, k: Key, v: Stored): Image
  {
    match k
    case BrightnessKey => PutInt(m, l.brightnessAddr, if v.IntValue? then v.i else 0)
    case PresetKey => PutInt(m, l.presetAddr, if v.IntValue? then v.i else 0)
    case DstKey => PutFlag(m, l.dstAddr, v.FlagValue? && v.b)
  }

  /** Reads one setting back, as `setup` does. */
  function Read(l: Layout, m: Image, k: Key): Stored
    requires Addresses(l, k) <= m.Keys
  {
    match k
    case BrightnessKey => IntValue(GetInt(m, l.brightnessAddr))
    case PresetKey => IntValue(GetInt(m, l.presetAddr))
    case DstKey => FlagValue(GetFlag(m, l.dstAddr))
  }

  /** A fresh EEPROM: every byte 0xFF. */
  const Fresh: Image := map a | 0 <= a < 8 :: 0xFF as byte

  /**
   * The firmware's layout as written: with the preset stored as Red (1),
   * storing brightness 1400 (0x0578) overwrites the preset's low byte, so
   * the preset reads back as 5 (Cyan); storing the daylight-saving flag
   * afterwards overwrites the preset's high byte, so it reads back as 257,
   * which names no preset at all; and storing the preset after brightness
   * 1400 turns the stored brightness into 376 (0x0178).
   */
  lemma AsWrittenLayoutClobbers()
    ensures var m1 := Write(AsWritten, Fresh, PresetKey, IntValue(1));
      var m2 := Write(AsWritten, m1, BrightnessKey, IntValue(1400));
      Addresses(AsWritten, PresetKey) <= m1.Keys && Addresses(AsWritten, PresetKey) <= m2.Keys &&
      Read(AsWritten, m1, PresetKey) == IntValue(1) &&
      Read(AsWritten, m2, PresetKey) == IntValue(5)
    ensures var m1 := Write(AsWritten, Fresh, PresetKey, IntValue(1));
      var m2 := Write(AsWritten, m1, DstKey, FlagValue(true));
      Addresses(AsWritten, PresetKey) <= m2.Keys &&
      Read(AsWritten, m2, PresetKey) == IntValue(257)
    ensures var m1 := Write(AsWritten, Fresh, BrightnessKey, IntValue(1400));
      var m2 := Write(AsWritten, m1, PresetKey, IntValue(1));
      Addresses(AsWritten, BrightnessKey) <= m1.Keys && Addresses(AsWritten, BrightnessKey) <= m2.Keys &&
      Read(AsWritten, m1, BrightnessKey) == IntValue(1400) &&
      Read(AsWritten, m2, BrightnessKey) == IntValue(376)
    ensures !(Addresses(AsWritten, BrightnessKey) !! Addresses(AsWritten, PresetKey))
  {
    assert 1 in Addresses(AsWritten, BrightnessKey) * Addresses(AsWritten, PresetKey);
  }

  /** Under the spaced layout no two settings share a byte. */
  lemma SpacedIsDisjoint(k1: Key, k2: Key)
    requires k1 != k2
    ensures Addresses(Spaced, k1) !! Addresses(Spaced, k2)
  {
  }

  /** A setting of the right kind for its key. */
  predicate Fits(k: Key, v: Stored)
  {
    if k == DstKey then v.FlagValue? else v.IntValue? && InInt16(v.i)
  }

  /** Writing one key under the spaced layout: that key reads back, every other key keeps its bytes. */
  lemma SpacedWrite(m: Image, k: Key, v: Stored, other: Key)
    requires Fits(k, v)
    ensures Addresses(Spaced, k) <= Write(Spaced, m, k, v).Keys
    ensures Read(Spaced, Write(Spaced, m, k, v), k) == v
    ensures other != k ==> forall a :: a in Addresses(Spaced, other) ==>
      (a in m <==> a in Write(Spaced, m, k, v)) &&
      (a in m ==> Write(Spaced, m, k, v)[a] == m[a])
  {
    if k != DstKey {
      IntRoundTrip(m, if k == BrightnessKey then 0 else IntSize, v.i);
    }
  }

  /** Replays a sequence of key writes onto the image. */
  function Replay(l: Layout, m: Image, writes: seq<(Key, Stored)>): Image
    decreases |writes|
  {
    if writes == [] then m else Replay(l, Write(l, m, writes[0].0, writes[0].1), writes[1..])
  }

  /** The same writes applied to the key-by-key store of the dispatcher. */
  function ReplayStore(s: map<Key, Stored>, writes: seq<(Key, Stored)>): map<Key, Stored>
    decreases |writes|
  {
    if writes == [] then s else ReplayStore(s[writes[0].0 := writes[0].1], writes[1..])
  }

  /**
   * The corrected layout behaves as the key-by-key store: after any sequence
   * of writes, reading a key written at least once gives the last value
   * written to it, and the bytes of keys never written are untouched.
   */
  lemma {:induction false} SpacedLayoutKeepsEveryKey(m: Image, s: map<Key, Stored>,
                                                      writes: seq<(Key, Stored)>, k: Key)
    requires forall i :: 0 <= i < |writes| ==> Fits(writes[i].0, writes[i].1)
    requires k in s ==> Addresses(Spaced, k) <= m.Keys && Read(Spaced, m, k) == s[k]
    ensures var m', s' := Replay(Spaced, m, writes), ReplayStore(s, writes);
      k in s' ==> Addresses(Spaced, k) <= m'.Keys && Read(Spaced, m', k) == s'[k]
    decreases |writes|
  {
    if writes != [] {
      var (k0, v0) := writes[0];
      var m1 := Write(Spaced, m, k0, v0);
      var s1 := s[k0 := v0];
      SpacedWrite(m, k0, v0, k);
      if k != k0 && k in s {
        assert forall a :: a in Addresses(Spaced, k) ==> a in m1 && m1[a] == m[a];
        assert Read(Spaced, m1, k) == Read(Spaced, m, k);
      }
      SpacedLayoutKeepsEveryKey(m1, s1, writes[1..], k);
    }
  }
}
