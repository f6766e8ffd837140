/**
 * What the tubes show for a clock reading: the 24-hour reading becomes a
 * 12-hour one (`hour % 12`, with 0 shown as 12), the time frame is
 * `[min/10, min%10, h12/10, h12%10]` and the date frame is
 * `[day/10, day%10, month/10, month%10]`.
 */
module ClockFace {
  import opened Units

  /** One reading of the real-time clock; its accessors return `uint8_t`. */
  datatype Reading = Reading(hour: byte, minute: byte, day: byte, month: byte)

  /** The ranges the real-time clock produces. */
  predicate ValidReading(r: Reading)
  {
    r.hour < 24 && r.minute < 60 && 1 <= r.day <= 31 && 1 <= r.month <= 12
  }

  /** The 12-hour hour: `hour24 % 12`, with 0 replaced by 12. */
  function Hour12(hour24: byte): (h: int)
    ensures 1 <= h <= 12
    ensures h % 12 == hour24 as int % 12
  {
    var h := hour24 as int % 12;
    if h == 0 then 12 else h
  }

  /** `v / 10` and `v % 10` of a byte value, tens first; both are digits when `v < 100`. */
  function TwoDigits(v: int): (ds: seq<byte>)
    requires 0 <= v < 256
    ensures |ds| == 2 && ds[1] <= 9
    ensures ds[0] <= 9 <==> v < 100
    ensures 10 * ds[0] as int + ds[1] as int == v
  {
    [(v / 10) as byte, (v % 10) as byte]
  }

  /** The normal-time frame: minute tens and ones, then 12-hour hour tens and ones. */
  function TimeFrame(r: Reading): (f: seq<byte>)
    ensures |f| == 4
  {
    TwoDigits(r.minute as int) + TwoDigits(Hour12(r.hour))
  }

  /** The date frame: day tens and ones, then month tens and ones. */
  function DateFrame(r: Reading): (f: seq<byte>)
    ensures |f| == 4
  {
    TwoDigits(r.day as int) + TwoDigits(r.month as int)
  }

  /** Midnight and noon both show as 12; every other hour keeps its value modulo 12. */
  lemma Hour12Cases(hour24: byte)
    requires hour24 < 24
    ensures hour24 == 0 || hour24 == 12 <==> Hour12(hour24) == 12
    ensures hour24 != 0 && hour24 != 12 ==> Hour12(hour24) == hour24 as int % 12
    ensures Hour12(hour24) == Hour12((hour24 + 12) % 24)
  {
  }

  /**
   * Every digit of the time frame can be shown; the minute tens never exceed
   * 5 and the hour tens never exceed 1; reading the frame back as two
   * decimal numbers gives the minute and the 12-hour hour.
   */
  lemma TimeFrameDigits(r: Reading)
    requires ValidReading(r)
    ensures forall k :: 0 <= k < 4 ==> TimeFrame(r)[k] <= 9
    ensures TimeFrame(r)[0] <= 5 && TimeFrame(r)[2] <= 1
    ensures 10 * TimeFrame(r)[0] as int + TimeFrame(r)[1] as int == r.minute as int
    ensures 10 * TimeFrame(r)[2] as int + TimeFrame(r)[3] as int == Hour12(r.hour)
  {
    var f := TimeFrame(r);
    var m := TwoDigits(r.minute as int);
    var h := TwoDigits(Hour12(r.hour));
    assert f[0] == m[0] && f[1] == m[1] && f[2] == h[0] && f[3] == h[1];
  }

  /** Every digit of the date frame can be shown; day tens never exceed 3, month tens never exceed 1. */
  lemma DateFrameDigits(r: Reading)
    requires ValidReading(r)
    ensures forall k :: 0 <= k < 4 ==> DateFrame(r)[k] <= 9
    ensures DateFrame(r)[0] <= 3 && DateFrame(r)[2] <= 1
    ensures 10 * DateFrame(r)[0] as int + DateFrame(r)[1] as int == r.day as int
    ensures 10 * DateFrame(r)[2] as int + DateFrame(r)[3] as int == r.month as int
  {
    var f := DateFrame(r);
    var d := TwoDigits(r.day as int);
    var m := TwoDigits(r.month as int);
    assert f[0] == d[0] && f[1] == d[1] && f[2] == m[0] && f[3] == m[1];
  }

  /** Two readings with the same minute and the same 12-hour hour show the same frame, and only those. */
  lemma TimeFrameInjective(r1: Reading, r2: Reading)
    requires ValidReading(r1) && ValidReading(r2)
    ensures TimeFrame(r1) == TimeFrame(r2) <==>
            r1.minute == r2.minute && r1.hour as int % 12 == r2.hour as int % 12
  {
    TimeFrameDigits(r1);
    TimeFrameDigits(r2);
    if r1.minute == r2.minute && r1.hour as int % 12 == r2.hour as int % 12 {
      assert Hour12(r1.hour) == Hour12(r2.hour);
    }
  }

  /** The frame for 14:32 is [3, 2, 0, 2]. */
  lemma AfternoonExample()
    ensures TimeFrame(Reading(14, 32, 1, 1)) == [3, 2, 0, 2]
  {
  }
}
