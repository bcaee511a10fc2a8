/**
 * The MAX3133X family (MAX31331, MAX31334): register layouts and the pure
 * conversions of the driver `MAX3133X` — hour formats, the 8-byte time
 * block, the alarm period switch, the 6-byte alarm block and the timestamp
 * banks.
 *
 * Enumerations are plain integers, because the driver handles values
 * outside the declared enumerators in its `default`/`else` branches.
 */
module Max3133xCodec {
  import opened Bits
  import opened Wrappers
  import opened Calendar
  import Bcd

  // ---------------------------------------------------------------------
  // Constants
  // ---------------------------------------------------------------------

  // max3133x_error_codes
  const NO_ERR := 0
  const READ_REG_ERR := -2
  const WRITE_REG_ERR := -3
  const INVALID_TIME_ERR := -4
  const INVALID_DATE_ERR := -5
  const INVALID_MASK_ERR := -6
  const INVALID_ALARM_PERIOD_ERR := -7
  const ALARM_ONETIME_NOT_SUPP_ERR := -8
  const ALARM_YEARLY_NOT_SUPP_ERR := -9
  const ALARM_EVERYMINUTE_NOT_SUPP_ERR := -10
  const ALARM_EVERYSECOND_NOT_SUPP_ERR := -11
  const I2C_BUFF_ERR := -12
  const I2C_END_TRANS_ERR := -13

  // hour_format_t
  const HOUR24 := 0
  const HOUR12 := 1

  // alarm_period_t
  const EVERYSECOND := 0
  const EVERYMINUTE := 1
  const HOURLY := 2
  const DAILY := 3
  const WEEKLY := 4
  const MONTHLY := 5
  const YEARLY := 6
  const ONETIME := 7

  // alarm_no_t
  const ALARM1 := 0
  const ALARM2 := 1

  // Interrupt enable masks
  const A1IE: Byte := 0x01
  const A2IE: Byte := 0x02
  const TIE: Byte := 0x04
  const DIE: Byte := 0x08
  const VBATLOWIE: Byte := 0x10
  const PFAILE: Byte := 0x20
  const DOSF: Byte := 0x40
  const INT_ALL: Byte := 0x7F

  // Sleep configuration (wakeup) masks
  const A1WE: Byte := 0x01
  const A2WE: Byte := 0x02
  const TWE: Byte := 0x04
  const DWE: Byte := 0x08

  // Timestamp record masks
  const TSVLOW: Byte := 0x20
  const TSPWM: Byte := 0x10
  const TSDIN: Byte := 0x08

  // power_mgmt_supply_t
  const SUPPLY_AUTO := 0
  const SUPPLY_VCC := 1
  const SUPPLY_VBAT := 2

  // ts_trigger_t
  const NOT_TRIGGERED := 0

  // ts_num_t
  const NUM_OF_TS := 4

  /** sizeof(max3133x_ts_regs_t): one timestamp bank. */
  const TS_BANK := 8

  // Time block (max3133x_rtc_time_regs_t) and timestamp bank fields
  const Bcd7: BitField := BitField(0, 0x7F)     // seconds, minutes
  const Hours24: BitField := BitField(0, 0x3F)  // hours: bcd_24hr.value
  const Hours12: BitField := BitField(0, 0x1F)  // hours: bcd_12hr.value
  const AmPm: BitField := BitField(5, 0x20)     // hours: bits_12hr.am_pm
  const F24_12: BitField := BitField(6, 0x40)   // hours: f_24_12
  const Bcd3: BitField := BitField(0, 0x07)     // day; alarm bcd_day
  const Bcd6: BitField := BitField(0, 0x3F)     // date; alarm bcd_date, alarm hours
  const Bcd5: BitField := BitField(0, 0x1F)     // month; alarm month
  const Century: BitField := BitField(7, 0x80)  // month: century
  const Bcd8: BitField := BitField(0, 0xFF)     // year; alarm year

  // RTC_RESET, RTC_CONFIG1, RTC_CONFIG2 (MAX31334 layout; MAX31331 has only the low three bits)
  const Swrst: BitField := BitField(0, 0x01)
  const EnOsc: BitField := BitField(0, 0x01)
  const I2cTimeout: BitField := BitField(1, 0x02)
  const DataRet: BitField := BitField(2, 0x04)
  const Dip: BitField := BitField(3, 0x08)
  const A1ac: BitField := BitField(4, 0x30)
  const ClkoHz: BitField := BitField(0, 0x03)
  const EnClko: BitField := BitField(2, 0x04)
  const Ddb: BitField := BitField(3, 0x08)
  const Dse: BitField := BitField(4, 0x10)
  const Slst: BitField := BitField(7, 0x80)

  // INT_EN, TIMESTAMP_CONFIG, TIMER_CONFIG, SLEEP_CONFIG, PWR_MGMT, TRICKLE_REG
  const Dosf: BitField := BitField(6, 0x40)
  const Tse: BitField := BitField(0, 0x01)
  const Tsr: BitField := BitField(1, 0x02)
  const Tsow: BitField := BitField(2, 0x04)
  const Tfs: BitField := BitField(0, 0x03)
  const Trpt: BitField := BitField(2, 0x04)
  const Tpause: BitField := BitField(3, 0x08)
  const Te: BitField := BitField(4, 0x10)
  const Wsto: BitField := BitField(4, 0x70)
  const Slp: BitField := BitField(7, 0x80)
  const ManualSel: BitField := BitField(0, 0x01)
  const VbackSel: BitField := BitField(1, 0x02)
  const EnVbatDetect: BitField := BitField(3, 0x08)
  const EnTrickle: BitField := BitField(0, 0x01)
  const Trickle: BitField := BitField(1, 0x0E)

  // Alarm block (max3133x_alarm_regs_t) flags
  const Am: BitField := BitField(7, 0x80)       // am1..am4: bit 7 of sec, min, hrs, day_date
  const DyDt: BitField := BitField(6, 0x40)     // day_date: dy_dt_match
  const Am5: BitField := BitField(7, 0x80)      // mon: am5
  const Am6: BitField := BitField(6, 0x40)      // mon: am6

  /** The failure codes are distinct and negative, and success is 0. */
  lemma ErrorCodes()
    ensures var codes := [READ_REG_ERR, WRITE_REG_ERR, INVALID_TIME_ERR, INVALID_DATE_ERR, INVALID_MASK_ERR,
                          INVALID_ALARM_PERIOD_ERR, ALARM_ONETIME_NOT_SUPP_ERR, ALARM_YEARLY_NOT_SUPP_ERR,
                          ALARM_EVERYMINUTE_NOT_SUPP_ERR, ALARM_EVERYSECOND_NOT_SUPP_ERR, I2C_BUFF_ERR,
                          I2C_END_TRANS_ERR];
            NO_ERR == 0 && (forall i :: 0 <= i < |codes| ==> codes[i] < 0) &&
            (forall i, j :: 0 <= i < j < |codes| ==> codes[i] != codes[j])
  {}

  /**
   * The interrupt masks are the single bits 0..6 and INT_ALL is their
   * union; the wakeup masks are bits 0..3; the timestamp record masks are
   * bits 3..5, whose union is 0x38.
   */
  lemma MaskBits()
    ensures [A1IE, A2IE, TIE, DIE, VBATLOWIE, PFAILE, DOSF] == [1 << 0, 1 << 1, 1 << 2, 1 << 3, 1 << 4, 1 << 5, 1 << 6]
    ensures A1IE | A2IE | TIE | DIE | VBATLOWIE | PFAILE | DOSF == INT_ALL
    ensures [A1WE, A2WE, TWE, DWE] == [1 << 0, 1 << 1, 1 << 2, 1 << 3]
    ensures [TSDIN, TSPWM, TSVLOW] == [1 << 3, 1 << 4, 1 << 5] && TSVLOW | TSPWM | TSDIN == 0x38
  {}

  /**
   * The hours register's views: the 24-hour value in bits 0..5, the 12-hour
   * value in bits 0..4 below the PM bit 5, and the format flag at bit 6
   * outside both; HOUR24 and HOUR12 are the flag's two values.
   */
  lemma HoursLayout()
    ensures Hours24.mask == 0x3F && Hours12.mask == 0x1F && AmPm.mask == 1 << 5 && F24_12.mask == 1 << 6
    ensures Hours24.mask & F24_12.mask == 0 && (Hours12.mask | AmPm.mask) & F24_12.mask == 0
    ensures Hours12.mask & AmPm.mask == 0
    ensures forall b: Byte :: Get(b, F24_12) as int == HOUR24 || Get(b, F24_12) as int == HOUR12
  {}

  // ---------------------------------------------------------------------
  // Hour formats
  // ---------------------------------------------------------------------

  /** An hour in 12-hour form: 1..12 and a PM flag. */
  datatype Hour12 = Hour12(hr12: Byte, pm: Byte)

  /**
   * to_12hr: midnight is 12 AM, noon 12 PM. For every hour of the day the
   * 12-hour form is in 1..12, PM exactly from noon on, and converts back.
   */
  function To12Hr(hr: Byte): (r: Hour12)
    ensures hr <= 23 ==> 1 <= r.hr12 <= 12 && (r.pm == 1 <==> hr >= 12) && (r.pm == 0 <==> hr < 12)
    ensures hr <= 23 ==> (if r.hr12 == 12 then 0 else r.hr12) + (if r.pm == 1 then 12 else 0) == hr
  {
    if hr == 0 then Hour12(12, 0)
    else if hr < 12 then Hour12(hr, 0)
    else if hr == 12 then Hour12(12, 1)
    else Hour12(hr - 12, 1)
  }

  /**
   * hours_reg_to_hour: the 24-hour value in BCD, or in 12-hour form the raw
   * (not BCD-decoded) value plus 12 for PM below 12, or minus 12 for AM at
   * 12. Every other 12-hour register falls off the end of the function
   * without a return value: `None`.
   */
  function HoursRegToHour(b: Byte): Option<int>
  {
    var raw := Get(b, Hours12) as int;
    if Get(b, F24_12) != 1 then Some(Bcd.ToBin(Get(b, Hours24)))
    else if Get(b, AmPm) != 0 then (if raw < 12 then Some(raw + 12) else None)
    else (if raw == 12 then Some(raw - 12) else None)
  }

  /**
   * The hours register as time_to_rtc_regs fills it in from `stale`: BCD
   * hour and flag 0 in 24-hour form; BCD 1..12, flag 1 and the PM bit in
   * 12-hour form.
   */
  function EncodeHours(hour: int, format: int, stale: Byte): (b: Byte)
    requires format == HOUR24 || format == HOUR12
  {
    if format == HOUR24 then
      Put(Store(stale, Hours24, Bcd.FromBin(hour)), F24_12, 0)
    else
      var h := To12Hr(U8(hour));
      Put(Put(Store(stale, Hours12, Bcd.FromBin(h.hr12 as int)), F24_12, 1), AmPm, h.pm)
  }

  /** Every hour of the day written in 24-hour form reads back unchanged. */
  lemma Hours24RoundTrip(hour: int, stale: Byte)
    requires 0 <= hour <= 23
    ensures HoursRegToHour(EncodeHours(hour, HOUR24, stale)) == Some(hour)
  {
    Bcd.StoreRoundTrip(stale, Hours24, hour);
  }

  /** In 12-hour form the register holds the BCD code of the 12-hour value and the PM flag. */
  lemma Hours12Fields(hour: int, stale: Byte)
    requires 0 <= hour <= 23
    ensures var h := To12Hr(U8(hour)); var b := EncodeHours(hour, HOUR12, stale);
            Get(b, Hours12) == U8(Bcd.FromBin(h.hr12 as int)) && Get(b, AmPm) == h.pm
  {
    Hours12Value(hour, stale);
    Hours12Pm(hour, stale);
  }

  lemma Hours12Value(hour: int, stale: Byte)
    requires 0 <= hour <= 23
    ensures Get(EncodeHours(hour, HOUR12, stale), Hours12) == U8(Bcd.FromBin(To12Hr(U8(hour)).hr12 as int))
  {
    var h := To12Hr(U8(hour));
    assert U8(hour) <= 23 by {
      assert U8(hour) as int == hour;
    }
    var x := h.hr12 as int;
    Bcd.StoreRoundTrip(stale, Hours12, x);
    Hours12Kept(Store(stale, Hours12, Bcd.FromBin(x)), h.pm);
  }

  /** Setting the format flag and the PM bit keeps the 12-hour value. */
  lemma Hours12Kept(s: Byte, pm: Byte)
    ensures Get(Put(Put(s, F24_12, 1), AmPm, pm), Hours12) == Get(s, Hours12)
  {
    var p := Put(s, F24_12, 1);
    GetFramed(s, p, 0x40, Hours12);
    GetFramed(p, Put(p, AmPm, pm), 0x20, Hours12);
  }

  lemma Hours12Pm(hour: int, stale: Byte)
    requires 0 <= hour <= 23
    ensures Get(EncodeHours(hour, HOUR12, stale), AmPm) == To12Hr(U8(hour)).pm
  {
    var h := To12Hr(U8(hour));
    assert h.pm < 2 by {
      assert U8(hour) as int == hour;
    }
    var p := Put(Store(stale, Hours12, Bcd.FromBin(h.hr12 as int)), F24_12, 1);
    assert Get(Put(p, AmPm, h.pm), AmPm) == h.pm;
  }

  /** The time format flag time_to_rtc_regs writes is the format it was given. */
  lemma HoursFormat(hour: int, format: int, stale: Byte)
    requires format == HOUR24 || format == HOUR12
    ensures Get(EncodeHours(hour, format, stale), F24_12) as int == format
  {
    if format == HOUR24 {
      GetFramed(stale, Store(stale, Hours24, Bcd.FromBin(hour)), 0x3F, F24_12);
    } else {
      var h := To12Hr(U8(hour));
      var p := Put(Store(stale, Hours12, Bcd.FromBin(h.hr12 as int)), F24_12, 1);
      GetFramed(p, Put(p, AmPm, h.pm), 0x20, F24_12);
    }
  }

  /** The 12-hour form of an hour of the day as numbers. */
  lemma To12HrValue(hour: int)
    requires 0 <= hour <= 23
    ensures To12Hr(U8(hour)).hr12 as int == if hour == 0 then 12 else if hour <= 12 then hour else hour - 12
    ensures To12Hr(U8(hour)).pm != 0 <==> hour >= 12
  {
    assert U8(hour) as int == hour;
  }

  /** The BCD code of a 12-hour value read as a number: 10, 11 and 12 become 16, 17 and 18. */
  lemma Code12(v: int)
    requires 1 <= v <= 12
    ensures U8(Bcd.FromBin(v)) as int == if v < 10 then v else v + 6
  {
    Bcd.Code(v);
    if v < 10 {
      assert v / 10 == 0;
    } else {
      assert v / 10 == 1;
    }
  }

  /**
   * The raw 12-hour BCD code of an hour of the day, read as a number: below
   * 12 with the PM flag set exactly for 1 PM .. 9 PM, where adding 12 gives
   * the hour back, and never 12.
   */
  lemma Hour12Code(hour: int)
    requires 0 <= hour <= 23
    ensures var h := To12Hr(U8(hour)); var raw := U8(Bcd.FromBin(h.hr12 as int)) as int;
            (h.pm != 0 && raw < 12 <==> 13 <= hour <= 21) && (13 <= hour <= 21 ==> raw + 12 == hour) && raw != 12
  {
    var v := if hour == 0 then 12 else if hour <= 12 then hour else hour - 12;
    To12HrValue(hour);
    Code12(v);
  }

  /**
   * In 12-hour form only 1 PM .. 9 PM read back, and correctly: the raw BCD
   * of 10, 11 and 12 is 16, 17 and 18, which fails both of the decoder's
   * tests, and no AM hour but a raw 12 (which BCD never produces) is handled.
   */
  lemma Hours12Decode(hour: int, stale: Byte)
    requires 0 <= hour <= 23
    ensures HoursRegToHour(EncodeHours(hour, HOUR12, stale)) == if 13 <= hour <= 21 then Some(hour) else None
  {
    Hours12Fields(hour, stale);
    HoursFormat(hour, HOUR12, stale);
    Hour12Code(hour);
  }

  // ---------------------------------------------------------------------
  // Time block: sub-second, seconds, minutes, hours, day, date, month, year
  // ---------------------------------------------------------------------

  /**
   * time_to_rtc_regs: an unknown hour format gives -4, a year before 2000
   * gives -5; otherwise every BCD field, the hour format flag and the
   * century bit are set in the uninitialised block `stale`, whose
   * sub-second byte is left as it was.
   */
  function TimeToRtcRegs(t: Tm, format: int, stale: seq<Byte>): (r: Result<seq<Byte>>)
    requires |stale| == 8
    ensures r.Err? <==> (format != HOUR24 && format != HOUR12) || t.year < 100
    ensures r.Err? ==> r.code == if format != HOUR24 && format != HOUR12 then INVALID_TIME_ERR else INVALID_DATE_ERR
    ensures r.Ok? ==> |r.value| == 8 && r.value[0] == stale[0]
  {
    if format != HOUR24 && format != HOUR12 then Err(INVALID_TIME_ERR)
    else if t.year < 100 then Err(INVALID_DATE_ERR)
    else
      var century := if CenturySet(t.year) then 1 else 0;
      var yy := YearOfCentury(t.year);
      Ok([stale[0],
          Store(stale[1], Bcd7, Bcd.FromBin(t.sec)),
          Store(stale[2], Bcd7, Bcd.FromBin(t.min)),
          EncodeHours(t.hour, format, stale[3]),
          Store(stale[4], Bcd3, Bcd.FromBin(t.wday + 1)),
          Store(stale[5], Bcd6, Bcd.FromBin(t.mday)),
          Put(Store(stale[6], Bcd5, Bcd.FromBin(t.mon + 1)), Century, century),
          Store(stale[7], Bcd8, Bcd.FromBin(yy))])
  }

  /**
   * rtc_regs_to_time on the 8-byte block. `junk` stands for the undefined
   * value hours_reg_to_hour returns when it falls off its end.
   */
  function RtcRegsToTime(block: seq<Byte>, junk: int): Tm
    requires |block| == 8
  {
    var year := Bcd.ToBin(Get(block[7], Bcd8)) + (if Get(block[6], Century) != 0 then 200 else 100);
    Tm(sec := Bcd.ToBin(Get(block[1], Bcd7)),
       min := Bcd.ToBin(Get(block[2], Bcd7)),
       hour := match HoursRegToHour(block[3]) case Some(h) => h case None => junk,
       mday := Bcd.ToBin(Get(block[5], Bcd6)),
       mon := Bcd.ToBin(Get(block[6], Bcd5)) - 1,
       year := year,
       wday := Bcd.ToBin(Get(block[4], Bcd3)) - 1,
       yday := 0, isdst := 0)
  }

  /** rtc_regs_to_time ignores the sub-second byte. */
  lemma TimeRegisters(b1: seq<Byte>, b2: seq<Byte>, junk: int)
    requires |b1| == 8 && |b2| == 8 && b1[1..] == b2[1..]
    ensures RtcRegsToTime(b1, junk) == RtcRegsToTime(b2, junk)
  {
    assert b1[1] == b2[1] && b1[2] == b2[2] && b1[3] == b2[3] && b1[4] == b2[4];
    assert b1[5] == b2[5] && b1[6] == b2[6] && b1[7] == b2[7];
  }


  /** Which register of the block time_to_rtc_regs writes holds which field of the time. */
  lemma TimeLayout(t: Tm, format: int, stale: seq<Byte>)
    requires InRange(t) && |stale| == 8 && (format == HOUR24 || format == HOUR12)
    ensures TimeToRtcRegs(t, format, stale).Ok?
    ensures var b := TimeToRtcRegs(t, format, stale).value;
            b[1] == Store(stale[1], Bcd7, Bcd.FromBin(t.sec)) &&
            b[2] == Store(stale[2], Bcd7, Bcd.FromBin(t.min)) &&
            b[3] == EncodeHours(t.hour, format, stale[3]) &&
            b[4] == Store(stale[4], Bcd3, Bcd.FromBin(t.wday + 1)) &&
            b[5] == Store(stale[5], Bcd6, Bcd.FromBin(t.mday)) &&
            b[6] == Put(Store(stale[6], Bcd5, Bcd.FromBin(t.mon + 1)), Century, if CenturySet(t.year) then 1 else 0) &&
            b[7] == Store(stale[7], Bcd8, Bcd.FromBin(YearOfCentury(t.year)))
  {
  }

  /** A block whose fields hold a time's values decodes to that time, with the hour its hours register gives. */
  lemma TimeDecode(b: seq<Byte>, t: Tm, junk: int)
    requires |b| == 8
    requires Bcd.ToBin(Get(b[1], Bcd7)) == t.sec && Bcd.ToBin(Get(b[2], Bcd7)) == t.min
    requires Bcd.ToBin(Get(b[4], Bcd3)) == t.wday + 1 && Bcd.ToBin(Get(b[5], Bcd6)) == t.mday
    requires Bcd.ToBin(Get(b[6], Bcd5)) == t.mon + 1
    requires Bcd.ToBin(Get(b[7], Bcd8)) + (if Get(b[6], Century) != 0 then 200 else 100) == t.year
    ensures RtcRegsToTime(b, junk) ==
              Cleared(t).(hour := match HoursRegToHour(b[3]) case Some(h) => h case None => junk)
  {
  }

  /** The century flag and the BCD year byte of a year 100..299 read back as that year. */
  lemma YearBytes(b6: Byte, b7: Byte, m: Byte, s7: Byte, year: int)
    requires 100 <= year <= 299
    requires b6 == Put(m, Century, if CenturySet(year) then 1 else 0)
    requires b7 == Store(s7, Bcd8, Bcd.FromBin(YearOfCentury(year)))
    ensures Bcd.ToBin(Get(b7, Bcd8)) + (if Get(b6, Century) != 0 then 200 else 100) == year
  {
    var century: Byte := if CenturySet(year) then 1 else 0;
    CenturyBit(m, century);
    Bcd.StoreRoundTrip(s7, Bcd8, YearOfCentury(year));
  }

  /** The century flag reads back as written. */
  lemma CenturyBit(b: Byte, c: Byte)
    requires c < 2
    ensures Get(Put(b, Century, c), Century) == c
  {}

  /**
   * In 24-hour form the block time_to_rtc_regs writes decodes to the same
   * time, whatever the uninitialised bytes held.
   */
  lemma TimeRoundTrip24(t: Tm, stale: seq<Byte>, junk: int)
    requires InRange(t) && |stale| == 8
    ensures TimeToRtcRegs(t, HOUR24, stale).Ok?
    ensures RtcRegsToTime(TimeToRtcRegs(t, HOUR24, stale).value, junk) == Cleared(t)
  {
    TimeLayout(t, HOUR24, stale);
    var b := TimeToRtcRegs(t, HOUR24, stale).value;
    Bcd.ReadsBack(b, 1, stale[1], Bcd7, t.sec);
    Bcd.ReadsBack(b, 2, stale[2], Bcd7, t.min);
    Bcd.ReadsBack(b, 4, stale[4], Bcd3, t.wday + 1);
    Bcd.ReadsBack(b, 5, stale[5], Bcd6, t.mday);
    Bcd.ReadsBackUnder(b, 6, stale[6], Bcd5, t.mon + 1, Century, if CenturySet(t.year) then 1 else 0);
    YearBytes(b[6], b[7], Store(stale[6], Bcd5, Bcd.FromBin(t.mon + 1)), stale[7], t.year);
    Hours24RoundTrip(t.hour, stale[3]);
    TimeDecode(b, t, junk);
  }

  /**
   * In 12-hour form every field but the hour reads back unchanged; the hour
   * reads back only for 1 PM .. 9 PM and is undefined otherwise.
   */
  lemma TimeRoundTrip12(t: Tm, stale: seq<Byte>, junk: int)
    requires InRange(t) && |stale| == 8
    ensures TimeToRtcRegs(t, HOUR12, stale).Ok?
    ensures RtcRegsToTime(TimeToRtcRegs(t, HOUR12, stale).value, junk) ==
              Cleared(t).(hour := if 13 <= t.hour <= 21 then t.hour else junk)
  {
    TimeLayout(t, HOUR12, stale);
    var b := TimeToRtcRegs(t, HOUR12, stale).value;
    Bcd.ReadsBack(b, 1, stale[1], Bcd7, t.sec);
    Bcd.ReadsBack(b, 2, stale[2], Bcd7, t.min);
    Bcd.ReadsBack(b, 4, stale[4], Bcd3, t.wday + 1);
    Bcd.ReadsBack(b, 5, stale[5], Bcd6, t.mday);
    Bcd.ReadsBackUnder(b, 6, stale[6], Bcd5, t.mon + 1, Century, if CenturySet(t.year) then 1 else 0);
    YearBytes(b[6], b[7], Store(stale[6], Bcd5, Bcd.FromBin(t.mon + 1)), stale[7], t.year);
    Hours12Decode(t.hour, stale[3]);
    TimeDecode(b, t, junk);
  }

  // ---------------------------------------------------------------------
  // Alarm period (set_alarm_period / get_alarm)
  // ---------------------------------------------------------------------

  /** The mask bits am1..am6 and the day/date selector of an alarm (1: don't care, or day). */
  datatype AlarmMasks = AlarmMasks(am1: U1, am2: U1, am3: U1, am4: U1, dyDt: U1, am5: U1, am6: U1)

  /**
   * set_alarm_period's switch entered at case `c` and falling through every
   * case below it; each case clears its own flag, and the ONETIME and
   * YEARLY cases refuse alarm 2, as do the EVERYMINUTE and EVERYSECOND cases
   * when they are the requested period. The result is `m` with every flag
   * at or below `c` cleared.
   */
  function SwitchFrom(c: int, alarmNo: int, period: int, m: AlarmMasks): (r: Result<AlarmMasks>)
    requires EVERYSECOND <= c <= ONETIME
    decreases c
    ensures r.Err? <==> alarmNo == ALARM2 &&
                         (c >= YEARLY || (period == EVERYMINUTE && c >= EVERYMINUTE) || period == EVERYSECOND)
    ensures r.Err? ==> r.code == (if c == ONETIME then ALARM_ONETIME_NOT_SUPP_ERR
                                  else if c == YEARLY then ALARM_YEARLY_NOT_SUPP_ERR
                                  else if period == EVERYMINUTE && c >= EVERYMINUTE then ALARM_EVERYMINUTE_NOT_SUPP_ERR
                                  else ALARM_EVERYSECOND_NOT_SUPP_ERR)
    ensures r.Ok? ==> r.value == AlarmMasks(if c >= EVERYMINUTE then 0 else m.am1,
                                            if c >= HOURLY then 0 else m.am2,
                                            if c >= DAILY then 0 else m.am3,
                                            if c >= WEEKLY then 0 else m.am4,
                                            if c >= MONTHLY then 0 else m.dyDt,
                                            if c >= YEARLY then 0 else m.am5,
                                            if c >= ONETIME then 0 else m.am6)
  {
    if c == ONETIME then
      if alarmNo == ALARM2 then Err(ALARM_ONETIME_NOT_SUPP_ERR) else SwitchFrom(YEARLY, alarmNo, period, m.(am6 := 0))
    else if c == YEARLY then
      if alarmNo == ALARM2 then Err(ALARM_YEARLY_NOT_SUPP_ERR) else SwitchFrom(MONTHLY, alarmNo, period, m.(am5 := 0))
    else if c == MONTHLY then SwitchFrom(WEEKLY, alarmNo, period, m.(dyDt := 0))
    else if c == WEEKLY then SwitchFrom(DAILY, alarmNo, period, m.(am4 := 0))
    else if c == DAILY then SwitchFrom(HOURLY, alarmNo, period, m.(am3 := 0))
    else if c == HOURLY then SwitchFrom(EVERYMINUTE, alarmNo, period, m.(am2 := 0))
    else if c == EVERYMINUTE then
      if alarmNo == ALARM2 && period == EVERYMINUTE then Err(ALARM_EVERYMINUTE_NOT_SUPP_ERR)
      else SwitchFrom(EVERYSECOND, alarmNo, period, m.(am1 := 0))
    else
      if alarmNo == ALARM2 && period == EVERYSECOND then Err(ALARM_EVERYSECOND_NOT_SUPP_ERR) else Ok(m)
  }

  /**
   * set_alarm_period's flags: every flag starts at 1 and each period clears
   * a longer prefix of am1, am2, am3, am4, dy_dt_match, am5, am6. Unknown
   * periods give -7; alarm 2 refuses ONETIME (-8), YEARLY (-9), EVERYMINUTE
   * (-10) and EVERYSECOND (-11).
   */
  function PeriodMasks(alarmNo: int, period: int): (r: Result<AlarmMasks>)
    ensures r.Err? <==> period < EVERYSECOND || period > ONETIME ||
                         (alarmNo == ALARM2 && period in {EVERYSECOND, EVERYMINUTE, YEARLY, ONETIME})
    ensures r.Err? ==> r.code == (if period < EVERYSECOND || period > ONETIME then INVALID_ALARM_PERIOD_ERR
                                  else if period == ONETIME then ALARM_ONETIME_NOT_SUPP_ERR
                                  else if period == YEARLY then ALARM_YEARLY_NOT_SUPP_ERR
                                  else if period == EVERYMINUTE then ALARM_EVERYMINUTE_NOT_SUPP_ERR
                                  else ALARM_EVERYSECOND_NOT_SUPP_ERR)
    ensures r.Ok? ==> (r.value.am1 == 0 <==> period >= EVERYMINUTE) && (r.value.am2 == 0 <==> period >= HOURLY) &&
                      (r.value.am3 == 0 <==> period >= DAILY) && (r.value.am4 == 0 <==> period >= WEEKLY) &&
                      (r.value.dyDt == 0 <==> period >= MONTHLY) && (r.value.am5 == 0 <==> period >= YEARLY) &&
                      (r.value.am6 == 0 <==> period == ONETIME)
  {
    if period < EVERYSECOND || period > ONETIME then Err(INVALID_ALARM_PERIOD_ERR)
    else SwitchFrom(period, alarmNo, period, AlarmMasks(1, 1, 1, 1, 1, 1, 1))
  }

  /** The alarm block `stale` with set_alarm_period's flags stored into it. */
  function ApplyMasks(stale: seq<Byte>, m: AlarmMasks): (b: seq<Byte>)
    requires |stale| == 6
    ensures |b| == 6 && b[5] == stale[5]
  {
    [Put(stale[0], Am, m.am1),
     Put(stale[1], Am, m.am2),
     Put(stale[2], Am, m.am3),
     Put(Put(stale[3], Am, m.am4), DyDt, m.dyDt),
     Put(Put(stale[4], Am5, m.am5), Am6, m.am6),
     stale[5]]
  }

  /**
   * The alarm hours register as time_to_alarm_regs fills it in: the BCD hour
   * in 24-hour form, or the BCD 12-hour value and the PM bit; the 12/24-hour
   * flag is not touched.
   */
  function AlarmHours(b: Byte, hour: int, format: int): Byte
    requires format == HOUR24 || format == HOUR12
  {
    if format == HOUR24 then Store(b, Hours24, Bcd.FromBin(hour))
    else
      var h := To12Hr(U8(hour));
      Put(Store(b, Hours12, Bcd.FromBin(h.hr12 as int)), AmPm, h.pm)
  }

  /**
   * time_to_alarm_regs: BCD seconds and minutes, the hour in the given
   * format (-4 for an unknown one), the date when the block's selector is 0
   * and the weekday (not one-based) otherwise, the month and the year
   * without century (-5 before 2000).
   */
  function TimeToAlarmRegs(block: seq<Byte>, t: Tm, format: int): (r: Result<seq<Byte>>)
    requires |block| == 6
    ensures r.Err? <==> (format != HOUR24 && format != HOUR12) || t.year < 100
    ensures r.Err? ==> r.code == if format != HOUR24 && format != HOUR12 then INVALID_TIME_ERR else INVALID_DATE_ERR
    ensures r.Ok? ==> |r.value| == 6
  {
    if format != HOUR24 && format != HOUR12 then Err(INVALID_TIME_ERR)
    else if t.year < 100 then Err(INVALID_DATE_ERR)
    else
      var hrs := AlarmHours(block[2], t.hour, format);
      var dd := if Get(block[3], DyDt) == 0 then Store(block[3], Bcd6, Bcd.FromBin(t.mday))
                else Store(block[3], Bcd3, Bcd.FromBin(t.wday));
      var yy := YearOfCentury(t.year);
      Ok([Store(block[0], Bcd7, Bcd.FromBin(t.sec)),
          Store(block[1], Bcd7, Bcd.FromBin(t.min)),
          hrs, dd,
          Store(block[4], Bcd5, Bcd.FromBin(t.mon + 1)),
          Store(block[5], Bcd8, Bcd.FromBin(yy))])
  }

  /**
   * set_alarm's pure part: the period's flags, then the time values, into
   * the uninitialised block `stale`; the hour format is the one read from
   * the chip.
   */
  function EncodeAlarm(alarmNo: int, t: Tm, period: int, format: int, stale: seq<Byte>): (r: Result<seq<Byte>>)
    requires |stale| == 6
    ensures PeriodMasks(alarmNo, period).Err? ==> r == Err(PeriodMasks(alarmNo, period).code)
    ensures PeriodMasks(alarmNo, period).Ok? ==> r == TimeToAlarmRegs(ApplyMasks(stale, PeriodMasks(alarmNo, period).value), t, format)
  {
    match PeriodMasks(alarmNo, period)
    case Err(code) => Err(code)
    case Ok(m) => TimeToAlarmRegs(ApplyMasks(stale, m), t, format)
  }

  /**
   * get_alarm's period chain: EVERYSECOND, then each cleared flag overrides
   * in the order am1 (alarm 1 only), am2, am3, am4, dy_dt_match, am5 and am6
   * (alarm 1 only); the last one wins.
   */
  function AlarmPeriod(alarmNo: int, block: seq<Byte>): int
    requires |block| == 6
  {
    var p1 := if alarmNo == ALARM1 && Get(block[0], Am) == 0 then EVERYMINUTE else EVERYSECOND;
    var p2 := if Get(block[1], Am) == 0 then HOURLY else p1;
    var p3 := if Get(block[2], Am) == 0 then DAILY else p2;
    var p4 := if Get(block[3], Am) == 0 then WEEKLY else p3;
    var p5 := if Get(block[3], DyDt) == 0 then MONTHLY else p4;
    var p6 := if alarmNo == ALARM1 && Get(block[4], Am5) == 0 then YEARLY else p5;
    if alarmNo == ALARM1 && Get(block[4], Am6) == 0 then ONETIME else p6
  }

  /** For every period set_alarm_period accepts, get_alarm's chain gives that period back. */
  lemma AlarmPeriodRoundTrip(alarmNo: int, period: int, stale: seq<Byte>)
    requires alarmNo == ALARM1 || alarmNo == ALARM2
    requires |stale| == 6 && PeriodMasks(alarmNo, period).Ok?
    ensures AlarmPeriod(alarmNo, ApplyMasks(stale, PeriodMasks(alarmNo, period).value)) == period
  {
    var m := PeriodMasks(alarmNo, period).value;
    var b := ApplyMasks(stale, m);
    assert Get(b[0], Am) == m.am1 && Get(b[1], Am) == m.am2 && Get(b[2], Am) == m.am3;
    assert Get(b[3], Am) == m.am4 && Get(b[3], DyDt) == m.dyDt;
    assert Get(b[4], Am5) == m.am5 && Get(b[4], Am6) == m.am6;
  }

  /**
   * alarm_regs_to_time's hour: BCD in 24-hour form; in 12-hour form the
   * BCD value plus 12 for PM below 12, 0 for 12 AM, and otherwise (or for an
   * unknown format) the caller's `prior` hour.
   */
  function AlarmHour(prior: int, b: Byte, format: int): int
  {
    var h := Bcd.ToBin(Get(b, Hours12));
    if format == HOUR24 then Bcd.ToBin(Get(b, Hours24))
    else if format == HOUR12 then
      if Get(b, AmPm) != 0 then (if h < 12 then h + 12 else prior)
      else (if h == 12 then h - 12 else prior)
    else prior
  }

  /**
   * alarm_regs_to_time into the caller's `prior`: minutes; the hour in the
   * given format (left as it was for a 12-hour register neither test
   * matches); the selected one of date and weekday, the other set to 0;
   * and for alarm 1 also seconds, month, and the year plus 100 (there is
   * no century bit).
   */
  function AlarmRegsToTime(alarmNo: int, prior: Tm, block: seq<Byte>, format: int): Tm
    requires |block| == 6
  {
    var t2 := prior.(min := Bcd.ToBin(Get(block[1], Bcd7)), hour := AlarmHour(prior.hour, block[2], format));
    var t3 :=
      if Get(block[3], DyDt) == 0 then t2.(mday := Bcd.ToBin(Get(block[3], Bcd6)), wday := 0)
      else t2.(wday := Bcd.ToBin(Get(block[3], Bcd3)), mday := 0);
    if alarmNo == ALARM1 then
      t3.(sec := Bcd.ToBin(Get(block[0], Bcd7)), mon := Bcd.ToBin(Get(block[4], Bcd5)) - 1,
          year := Bcd.ToBin(Get(block[5], Bcd8)) + 100)
    else t3
  }

  /** Which register of the block time_to_alarm_regs writes holds which field of the time. */
  lemma AlarmLayout(a: seq<Byte>, t: Tm, format: int)
    requires InRange(t) && |a| == 6 && (format == HOUR24 || format == HOUR12)
    ensures TimeToAlarmRegs(a, t, format).Ok?
    ensures var b := TimeToAlarmRegs(a, t, format).value;
            b[0] == Store(a[0], Bcd7, Bcd.FromBin(t.sec)) &&
            b[1] == Store(a[1], Bcd7, Bcd.FromBin(t.min)) &&
            b[2] == AlarmHours(a[2], t.hour, format) &&
            (Get(a[3], DyDt) == 0 ==> b[3] == Store(a[3], Bcd6, Bcd.FromBin(t.mday))) &&
            (Get(a[3], DyDt) != 0 ==> b[3] == Store(a[3], Bcd3, Bcd.FromBin(t.wday))) &&
            b[4] == Store(a[4], Bcd5, Bcd.FromBin(t.mon + 1)) &&
            b[5] == Store(a[5], Bcd8, Bcd.FromBin(YearOfCentury(t.year)))
  {
    var dd := if Get(a[3], DyDt) == 0 then Store(a[3], Bcd6, Bcd.FromBin(t.mday))
              else Store(a[3], Bcd3, Bcd.FromBin(t.wday));
    assert TimeToAlarmRegs(a, t, format).value ==
      [Store(a[0], Bcd7, Bcd.FromBin(t.sec)), Store(a[1], Bcd7, Bcd.FromBin(t.min)),
       AlarmHours(a[2], t.hour, format), dd,
       Store(a[4], Bcd5, Bcd.FromBin(t.mon + 1)), Store(a[5], Bcd8, Bcd.FromBin(YearOfCentury(t.year)))];
  }

  /** Writing the hour keeps the hours register's mask flag. */
  lemma AlarmHoursFlag(b: Byte, hour: int, format: int)
    requires format == HOUR24 || format == HOUR12
    ensures Get(AlarmHours(b, hour, format), Am) == Get(b, Am)
  {
    if format == HOUR24 {
      GetFramed(b, AlarmHours(b, hour, format), 0x3F, Am);
    } else {
      var h := To12Hr(U8(hour));
      var s := Store(b, Hours12, Bcd.FromBin(h.hr12 as int));
      GetFramed(b, s, 0x1F, Am);
      GetFramed(s, Put(s, AmPm, h.pm), 0x20, Am);
    }
  }

  /** Writing the time values keeps every mask flag and the day/date selector of the block. */
  lemma AlarmFlagsKept(a: seq<Byte>, t: Tm, format: int)
    requires |a| == 6 && TimeToAlarmRegs(a, t, format).Ok?
    ensures var b := TimeToAlarmRegs(a, t, format).value;
            Get(b[0], Am) == Get(a[0], Am) && Get(b[1], Am) == Get(a[1], Am) && Get(b[2], Am) == Get(a[2], Am) &&
            Get(b[3], Am) == Get(a[3], Am) && Get(b[3], DyDt) == Get(a[3], DyDt) &&
            Get(b[4], Am5) == Get(a[4], Am5) && Get(b[4], Am6) == Get(a[4], Am6)
  {
    var b := TimeToAlarmRegs(a, t, format).value;
    assert b[0] == Store(a[0], Bcd7, Bcd.FromBin(t.sec));
    assert b[1] == Store(a[1], Bcd7, Bcd.FromBin(t.min));
    assert b[2] == AlarmHours(a[2], t.hour, format);
    assert b[4] == Store(a[4], Bcd5, Bcd.FromBin(t.mon + 1));
    GetFramed(a[0], b[0], 0x7F, Am);
    GetFramed(a[1], b[1], 0x7F, Am);
    AlarmHoursFlag(a[2], t.hour, format);
    if Get(a[3], DyDt) == 0 {
      assert b[3] == Store(a[3], Bcd6, Bcd.FromBin(t.mday));
      GetFramed(a[3], b[3], 0x3F, Am);
      GetFramed(a[3], b[3], 0x3F, DyDt);
    } else {
      assert b[3] == Store(a[3], Bcd3, Bcd.FromBin(t.wday));
      GetFramed(a[3], b[3], 0x07, Am);
      GetFramed(a[3], b[3], 0x07, DyDt);
    }
    GetFramed(a[4], b[4], 0x1F, Am5);
    GetFramed(a[4], b[4], 0x1F, Am6);
  }

  /**
   * Setting an alarm in 24-hour form and decoding the block gives back the
   * period, minutes, hour and the selected date or weekday (the other 0);
   * for alarm 1 also the seconds, the month, and the year — which for
   * 2100..2199 comes back a century early.
   */
  lemma AlarmRoundTrip24(alarmNo: int, t: Tm, period: int, stale: seq<Byte>, prior: Tm)
    requires alarmNo == ALARM1 || alarmNo == ALARM2
    requires InRange(t) && |stale| == 6 && PeriodMasks(alarmNo, period).Ok?
    ensures EncodeAlarm(alarmNo, t, period, HOUR24, stale).Ok?
    ensures var b := EncodeAlarm(alarmNo, t, period, HOUR24, stale).value;
            var day := if period >= MONTHLY then prior.(mday := t.mday, wday := 0) else prior.(wday := t.wday, mday := 0);
            AlarmPeriod(alarmNo, b) == period &&
            AlarmRegsToTime(alarmNo, prior, b, HOUR24) ==
              if alarmNo == ALARM1
              then day.(sec := t.sec, min := t.min, hour := t.hour, mon := t.mon,
                        year := if t.year >= 200 then t.year - 100 else t.year)
              else day.(min := t.min, hour := t.hour)
  {
    AlarmPeriodKept24(alarmNo, t, period, stale);
    AlarmTime24(alarmNo, t, period, stale, prior);
  }

  /** The period set_alarm encodes in 24-hour form is the one get_alarm's chain finds. */
  lemma AlarmPeriodKept24(alarmNo: int, t: Tm, period: int, stale: seq<Byte>)
    requires alarmNo == ALARM1 || alarmNo == ALARM2
    requires InRange(t) && |stale| == 6 && PeriodMasks(alarmNo, period).Ok?
    ensures EncodeAlarm(alarmNo, t, period, HOUR24, stale).Ok?
    ensures AlarmPeriod(alarmNo, EncodeAlarm(alarmNo, t, period, HOUR24, stale).value) == period
  {
    var a := ApplyMasks(stale, PeriodMasks(alarmNo, period).value);
    AlarmPeriodRoundTrip(alarmNo, period, stale);
    AlarmFlagsKept(a, t, HOUR24);
  }

  /** The time set_alarm encodes in 24-hour form decodes to the fields the block holds. */
  lemma AlarmTime24(alarmNo: int, t: Tm, period: int, stale: seq<Byte>, prior: Tm)
    requires alarmNo == ALARM1 || alarmNo == ALARM2
    requires InRange(t) && |stale| == 6 && PeriodMasks(alarmNo, period).Ok?
    ensures EncodeAlarm(alarmNo, t, period, HOUR24, stale).Ok?
    ensures var b := EncodeAlarm(alarmNo, t, period, HOUR24, stale).value;
            var day := if period >= MONTHLY then prior.(mday := t.mday, wday := 0) else prior.(wday := t.wday, mday := 0);
            AlarmRegsToTime(alarmNo, prior, b, HOUR24) ==
              if alarmNo == ALARM1
              then day.(sec := t.sec, min := t.min, hour := t.hour, mon := t.mon,
                        year := if t.year >= 200 then t.year - 100 else t.year)
              else day.(min := t.min, hour := t.hour)
  {
    var m := PeriodMasks(alarmNo, period).value;
    var a := ApplyMasks(stale, m);
    assert Get(a[3], DyDt) == m.dyDt;
    AlarmFlagsKept(a, t, HOUR24);
    AlarmLayout(a, t, HOUR24);
    AlarmStored24(alarmNo, TimeToAlarmRegs(a, t, HOUR24).value, a, t, prior);
  }

  /** A block into which time_to_alarm_regs stored a time in 24-hour form decodes to that time. */
  lemma AlarmStored24(alarmNo: int, b: seq<Byte>, a: seq<Byte>, t: Tm, prior: Tm)
    requires InRange(t) && |a| == 6 && |b| == 6
    requires b[0] == Store(a[0], Bcd7, Bcd.FromBin(t.sec)) && b[1] == Store(a[1], Bcd7, Bcd.FromBin(t.min))
    requires b[2] == Store(a[2], Hours24, Bcd.FromBin(t.hour))
    requires Get(a[3], DyDt) == 0 ==> b[3] == Store(a[3], Bcd6, Bcd.FromBin(t.mday))
    requires Get(a[3], DyDt) != 0 ==> b[3] == Store(a[3], Bcd3, Bcd.FromBin(t.wday))
    requires b[4] == Store(a[4], Bcd5, Bcd.FromBin(t.mon + 1))
    requires b[5] == Store(a[5], Bcd8, Bcd.FromBin(YearOfCentury(t.year)))
    requires Get(b[3], DyDt) == Get(a[3], DyDt)
    ensures var day := if Get(a[3], DyDt) == 0 then prior.(mday := t.mday, wday := 0) else prior.(wday := t.wday, mday := 0);
            AlarmRegsToTime(alarmNo, prior, b, HOUR24) ==
              if alarmNo == ALARM1
              then day.(sec := t.sec, min := t.min, hour := t.hour, mon := t.mon,
                        year := if t.year >= 200 then t.year - 100 else t.year)
              else day.(min := t.min, hour := t.hour)
  {
    Bcd.ReadsBack(b, 0, a[0], Bcd7, t.sec);
    Bcd.ReadsBack(b, 1, a[1], Bcd7, t.min);
    Bcd.ReadsBack(b, 2, a[2], Hours24, t.hour);
    if Get(a[3], DyDt) == 0 {
      Bcd.ReadsBack(b, 3, a[3], Bcd6, t.mday);
    } else {
      Bcd.ReadsBack(b, 3, a[3], Bcd3, t.wday);
    }
    Bcd.ReadsBack(b, 4, a[4], Bcd5, t.mon + 1);
    Bcd.ReadsBack(b, 5, a[5], Bcd8, YearOfCentury(t.year));
    AlarmDecode24(alarmNo, b, t, prior, if t.year >= 200 then t.year - 100 else t.year);
  }

  /** A block whose fields hold a time's values decodes in 24-hour form to that time. */
  lemma AlarmDecode24(alarmNo: int, b: seq<Byte>, t: Tm, prior: Tm, year: int)
    requires |b| == 6
    requires Bcd.ToBin(Get(b[0], Bcd7)) == t.sec && Bcd.ToBin(Get(b[1], Bcd7)) == t.min
    requires Bcd.ToBin(Get(b[2], Hours24)) == t.hour
    requires Get(b[3], DyDt) == 0 ==> Bcd.ToBin(Get(b[3], Bcd6)) == t.mday
    requires Get(b[3], DyDt) != 0 ==> Bcd.ToBin(Get(b[3], Bcd3)) == t.wday
    requires Bcd.ToBin(Get(b[4], Bcd5)) == t.mon + 1 && Bcd.ToBin(Get(b[5], Bcd8)) + 100 == year
    ensures var day := if Get(b[3], DyDt) == 0 then prior.(mday := t.mday, wday := 0) else prior.(wday := t.wday, mday := 0);
            AlarmRegsToTime(alarmNo, prior, b, HOUR24) ==
              if alarmNo == ALARM1
              then day.(sec := t.sec, min := t.min, hour := t.hour, mon := t.mon, year := year)
              else day.(min := t.min, hour := t.hour)
  {}

  /** In 12-hour form the alarm hours register holds the BCD 12-hour value and the PM flag. */
  lemma AlarmHour12Fields(b: Byte, hour: int)
    requires 0 <= hour <= 23
    ensures var h := To12Hr(U8(hour)); var r := AlarmHours(b, hour, HOUR12);
            Bcd.ToBin(Get(r, Hours12)) == h.hr12 as int && Get(r, AmPm) == h.pm
  {
    var h := To12Hr(U8(hour));
    assert U8(hour) <= 23 by {
      assert U8(hour) as int == hour;
    }
    var x := h.hr12 as int;
    Bcd.StoreRoundTrip(b, Hours12, x);
    PmBit(Store(b, Hours12, Bcd.FromBin(x)), h.pm);
  }

  /** Setting the PM bit keeps the 12-hour value and reads back as set. */
  lemma PmBit(s: Byte, pm: Byte)
    requires pm < 2
    ensures Get(Put(s, AmPm, pm), Hours12) == Get(s, Hours12) && Get(Put(s, AmPm, pm), AmPm) == pm
  {
    GetFramed(s, Put(s, AmPm, pm), 0x20, Hours12);
  }


  /**
   * In 12-hour form the alarm hour reads back only for midnight and for
   * 1 PM .. 11 PM; for 1 AM .. 12 PM neither of the decoder's tests matches
   * and the caller's hour is left as it was.
   */
  lemma AlarmHour12(b: Byte, hour: int, prior: int)
    requires 0 <= hour <= 23
    ensures AlarmHour(prior, AlarmHours(b, hour, HOUR12), HOUR12) == if hour == 0 || hour >= 13 then hour else prior
  {
    AlarmHour12Fields(b, hour);
    To12HrValue(hour);
  }

  /**
   * get_alarm's enable test `raw & (AnIE == AnIE)`: the comparison binds
   * first, so both alarms test bit 0, the alarm 1 enable.
   */
  predicate IsEnabled(raw: Byte, alarmNo: int)
  {
    raw & (if alarmNo == ALARM1 then (if A1IE == A1IE then 1 else 0) else (if A2IE == A2IE then 1 else 0)) != 0
  }

  /** Alarm 2 is reported enabled exactly when alarm 1's enable bit is set, whatever A2IE holds. */
  lemma IsEnabledBit0(raw: Byte)
    ensures IsEnabled(raw, ALARM1) <==> raw & A1IE != 0
    ensures IsEnabled(raw, ALARM2) <==> raw & A1IE != 0
    ensures IsEnabled(A2IE, ALARM2) == false && IsEnabled(A1IE, ALARM2) == true
  {}

  // ---------------------------------------------------------------------
  // Register bytes of the read-modify-write operations
  // ---------------------------------------------------------------------

  /** The timer's enable and pause bits set as timer_start/pause/continue/stop set them. */
  function TimerControl(b: Byte, te: U1, tpause: U1): Byte
  {
    Put(Put(b, Te, te), Tpause, tpause)
  }

  /** Setting the enable and pause bits changes no other bit of TIMER_CONFIG. */
  lemma TimerControlBits(b: Byte, te: U1, tpause: U1)
    ensures Get(TimerControl(b, te, tpause), Te) == te && Get(TimerControl(b, te, tpause), Tpause) == tpause
    ensures TimerControl(b, te, tpause) & !0x18 == b & !0x18
  {}

  /** TIMER_CONFIG as timer_init leaves it: reset, paused, repeat mode and frequency as requested. */
  function TimerInitConfig(b: Byte, repeat: bool, freq: int): Byte
  {
    Store(Put(TimerControl(b, 0, 1), Trpt, if repeat then 1 else 0), Tfs, freq)
  }

  /** timer_init leaves TE 0, TPAUSE 1, TRPT the repeat flag and TFS the frequency, and the top bits as they were. */
  lemma TimerInitBits(b: Byte, repeat: bool, freq: int)
    requires 0 <= freq < 4
    ensures var r := TimerInitConfig(b, repeat, freq);
            Get(r, Te) == 0 && Get(r, Tpause) == 1 && (Get(r, Trpt) == 1 <==> repeat) &&
            Get(r, Tfs) as int == freq && r & 0xE0 == b & 0xE0
  {
    var c := Put(TimerControl(b, 0, 1), Trpt, if repeat then 1 else 0);
    GetFramed(c, TimerInitConfig(b, repeat, freq), 0x03, Te);
    GetFramed(c, TimerInitConfig(b, repeat, freq), 0x03, Tpause);
    GetFramed(c, TimerInitConfig(b, repeat, freq), 0x03, Trpt);
    assert U8(freq) == freq as Byte;
  }

  /**
   * PWR_MGMT as supply_select leaves it: VCC is manual selection of the main
   * supply, VBAT manual selection of the backup; AUTO and every other value
   * only clear manual selection.
   */
  function SupplyConfig(b: Byte, supply: int): Byte
  {
    if supply == SUPPLY_VCC then Put(Put(b, ManualSel, 1), VbackSel, 0)
    else if supply == SUPPLY_VBAT then Put(Put(b, ManualSel, 1), VbackSel, 1)
    else Put(b, ManualSel, 0)
  }

  /** supply_select changes only the two selection bits, and the backup selection only when it selects manually. */
  lemma SupplyBits(b: Byte, supply: int)
    ensures var r := SupplyConfig(b, supply);
            r & !0x03 == b & !0x03 &&
            (Get(r, ManualSel) == 1 <==> supply == SUPPLY_VCC || supply == SUPPLY_VBAT) &&
            (supply == SUPPLY_VCC ==> Get(r, VbackSel) == 0) && (supply == SUPPLY_VBAT ==> Get(r, VbackSel) == 1) &&
            (supply != SUPPLY_VCC && supply != SUPPLY_VBAT ==> Get(r, VbackSel) == Get(b, VbackSel))
  {}

  /**
   * TRICKLE_REG as trickle_charger_enable writes it, built on an
   * uninitialised byte `stale`: the resistor code in the 3-bit field, bit 2
   * of the field set for the diode, and the charger enabled.
   */
  function TrickleEnableConfig(stale: Byte, res: int, diode: bool): Byte
  {
    var t := Store(stale, Trickle, res);
    var d := if diode then Put(t, Trickle, Get(t, Trickle) | 0x04) else t;
    Put(d, EnTrickle, 1)
  }

  /** The written byte enables the charger with the resistor code and diode requested; bits 4..7 are whatever the local held. */
  lemma TrickleBits(stale: Byte, res: int, diode: bool)
    requires 0 <= res < 4
    ensures var r := TrickleEnableConfig(stale, res, diode);
            Get(r, EnTrickle) == 1 && Get(r, Trickle) as int == res + (if diode then 4 else 0) &&
            r & 0xF0 == stale & 0xF0
  {
    assert U8(res) == res as Byte;
  }

  /** SWAPBYTES on a 16-bit value. */
  function SwapBytes(v: int): (r: int)
    requires 0 <= v < 0x1_0000
    ensures 0 <= r < 0x1_0000
  {
    (v % 256) * 256 + v / 256
  }

  /**
   * The bytes MAX31334's timer_init sends for a 16-bit count: the swapped
   * value as it lies in a little-endian host's memory.
   */
  function TimerInitBytes(v: int): seq<Byte>
    requires 0 <= v < 0x1_0000
  {
    var w := SwapBytes(v);
    [U8(w % 256), U8(w / 256)]
  }

  /** MAX31334's timer_get: the two bytes read into a little-endian `uint16_t`, then swapped. */
  function TimerCount(data: seq<Byte>): int
    requires |data| == 2
  {
    SwapBytes(data[0] as int + 256 * (data[1] as int))
  }

  /**
   * A 16-bit count goes out most significant byte first, and reading two
   * bytes in that order gives the count back.
   */
  lemma TimerCountRoundTrip(v: int)
    requires 0 <= v < 0x1_0000
    ensures TimerInitBytes(v) == [U8(v / 256), U8(v % 256)]
    ensures TimerCount(TimerInitBytes(v)) == v
  {
    TimerInitWire(v);
    TimerCountBytes(v / 256, v % 256);
  }

  lemma TimerInitWire(v: int)
    requires 0 <= v < 0x1_0000
    ensures TimerInitBytes(v) == [U8(v / 256), U8(v % 256)]
  {
    var hi, lo := v / 256, v % 256;
    assert SwapBytes(v) == lo * 256 + hi;
    Split256(lo, hi);
  }

  lemma TimerCountBytes(hi: int, lo: int)
    requires 0 <= hi < 256 && 0 <= lo < 256
    ensures TimerCount([U8(hi), U8(lo)]) == hi * 256 + lo
  {
    var data := [U8(hi), U8(lo)];
    TimerCountValue(data);
    assert data[0] as int == hi && data[1] as int == lo;
  }

  /** The count timer_get returns: the first byte read is the most significant. */
  lemma TimerCountValue(data: seq<Byte>)
    requires |data| == 2
    ensures TimerCount(data) == data[0] as int * 256 + data[1] as int
  {
    var hi, lo := data[0] as int, data[1] as int;
    Split256(lo, hi);
  }

  /** A 16-bit value from its two bytes and back. */
  lemma Split256(hi: int, lo: int)
    requires 0 <= hi < 256 && 0 <= lo < 256
    ensures (hi * 256 + lo) % 256 == lo && (hi * 256 + lo) / 256 == hi
    ensures (lo + 256 * hi) % 256 == lo && (lo + 256 * hi) / 256 == hi
  {}

  /** timestamp_record_enable/disable's guard: only masks numerically above TSVLOW | TSPWM | TSDIN are refused. */
  predicate RecordMaskAccepted(mask: Byte)
  {
    mask <= TSVLOW | TSPWM | TSDIN
  }

  /**
   * Every combination of the three record masks is accepted, and so are
   * values below 0x38 that contain other bits.
   */
  lemma RecordMasks(mask: Byte)
    ensures mask & !(TSVLOW | TSPWM | TSDIN) == 0 ==> RecordMaskAccepted(mask)
    ensures RecordMaskAccepted(0x07) && 0x07 & (TSVLOW | TSPWM | TSDIN) == 0
    ensures RecordMaskAccepted(mask) <==> mask <= 0x38
  {}

  /** RTC_CONFIG1 and RTC_CONFIG2 settings (rtc_config_t). */
  datatype RtcConfig = RtcConfig(a1ac: int, dip: int, dataRet: int, i2cTimeout: int, enOsc: int,
                                 clkoHz: int, enclko: int, ddb: int, dse: int)

  /** Each setting fits its bit field. */
  predicate ConfigFits(c: RtcConfig)
  {
    0 <= c.a1ac < 4 && 0 <= c.dip < 2 && 0 <= c.dataRet < 2 && 0 <= c.i2cTimeout < 2 && 0 <= c.enOsc < 2 &&
    0 <= c.clkoHz < 4 && 0 <= c.enclko < 2 && 0 <= c.ddb < 2 && 0 <= c.dse < 2
  }

  /** rtc_config's RTC_CONFIG1, built on an uninitialised byte. */
  function Config1Byte(stale: Byte, c: RtcConfig): Byte
  {
    Store(Store(Store(Store(Store(stale, A1ac, c.a1ac), Dip, c.dip), DataRet, c.dataRet), I2cTimeout, c.i2cTimeout), EnOsc, c.enOsc)
  }

  /** rtc_config's RTC_CONFIG2, built on an uninitialised byte; MAX31334 also sets ddb and dse. */
  function Config2Byte(stale: Byte, c: RtcConfig, max31334: bool): Byte
  {
    var b := Store(Store(stale, ClkoHz, c.clkoHz), EnClko, c.enclko);
    if max31334 then Store(Store(b, Ddb, c.ddb), Dse, c.dse) else b
  }

  /** get_rtc_config's RTC_CONFIG1 fields, into the caller's record. */
  function DecodeConfig1(prior: RtcConfig, b: Byte): RtcConfig
  {
    prior.(a1ac := Get(b, A1ac) as int, dip := Get(b, Dip) as int, dataRet := Get(b, DataRet) as int,
           i2cTimeout := Get(b, I2cTimeout) as int, enOsc := Get(b, EnOsc) as int)
  }

  /** get_rtc_config's RTC_CONFIG2 fields, into the caller's record; MAX31331 has no ddb and dse. */
  function DecodeConfig2(prior: RtcConfig, b: Byte, max31334: bool): RtcConfig
  {
    var c := prior.(clkoHz := Get(b, ClkoHz) as int, enclko := Get(b, EnClko) as int);
    if max31334 then c.(ddb := Get(b, Ddb) as int, dse := Get(b, Dse) as int) else c
  }

  /** Every RTC_CONFIG1 setting that fits its field reads back unchanged. */
  lemma Config1RoundTrip(stale: Byte, c: RtcConfig, prior: RtcConfig)
    requires ConfigFits(c)
    ensures DecodeConfig1(prior, Config1Byte(stale, c)) ==
              prior.(a1ac := c.a1ac, dip := c.dip, dataRet := c.dataRet, i2cTimeout := c.i2cTimeout, enOsc := c.enOsc)
  {
    assert U8(c.a1ac) == c.a1ac as Byte && U8(c.dip) == c.dip as Byte && U8(c.dataRet) == c.dataRet as Byte;
    assert U8(c.i2cTimeout) == c.i2cTimeout as Byte && U8(c.enOsc) == c.enOsc as Byte;
  }

  /** Every RTC_CONFIG2 setting the chip has, when it fits its field, reads back unchanged. */
  lemma Config2RoundTrip(stale: Byte, c: RtcConfig, prior: RtcConfig, max31334: bool)
    requires ConfigFits(c)
    ensures DecodeConfig2(prior, Config2Byte(stale, c, max31334), max31334) ==
              if max31334 then prior.(clkoHz := c.clkoHz, enclko := c.enclko, ddb := c.ddb, dse := c.dse)
              else prior.(clkoHz := c.clkoHz, enclko := c.enclko)
  {
    assert U8(c.clkoHz) == c.clkoHz as Byte && U8(c.enclko) == c.enclko as Byte;
    assert U8(c.ddb) == c.ddb as Byte && U8(c.dse) == c.dse as Byte;
  }

  // ---------------------------------------------------------------------
  // Timestamps
  // ---------------------------------------------------------------------

  /** A register address computed in `uint8_t`: base plus `n` banks of 8, wrapping at 256. */
  function BankAddress(base: int, n: int): (a: int)
    ensures 0 <= a < 256
    ensures 0 <= base && 0 <= n && base + TS_BANK * n < 256 ==> a == base + TS_BANK * n
  {
    (base + TS_BANK * n) % 256
  }

  /**
   * timestamp_regs_to_time into the caller's `prior`: seconds, minutes,
   * hour (`junk` where hours_reg_to_hour has no value), date, month and
   * year with century; the weekday is not recorded and stays as it was.
   */
  function TimestampToTime(block: seq<Byte>, prior: Tm, junk: int): Tm
    requires |block| == 7
  {
    var year := Bcd.ToBin(Get(block[6], Bcd8)) + (if Get(block[5], Century) != 0 then 200 else 100);
    prior.(sec := Bcd.ToBin(Get(block[1], Bcd7)),
           min := Bcd.ToBin(Get(block[2], Bcd7)),
           hour := match HoursRegToHour(block[3]) case Some(h) => h case None => junk,
           mday := Bcd.ToBin(Get(block[4], Bcd6)),
           mon := Bcd.ToBin(Get(block[5], Bcd5)) - 1,
           year := year, yday := 0, isdst := 0)
  }

  /**
   * A timestamp bank holds the time block without the day register, and
   * decodes as the time block does, except that the weekday is not set.
   */
  lemma TimestampIsTime(block: seq<Byte>, prior: Tm, junk: int)
    requires |block| == 8
    ensures TimestampToTime(block[..4] + block[5..], prior, junk) == RtcRegsToTime(block, junk).(wday := prior.wday)
  {
    var ts := block[..4] + block[5..];
    assert ts[1] == block[1] && ts[2] == block[2] && ts[3] == block[3];
    assert ts[4] == block[5] && ts[5] == block[6] && ts[6] == block[7];
  }

  /**
   * Alarm 2 has only the minutes, hours and day/date registers: its period
   * and its decoded time depend on nothing else in the block.
   */
  lemma Alarm2Registers(b1: seq<Byte>, b2: seq<Byte>, prior: Tm, format: int)
    requires |b1| == 6 && |b2| == 6 && b1[1..4] == b2[1..4]
    ensures AlarmPeriod(ALARM2, b1) == AlarmPeriod(ALARM2, b2)
    ensures AlarmRegsToTime(ALARM2, prior, b1, format) == AlarmRegsToTime(ALARM2, prior, b2, format)
  {
    assert b1[1] == b2[1] && b1[2] == b2[2] && b1[3] == b2[3];
  }

  /** The trigger get_timestamp reports: the low four bits of the bank's flags. */
  function Trigger(flags: Byte): (r: int)
    ensures 0 <= r < 16
    ensures r == 0 <==> flags & 0x0F == 0
  {
    (flags & 0x0F) as int
  }
}
