/**
 * The MAX31328 driver: its register layout, the calendar and alarm codecs
 * (pure functions over the 7-byte time block and the 4-byte alarm block),
 * and the register-level operations of class `MAX31328`, modelled by class
 * `Rtc` over the chip's register space.
 *
 * Enumerations (`alarm_no_t`, `alarm_period_t`, `intr_id_t`,
 * `sqw_out_freq_t`) are plain integers, because the driver handles values
 * outside the declared enumerators in its `default`/`else` branches.
 */
module Max31328 {
  import opened Bits
  import opened Wrappers
  import opened Calendar
  import opened RegisterMap
  import Bcd

  // ---------------------------------------------------------------------
  // Constants
  // ---------------------------------------------------------------------

  const ERR_UNKNOWN := -1
  const ERR_BUSY := -3

  // intr_id_t
  const INTR_ID_ALARM1 := 1
  const INTR_ID_ALARM2 := 2
  const INTR_ID_ALL := 0xFF

  // alarm_no_t
  const ALARM1 := 1
  const ALARM2 := 2

  // alarm_period_t
  const EVERYSECOND := 0
  const EVERYMINUTE := 1
  const HOURLY := 2
  const DAILY := 3
  const WEEKLY := 4
  const MONTHLY := 5

  // Register addresses
  const R_SECONDS: Addr := 0x00
  const R_ALRM1_SECONDS: Addr := 0x07
  const R_ALRM2_MINUTES: Addr := 0x0B
  const R_CONTROL: Addr := 0x0E
  const R_STATUS: Addr := 0x0F

  // CONTROL register masks
  const F_CTRL_A1IE: Byte := 0x01
  const F_CTRL_A2IE: Byte := 0x02
  const F_CTRL_INTCN: Byte := 0x04
  const F_CTRL_RS: Byte := 0x18
  const F_CTRL_CONV: Byte := 0x20

  // STATUS register masks
  const F_STATUS_A1F: Byte := 0x01
  const F_STATUS_A2F: Byte := 0x02
  const F_STATUS_BSY: Byte := 0x04

  /** `MAX31328_F_CTRL_A2IE | MAX31328_F_CTRL_A1IE`, and likewise for the two flags. */
  const BOTH_ALARMS: Byte := 0x03

  // Bit fields of the time block (regs_rtc_time_t)
  const Bcd7: BitField := BitField(0, 0x7F)     // seconds, minutes: bcd.value
  const Hours24: BitField := BitField(0, 0x3F)  // hours: bcd_format24.value
  const Hours12: BitField := BitField(0, 0x1F)  // hours: bcd_format12.value
  const AmPm: BitField := BitField(5, 0x20)     // hours: hr20_am_pm
  const F24_12: BitField := BitField(6, 0x40)   // hours: f24_12
  const Bcd3: BitField := BitField(0, 0x07)     // day: bcd.value; alarm bcd_day.value
  const Bcd6: BitField := BitField(0, 0x3F)     // date: bcd.value; alarm hrs, bcd_date
  const Bcd5: BitField := BitField(0, 0x1F)     // month: bcd.value
  const Century: BitField := BitField(7, 0x80)  // month: century
  const Bcd8: BitField := BitField(0, 0xFF)     // year: bcd.value

  // Bit fields of the alarm block (regs_alarm_t)
  const Axm: BitField := BitField(7, 0x80)      // axm1..axm4, bit 7 of each byte
  const DyDt: BitField := BitField(6, 0x40)     // day_date: dy_dt

  // Bit fields of reg_status_t
  const StA1f: BitField := BitField(0, 0x01)
  const StA2f: BitField := BitField(1, 0x02)
  const StBsy: BitField := BitField(2, 0x04)
  const StEn32kHz: BitField := BitField(3, 0x08)
  const StOsf: BitField := BitField(7, 0x80)

  // Bit fields of reg_cfg_t
  const CfgA1ie: BitField := BitField(0, 0x01)
  const CfgA2ie: BitField := BitField(1, 0x02)
  const CfgIntcn: BitField := BitField(2, 0x04)
  const CfgRs: BitField := BitField(3, 0x18)
  const CfgConv: BitField := BitField(5, 0x20)
  const CfgBbsqw: BitField := BitField(6, 0x40)
  const CfgEosc: BitField := BitField(7, 0x80)

  // ---------------------------------------------------------------------
  // Status and configuration records
  // ---------------------------------------------------------------------

  /** reg_status_t as the driver's getters fill it in. */
  datatype Status = Status(a1f: U1, a2f: U1, bsy: U1, en32kHz: U1, osf: U1)

  /** reg_cfg_t as the driver's getters fill it in. */
  datatype Config = Config(a1ie: U1, a2ie: U1, intcn: U1, rs: U2, conv: U1, bbsqw: U1, eosc: U1)

  /** get_status: each flag is read from its own bit of STATUS. */
  function DecodeStatus(b: Byte): Status
  {
    Status(Get(b, StA1f), Get(b, StA2f), Get(b, StBsy), Get(b, StEn32kHz), Get(b, StOsf))
  }

  /** set_status: the flags are ORed into a zero byte at their own positions. */
  function EncodeStatus(s: Status): (b: Byte)
    ensures b & 0x70 == 0
  {
    Put(Put(Put(Put(Put(0, StA1f, s.a1f), StA2f, s.a2f), StBsy, s.bsy), StEn32kHz, s.en32kHz), StOsf, s.osf)
  }

  /** Writing a status record and reading it back gives the same record. */
  lemma StatusRoundTrip(s: Status)
    ensures DecodeStatus(EncodeStatus(s)) == s
  {}

  /** Re-encoding what was read keeps every flag and clears only the unused bits 4..6. */
  lemma StatusReencode(b: Byte)
    ensures EncodeStatus(DecodeStatus(b)) == b & !0x70
  {}

  /** get_configuration: each field is read from its own bits of CONTROL. */
  function DecodeConfig(b: Byte): Config
  {
    Config(Get(b, CfgA1ie), Get(b, CfgA2ie), Get(b, CfgIntcn), Get(b, CfgRs),
           Get(b, CfgConv), Get(b, CfgBbsqw), Get(b, CfgEosc))
  }

  /** set_configuration: the fields are ORed into a zero byte at their own positions. */
  function EncodeConfig(c: Config): Byte
  {
    Put(Put(Put(Put(Put(Put(Put(0, CfgA1ie, c.a1ie), CfgA2ie, c.a2ie), CfgIntcn, c.intcn),
      CfgRs, c.rs), CfgConv, c.conv), CfgBbsqw, c.bbsqw), CfgEosc, c.eosc)
  }

  /** The configuration fields cover CONTROL exactly: encoding and decoding are inverse. */
  lemma ConfigRoundTrip(c: Config, b: Byte)
    ensures DecodeConfig(EncodeConfig(c)) == c
    ensures EncodeConfig(DecodeConfig(b)) == b
  {}

  // ---------------------------------------------------------------------
  // Time block codec (set_time / get_time)
  // ---------------------------------------------------------------------

  /**
   * set_time's encoding of `t` into the 7-byte block (seconds, minutes, hours,
   * day, date, month, year), starting from the block's uninitialised
   * contents `stale`. Only the BCD value fields and the century bit are
   * assigned; the 12/24-hour flag keeps whatever `stale` holds.
   */
  function EncodeTime(t: Tm, stale: seq<Byte>): (r: Result<seq<Byte>>)
    requires |stale| == 7
    ensures r.Err? <==> t.year < 100
    ensures r.Err? ==> r.code == ERR_UNKNOWN
    ensures r.Ok? ==> |r.value| == 7
    ensures r.Ok? ==> Get(r.value[2], F24_12) == Get(stale[2], F24_12)
    ensures r.Ok? ==> Get(r.value[5], Century) == (if CenturySet(t.year) then 1 else 0)
    ensures r.Ok? ==> r.value[6] == U8(Bcd.FromBin(YearOfCentury(t.year)))
  {
    if t.year < 100 then Err(ERR_UNKNOWN)
    else
      var century := if CenturySet(t.year) then 1 else 0;
      var yy := YearOfCentury(t.year);
      Ok([Store(stale[0], Bcd7, Bcd.FromBin(t.sec)),
          Store(stale[1], Bcd7, Bcd.FromBin(t.min)),
          Store(stale[2], Hours24, Bcd.FromBin(t.hour)),
          Store(stale[3], Bcd3, Bcd.FromBin(t.wday + 1)),
          Store(stale[4], Bcd6, Bcd.FromBin(t.mday)),
          Put(Store(stale[5], Bcd5, Bcd.FromBin(t.mon + 1)), Century, century),
          Store(stale[6], Bcd8, Bcd.FromBin(yy))])
  }

  /** get_time's reading of the hours register, in 12-hour or 24-hour form. */
  function DecodeHour(b: Byte): int
  {
    if Get(b, F24_12) != 0 then
      var h := Bcd.ToBin(Get(b, Hours12));
      if Get(b, AmPm) != 0 && h != 12 then h + 12 else h
    else
      Bcd.ToBin(Get(b, Hours24))
  }

  /** get_time's decoding of the 7-byte block; day of year and DST are set to 0. */
  function DecodeTime(block: seq<Byte>): Tm
    requires |block| == 7
  {
    var year := Bcd.ToBin(Get(block[6], Bcd8)) + (if Get(block[5], Century) != 0 then 200 else 100);
    Tm(sec := Bcd.ToBin(Get(block[0], Bcd7)),
       min := Bcd.ToBin(Get(block[1], Bcd7)),
       hour := DecodeHour(block[2]),
       mday := Bcd.ToBin(Get(block[4], Bcd6)),
       mon := Bcd.ToBin(Get(block[5], Bcd5)) - 1,
       year := year,
       wday := Bcd.ToBin(Get(block[3], Bcd3)) - 1,
       yday := 0, isdst := 0)
  }

  /** Which register of the block set_time writes holds which field of the time. */
  lemma TimeLayout(t: Tm, stale: seq<Byte>)
    requires InRange(t) && |stale| == 7
    ensures EncodeTime(t, stale).Ok?
    ensures var b := EncodeTime(t, stale).value;
            b[0] == Store(stale[0], Bcd7, Bcd.FromBin(t.sec)) &&
            b[1] == Store(stale[1], Bcd7, Bcd.FromBin(t.min)) &&
            b[2] == Store(stale[2], Hours24, Bcd.FromBin(t.hour)) &&
            b[3] == Store(stale[3], Bcd3, Bcd.FromBin(t.wday + 1)) &&
            b[4] == Store(stale[4], Bcd6, Bcd.FromBin(t.mday)) &&
            b[5] == Put(Store(stale[5], Bcd5, Bcd.FromBin(t.mon + 1)), Century, if CenturySet(t.year) then 1 else 0) &&
            b[6] == Store(stale[6], Bcd8, Bcd.FromBin(YearOfCentury(t.year)))
  {
  }

  /**
   * For every in-range time, the block set_time writes decodes to the same
   * time, provided the uninitialised 12/24-hour flag happens to be 0.
   */
  lemma TimeRoundTrip(t: Tm, stale: seq<Byte>)
    requires InRange(t) && |stale| == 7 && Get(stale[2], F24_12) == 0
    ensures EncodeTime(t, stale).Ok?
    ensures DecodeTime(EncodeTime(t, stale).value) == Cleared(t)
  {
    TimeLayout(t, stale);
    var b := EncodeTime(t, stale).value;
    Bcd.ReadsBack(b, 0, stale[0], Bcd7, t.sec);
    Bcd.ReadsBack(b, 1, stale[1], Bcd7, t.min);
    Bcd.ReadsBack(b, 2, stale[2], Hours24, t.hour);
    Bcd.ReadsBack(b, 3, stale[3], Bcd3, t.wday + 1);
    Bcd.ReadsBack(b, 4, stale[4], Bcd6, t.mday);
    Bcd.ReadsBackUnder(b, 5, stale[5], Bcd5, t.mon + 1, Century, if CenturySet(t.year) then 1 else 0);
    Bcd.ReadsBack(b, 6, stale[6], Bcd8, YearOfCentury(t.year));
  }

  /**
   * When the uninitialised 12/24-hour flag happens to be 1, get_time reads
   * the hour set_time wrote in 12-hour form: hours 20..23 come back 8 lower,
   * because bit 5 of their tens digit is taken for the PM flag.
   */
  lemma StaleTwelveHourFlag(t: Tm, stale: seq<Byte>)
    requires InRange(t) && |stale| == 7 && Get(stale[2], F24_12) == 1
    ensures EncodeTime(t, stale).Ok?
    ensures DecodeTime(EncodeTime(t, stale).value).hour == if t.hour >= 20 then t.hour - 8 else t.hour
  {
    Bcd.RoundTrip(t.hour);
  }

  /**
   * The hours register as the chip holds a 12-hour time for `h` in 0..23:
   * 12-hour flag set, PM flag for `h >= 12`, and the BCD hour 1..12
   * (midnight and noon are 12).
   */
  function TwelveHourRegister(h: int): (b: Byte)
    requires 0 <= h <= 23
    ensures Get(b, F24_12) == 1
  {
    Put(Put(Store(0, Hours12, Bcd.FromBin(ClockHour(h))), AmPm, if h >= 12 then 1 else 0), F24_12, 1)
  }

  /** The hour 0..23 on a 12-hour clock face: midnight and noon are 12. */
  function ClockHour(h: int): (r: int)
    requires 0 <= h <= 23
    ensures r == if h == 0 || h == 12 then 12 else if h < 12 then h else h - 12
  {
    if h % 12 == 0 then 12 else h % 12
  }

  /**
   * get_time decodes every 12-hour register correctly except 12 AM, which
   * it returns as hour 12 instead of 0.
   */
  lemma TwelveHourDecode(h: int)
    requires 0 <= h <= 23
    ensures DecodeHour(TwelveHourRegister(h)) == if h == 0 then 12 else h
  {
    var h12 := ClockHour(h);
    Bcd.CodeDecodes(h12);
    Bcd.CodeWidth(h12);
    TwelveHourRead(U8(Bcd.FromBin(h12)), if h >= 12 then 1 else 0);
  }

  /** A 12-hour register built from a hour code `v` and a PM flag decodes by the driver's rule. */
  lemma TwelveHourRead(v: Byte, pm: Byte)
    requires v & 0x1F == v && pm < 2
    ensures var b := Put(Put(Put(0, Hours12, v), AmPm, pm), F24_12, 1);
            DecodeHour(b) == if pm != 0 && Bcd.ToBin(v) != 12 then Bcd.ToBin(v) + 12 else Bcd.ToBin(v)
  {
    var b := Put(Put(Put(0, Hours12, v), AmPm, pm), F24_12, 1);
    assert Get(b, F24_12) == 1 && Get(b, Hours12) == v && Get(b, AmPm) == pm;
  }

  // ---------------------------------------------------------------------
  // Alarm block codec (set_alarm / get_alarm)
  // ---------------------------------------------------------------------

  /** The mask bits axm1..axm4 and the day/date selector of an alarm. */
  datatype AlarmMasks = AlarmMasks(axm1: U1, axm2: U1, axm3: U1, axm4: U1, dyDt: U1)

  /**
   * set_alarm's switch: every mask starts at 1 (don't care) and each period
   * clears a longer prefix, finest field first; MONTHLY also selects the
   * date. A period outside the enumeration is refused.
   */
  function PeriodMasks(period: int): (m: Option<AlarmMasks>)
    ensures m.Some? <==> EVERYSECOND <= period <= MONTHLY
    ensures m.Some? ==> (m.value.axm1 == 0 <==> period >= EVERYMINUTE)
    ensures m.Some? ==> (m.value.axm2 == 0 <==> period >= HOURLY)
    ensures m.Some? ==> (m.value.axm3 == 0 <==> period >= DAILY)
    ensures m.Some? ==> (m.value.axm4 == 0 <==> period >= WEEKLY)
    ensures m.Some? ==> (m.value.dyDt == 0 <==> period == MONTHLY)
  {
    if period == EVERYSECOND then Some(AlarmMasks(1, 1, 1, 1, 1))
    else if period == EVERYMINUTE then Some(AlarmMasks(0, 1, 1, 1, 1))
    else if period == HOURLY then Some(AlarmMasks(0, 0, 1, 1, 1))
    else if period == DAILY then Some(AlarmMasks(0, 0, 0, 1, 1))
    else if period == WEEKLY then Some(AlarmMasks(0, 0, 0, 0, 1))
    else if period == MONTHLY then Some(AlarmMasks(0, 0, 0, 0, 0))
    else None
  }

  /**
   * set_alarm's encoding of the 4-byte alarm block (sec, min, hrs, day_date)
   * from its uninitialised contents `stale`: the masks, then the BCD values,
   * and the date when the selector is 0, else the weekday (stored as is).
   */
  function EncodeAlarm(alarmNo: int, t: Tm, period: int, stale: seq<Byte>): (r: Result<seq<Byte>>)
    requires |stale| == 4
    ensures r.Err? <==> (alarmNo == ALARM2 && period == EVERYSECOND) || PeriodMasks(period).None?
    ensures r.Err? ==> r.code == ERR_UNKNOWN
    ensures r.Ok? ==> |r.value| == 4
  {
    if alarmNo == ALARM2 && period == EVERYSECOND then Err(ERR_UNKNOWN)
    else match PeriodMasks(period)
      case None => Err(ERR_UNKNOWN)
      case Some(m) =>
        var dd := Put(Put(stale[3], Axm, m.axm4), DyDt, m.dyDt);
        Ok([Store(Put(stale[0], Axm, m.axm1), Bcd7, Bcd.FromBin(t.sec)),
            Store(Put(stale[1], Axm, m.axm2), Bcd7, Bcd.FromBin(t.min)),
            Store(Put(stale[2], Axm, m.axm3), Bcd6, Bcd.FromBin(t.hour)),
            if m.dyDt == 0 then Store(dd, Bcd6, Bcd.FromBin(t.mday)) else Store(dd, Bcd3, Bcd.FromBin(t.wday))])
  }

  /** Where set_alarm writes: alarm 1 at its seconds register, alarm 2 at its minutes register. */
  function AlarmAddress(alarmNo: int): Addr
  {
    if alarmNo == ALARM1 then R_ALRM1_SECONDS else R_ALRM2_MINUTES
  }

  /** What set_alarm writes: the whole block for alarm 1, the block without seconds otherwise. */
  function AlarmBytes(alarmNo: int, block: seq<Byte>): (w: seq<Byte>)
    requires |block| == 4
    ensures alarmNo == ALARM1 ==> w == block
    ensures alarmNo != ALARM1 ==> w == block[1..]
  {
    if alarmNo == ALARM1 then block else block[1..]
  }

  /**
   * The block get_alarm decodes: alarm 1's four registers, or a zero seconds
   * byte followed by alarm 2's three registers.
   */
  function AlarmRead(alarmNo: int, regs: Regs): (block: seq<Byte>)
    ensures |block| == 4
    ensures alarmNo != ALARM1 ==> block[0] == 0
  {
    if alarmNo == ALARM1 then Window(regs, R_ALRM1_SECONDS, 4)
    else [0] + Window(regs, R_ALRM2_MINUTES, 3)
  }

  /** get_alarm's period chain: a starting value, then each cleared mask overrides, the last one winning. */
  function AlarmPeriod(alarmNo: int, block: seq<Byte>): int
    requires |block| == 4
  {
    var p0 := if alarmNo == ALARM1 then EVERYSECOND else EVERYMINUTE;
    var p1 := if alarmNo == ALARM1 && Get(block[0], Axm) == 0 then EVERYMINUTE else p0;
    var p2 := if Get(block[1], Axm) == 0 then HOURLY else p1;
    var p3 := if Get(block[2], Axm) == 0 then DAILY else p2;
    var p4 := if Get(block[3], Axm) == 0 then WEEKLY else p3;
    if Get(block[3], DyDt) == 0 then MONTHLY else p4
  }

  /**
   * get_alarm's decoding of the alarm time into `prior` (the caller's
   * structure): seconds, minutes and hours, and only the selected one of
   * day of month and weekday.
   */
  function AlarmTime(block: seq<Byte>, prior: Tm): Tm
    requires |block| == 4
  {
    var t := prior.(sec := Bcd.ToBin(Get(block[0], Bcd7)),
                    min := Bcd.ToBin(Get(block[1], Bcd7)),
                    hour := Bcd.ToBin(Get(block[2], Bcd6)));
    if Get(block[3], DyDt) == 0 then t.(mday := Bcd.ToBin(Get(block[3], Bcd6)))
    else t.(wday := Bcd.ToBin(Get(block[3], Bcd3)))
  }

  /** get_alarm's enable test: `CONTROL & alarm_no`. */
  predicate IsEnabled(ctrl: Byte, alarmNo: int)
  {
    ctrl & U8(alarmNo) != 0
  }

  /** The masks and selector set_alarm stores are the ones get_alarm's chain maps back to the period. */
  lemma AlarmPeriodRoundTrip(alarmNo: int, t: Tm, period: int, stale: seq<Byte>)
    requires alarmNo == ALARM1 || alarmNo == ALARM2
    requires |stale| == 4 && EncodeAlarm(alarmNo, t, period, stale).Ok?
    ensures var b := EncodeAlarm(alarmNo, t, period, stale).value;
            AlarmPeriod(alarmNo, if alarmNo == ALARM1 then b else [0] + b[1..]) == period
  {
    var m := PeriodMasks(period).value;
    var b := EncodeAlarm(alarmNo, t, period, stale).value;
    assert Get(b[0], Axm) == m.axm1;
    assert Get(b[1], Axm) == m.axm2;
    assert Get(b[2], Axm) == m.axm3;
    assert Get(b[3], Axm) == m.axm4 && Get(b[3], DyDt) == m.dyDt;
  }

  /** Which register of the block set_alarm writes holds which time field, over which flags. */
  lemma AlarmLayout(alarmNo: int, t: Tm, period: int, stale: seq<Byte>)
    requires |stale| == 4 && EncodeAlarm(alarmNo, t, period, stale).Ok?
    ensures PeriodMasks(period).Some?
    ensures var m := PeriodMasks(period).value;
            var b := EncodeAlarm(alarmNo, t, period, stale).value;
            var dd := Put(Put(stale[3], Axm, m.axm4), DyDt, m.dyDt);
            b[0] == Store(Put(stale[0], Axm, m.axm1), Bcd7, Bcd.FromBin(t.sec)) &&
            b[1] == Store(Put(stale[1], Axm, m.axm2), Bcd7, Bcd.FromBin(t.min)) &&
            b[2] == Store(Put(stale[2], Axm, m.axm3), Bcd6, Bcd.FromBin(t.hour)) &&
            (m.dyDt == 0 ==> b[3] == Store(dd, Bcd6, Bcd.FromBin(t.mday))) &&
            (m.dyDt != 0 ==> b[3] == Store(dd, Bcd3, Bcd.FromBin(t.wday)))
  {
  }

  /**
   * Setting an alarm and reading it back through the registers gives the
   * period, the seconds (0 for alarm 2), minutes and hours, and the day of
   * month (MONTHLY) or weekday (other periods) that were set.
   */
  lemma AlarmRoundTrip(alarmNo: int, t: Tm, period: int, stale: seq<Byte>, regs: Regs, prior: Tm)
    requires alarmNo == ALARM1 || alarmNo == ALARM2
    requires InRange(t) && |stale| == 4 && EncodeAlarm(alarmNo, t, period, stale).Ok?
    ensures var b := EncodeAlarm(alarmNo, t, period, stale).value;
            var back := AlarmRead(alarmNo, Overwrite(regs, AlarmAddress(alarmNo), AlarmBytes(alarmNo, b)));
            AlarmPeriod(alarmNo, back) == period &&
            AlarmTime(back, prior) ==
              (if period == MONTHLY then prior.(mday := t.mday) else prior.(wday := t.wday))
                .(sec := if alarmNo == ALARM1 then t.sec else 0, min := t.min, hour := t.hour)
  {
    var b := EncodeAlarm(alarmNo, t, period, stale).value;
    var back := AlarmRead(alarmNo, Overwrite(regs, AlarmAddress(alarmNo), AlarmBytes(alarmNo, b)));
    assert back == if alarmNo == ALARM1 then b else [0] + b[1..];
    AlarmPeriodRoundTrip(alarmNo, t, period, stale);
    var m := PeriodMasks(period).value;
    AlarmLayout(alarmNo, t, period, stale);
    Bcd.ReadsBack(b, 0, Put(stale[0], Axm, m.axm1), Bcd7, t.sec);
    Bcd.ReadsBack(b, 1, Put(stale[1], Axm, m.axm2), Bcd7, t.min);
    Bcd.ReadsBack(b, 2, Put(stale[2], Axm, m.axm3), Bcd6, t.hour);
    var dd := Put(Put(stale[3], Axm, m.axm4), DyDt, m.dyDt);
    if m.dyDt == 0 {
      Bcd.ReadsBack(b, 3, dd, Bcd6, t.mday);
    } else {
      Bcd.ReadsBack(b, 3, dd, Bcd3, t.wday);
    }
    assert Get(back[3], DyDt) == 0 <==> period == MONTHLY;
  }

  /** ALARM1 and ALARM2 equal the A1IE and A2IE masks, so the enable test reads the right bit. */
  lemma IsEnabledBit(ctrl: Byte, alarmNo: int)
    requires alarmNo == ALARM1 || alarmNo == ALARM2
    ensures IsEnabled(ctrl, alarmNo) <==> Get(ctrl, if alarmNo == ALARM1 then CfgA1ie else CfgA2ie) == 1
  {}

  // ---------------------------------------------------------------------
  // Interrupts, square wave
  // ---------------------------------------------------------------------

  /** The interrupt-enable bits irq_enable asks for: both alarms for ALL, the bits of `id` otherwise. */
  function Requested(id: int): Byte
  {
    if id == INTR_ID_ALL then F_CTRL_A2IE | F_CTRL_A1IE else U8(id)
  }

  /** irq_enable's new CONTROL byte: INTCN and the requested enables. */
  function IrqEnableByte(ctrl: Byte, id: int): Byte
  {
    (ctrl | F_CTRL_INTCN) | Requested(id)
  }

  /** irq_disable's new CONTROL byte, including the trailing `val8 &= ~id`. */
  function IrqDisableByte(ctrl: Byte, id: int): Byte
  {
    var v := if id == INTR_ID_ALL then ctrl & !F_CTRL_INTCN & !(F_CTRL_A2IE | F_CTRL_A1IE) else ctrl & !U8(id);
    v & !U8(id)
  }

  /** irq_clear_flag's new STATUS byte: both alarm flags for ALL, else the bits of `id`. */
  function IrqClearFlagByte(stat: Byte, id: int): Byte
  {
    if id == INTR_ID_ALL then stat & !(F_STATUS_A2F | F_STATUS_A1F) else stat & !U8(id)
  }

  /**
   * irq_enable sets INTCN and the requested enables and keeps every other
   * CONTROL bit.
   */
  lemma IrqEnableBits(ctrl: Byte, id: int)
    ensures Get(IrqEnableByte(ctrl, id), CfgIntcn) == 1
    ensures IrqEnableByte(ctrl, id) & Requested(id) == Requested(id)
    ensures IrqEnableByte(ctrl, id) & !(F_CTRL_INTCN | Requested(id)) == ctrl & !(F_CTRL_INTCN | Requested(id))
  {
    IntcnAndEnables(ctrl, Requested(id));
  }

  lemma IntcnAndEnables(ctrl: Byte, m: Byte)
    ensures var r := (ctrl | F_CTRL_INTCN) | m;
            Get(r, CfgIntcn) == 1 && r & m == m && r & !(F_CTRL_INTCN | m) == ctrl & !(F_CTRL_INTCN | m)
  {}

  /** After irq_enable for an alarm, or for ALL, get_alarm reports that alarm enabled. */
  lemma IrqEnableThenEnabled(ctrl: Byte, alarmNo: int)
    requires alarmNo == ALARM1 || alarmNo == ALARM2
    ensures IsEnabled(IrqEnableByte(ctrl, alarmNo), alarmNo)
    ensures IsEnabled(IrqEnableByte(ctrl, INTR_ID_ALL), alarmNo)
  {}

  /** irq_disable for one id clears exactly the bits of that id. */
  lemma IrqDisableOne(ctrl: Byte, id: int)
    requires id != INTR_ID_ALL
    ensures var r := IrqDisableByte(ctrl, id);
            r & U8(id) == 0 && r & !U8(id) == ctrl & !U8(id)
  {}

  /**
   * irq_disable(ALL) ends with `val8 &= ~0xFF`, so it writes 0 to the whole
   * CONTROL register, clearing also the square-wave, conversion and
   * oscillator bits.
   */
  lemma IrqDisableAllClearsControl(ctrl: Byte)
    ensures IrqDisableByte(ctrl, INTR_ID_ALL) == 0
  {}

  /** irq_clear_flag clears both alarm flags for ALL, or the bits of `id`, and keeps the other STATUS bits. */
  lemma IrqClearFlagBits(stat: Byte, id: int)
    ensures var r := IrqClearFlagByte(stat, id);
            r & Requested(id) == 0 && r & !Requested(id) == stat & !Requested(id)
  {}

  /** `SET_BIT_VAL(freq, RS_POS, RS)`: the frequency shifted to bits 3..4 and masked. */
  function RsBits(freq: int): Byte
  {
    (U8(freq) << 3) & F_CTRL_RS
  }

  /** set_square_wave_frequency's new CONTROL byte: INTCN cleared, RS replaced. */
  function SquareWaveByte(ctrl: Byte, freq: int): Byte
  {
    ((ctrl & !F_CTRL_INTCN) & !F_CTRL_RS) | RsBits(freq)
  }

  /**
   * set_square_wave_frequency switches the pin to square-wave output
   * (INTCN = 0), puts the low two bits of `freq` into RS and keeps every
   * other configuration field.
   */
  lemma SquareWaveConfig(ctrl: Byte, freq: int)
    ensures DecodeConfig(SquareWaveByte(ctrl, freq)) == DecodeConfig(ctrl).(intcn := 0, rs := U8(freq) & 3)
  {}

  // ---------------------------------------------------------------------
  // The device
  // ---------------------------------------------------------------------

  /** A MAX31328 on its I2C bus, as the driver object sees it. */
  class Rtc {
    /** The chip's register space. */
    var regs: Regs

    constructor (init: Regs)
      ensures regs == init
    {
      regs := init;
    }

    /**
     * read_register: a burst read that either returns the registers or fails
     * with -1 (a NACK, or fewer bytes than requested).
     */
    method ReadRegister(addr: Addr, len: nat) returns (ret: int, data: seq<Byte>)
      requires len <= 255
      ensures ret == 0 || ret == ERR_UNKNOWN
      ensures ret == 0 ==> data == Window(regs, addr, len)
    {
      var fails: bool := *;
      if fails {
        ret, data := ERR_UNKNOWN, [];
      } else {
        ret, data := 0, Window(regs, addr, len);
      }
    }

    /**
     * write_register: a burst write that either stores all bytes or fails
     * with the bus status code 1..4 and stores nothing.
     */
    method WriteRegister(addr: Addr, data: seq<Byte>) returns (ret: int)
      requires |data| <= 255
      modifies this
      ensures ret == 0 ==> regs == Overwrite(old(regs), addr, data)
      ensures ret != 0 ==> 1 <= ret <= 4 && regs == old(regs)
    {
      var fails: bool := *;
      if fails {
        var code: int :| 1 <= code <= 4;
        ret := code;
      } else {
        regs := Overwrite(regs, addr, data);
        ret := 0;
      }
    }

    /** A one-byte write_register: the register takes `b`, or nothing changes on a bus failure. */
    method WriteOne(addr: Addr, b: Byte) returns (ret: int)
      modifies this
      ensures ret == 0 ==> regs == old(regs)[addr := b]
      ensures ret != 0 ==> 1 <= ret <= 4 && regs == old(regs)
    {
      ret := WriteRegister(addr, [b]);
      OverwriteOne(old(regs), addr, b);
    }

    method ReadOne(addr: Addr) returns (ret: int, b: Byte)
      ensures ret == 0 || ret == ERR_UNKNOWN
      ensures ret == 0 ==> b == regs[addr]
    {
      var data;
      ret, data := ReadRegister(addr, 1);
      b := if ret == 0 then data[0] else 0;
    }

    /** get_status: `prior` is the caller's record, left as it was when the read fails. */
    method GetStatus(prior: Status) returns (ret: int, stat: Status)
      ensures ret == 0 || ret == ERR_UNKNOWN
      ensures ret == 0 ==> stat == DecodeStatus(regs[R_STATUS])
      ensures ret != 0 ==> stat == prior
    {
      var b;
      ret, b := ReadOne(R_STATUS);
      stat := if ret == 0 then DecodeStatus(b) else prior;
    }

    /** set_status: writes the encoded record to STATUS. */
    method SetStatus(stat: Status) returns (ret: int)
      modifies this
      ensures ret == 0 ==> regs == old(regs)[R_STATUS := EncodeStatus(stat)]
      ensures ret != 0 ==> 1 <= ret <= 4 && regs == old(regs)
    {
      ret := WriteOne(R_STATUS, EncodeStatus(stat));
    }

    /** get_configuration: `prior` is the caller's record, left as it was when the read fails. */
    method GetConfiguration(prior: Config) returns (ret: int, cfg: Config)
      ensures ret == 0 || ret == ERR_UNKNOWN
      ensures ret == 0 ==> cfg == DecodeConfig(regs[R_CONTROL])
      ensures ret != 0 ==> cfg == prior
    {
      var b;
      ret, b := ReadOne(R_CONTROL);
      cfg := if ret == 0 then DecodeConfig(b) else prior;
    }

    /** set_configuration: writes the encoded record to CONTROL. */
    method SetConfiguration(cfg: Config) returns (ret: int)
      modifies this
      ensures ret == 0 ==> regs == old(regs)[R_CONTROL := EncodeConfig(cfg)]
      ensures ret != 0 ==> 1 <= ret <= 4 && regs == old(regs)
    {
      ret := WriteOne(R_CONTROL, EncodeConfig(cfg));
    }

    /**
     * set_time: refuses years before 2000 with -1 and no write; otherwise
     * writes the encoded 7-byte block at SECONDS. `stale` is the initial
     * content of the local register block.
     */
    method SetTime(t: Tm, stale: seq<Byte>) returns (ret: int)
      requires |stale| == 7
      modifies this
      ensures EncodeTime(t, stale).Err? ==> ret == ERR_UNKNOWN && regs == old(regs)
      ensures EncodeTime(t, stale).Ok? && ret == 0 ==> regs == Overwrite(old(regs), R_SECONDS, EncodeTime(t, stale).value)
      ensures EncodeTime(t, stale).Ok? && ret != 0 ==> 1 <= ret <= 4 && regs == old(regs)
    {
      var enc := EncodeTime(t, stale);
      if enc.Err? {
        return enc.code;
      }
      ret := WriteRegister(R_SECONDS, enc.value);
    }

    /** get_time: a failed read returns -1 and leaves the caller's `prior` as it was. */
    method GetTime(prior: Tm) returns (ret: int, t: Tm)
      ensures ret == 0 || ret == ERR_UNKNOWN
      ensures ret == 0 ==> t == DecodeTime(Window(regs, R_SECONDS, 7))
      ensures ret != 0 ==> t == prior
    {
      var data;
      ret, data := ReadRegister(R_SECONDS, 7);
      if ret != 0 {
        return ERR_UNKNOWN, prior;
      }
      t := DecodeTime(data);
    }

    /**
     * set_alarm: refuses a once-per-second alarm 2 and unknown periods with
     * -1 and no write; otherwise writes the encoded block (without its
     * seconds byte for alarm 2).
     */
    method SetAlarm(alarmNo: int, t: Tm, period: int, stale: seq<Byte>) returns (ret: int)
      requires |stale| == 4
      modifies this
      ensures EncodeAlarm(alarmNo, t, period, stale).Err? ==> ret == ERR_UNKNOWN && regs == old(regs)
      ensures EncodeAlarm(alarmNo, t, period, stale).Ok? && ret == 0 ==>
        regs == Overwrite(old(regs), AlarmAddress(alarmNo), AlarmBytes(alarmNo, EncodeAlarm(alarmNo, t, period, stale).value))
      ensures EncodeAlarm(alarmNo, t, period, stale).Ok? && ret != 0 ==> 1 <= ret <= 4 && regs == old(regs)
    {
      var enc := EncodeAlarm(alarmNo, t, period, stale);
      if enc.Err? {
        return enc.code;
      }
      ret := WriteRegister(AlarmAddress(alarmNo), AlarmBytes(alarmNo, enc.value));
    }

    /**
     * get_alarm: decodes the alarm time into the caller's `prior`, the
     * period, and whether the alarm's interrupt is enabled. A failed first
     * read leaves all three outputs as they were; a failed CONTROL read
     * leaves only the enable flag.
     */
    method GetAlarm(alarmNo: int, prior: Tm, priorPeriod: int, priorEnabled: bool)
      returns (ret: int, t: Tm, period: int, enabled: bool)
      ensures ret == 0 || ret == ERR_UNKNOWN
      ensures ret == 0 ==> t == AlarmTime(AlarmRead(alarmNo, regs), prior) &&
                           period == AlarmPeriod(alarmNo, AlarmRead(alarmNo, regs)) &&
                           enabled == IsEnabled(regs[R_CONTROL], alarmNo)
      ensures ret != 0 ==> enabled == priorEnabled &&
                           ((t, period) == (prior, priorPeriod) ||
                            (t, period) == (AlarmTime(AlarmRead(alarmNo, regs), prior), AlarmPeriod(alarmNo, AlarmRead(alarmNo, regs))))
    {
      var data;
      if alarmNo == ALARM1 {
        ret, data := ReadRegister(R_ALRM1_SECONDS, 4);
      } else {
        ret, data := ReadRegister(R_ALRM2_MINUTES, 3);
        data := [0] + data;
      }
      if ret != 0 {
        return ret, prior, priorPeriod, priorEnabled;
      }
      t := AlarmTime(data, prior);
      period := AlarmPeriod(alarmNo, data);
      var ctrl;
      ret, ctrl := ReadOne(R_CONTROL);
      if ret != 0 {
        return ret, t, period, priorEnabled;
      }
      enabled := IsEnabled(ctrl, alarmNo);
    }

    /** irq_enable: read-modify-write of CONTROL; a failed read returns -1 with no write. */
    method IrqEnable(id: int) returns (ret: int)
      modifies this
      ensures ret == 0 ==> regs == old(regs)[R_CONTROL := IrqEnableByte(old(regs)[R_CONTROL], id)]
      ensures ret != 0 ==> (ret == ERR_UNKNOWN || 1 <= ret <= 4) && regs == old(regs)
    {
      var v;
      ret, v := ReadOne(R_CONTROL);
      if ret != 0 {
        return;
      }
      ret := WriteOne(R_CONTROL, IrqEnableByte(v, id));
    }

    /** irq_disable: read-modify-write of CONTROL; a failed read returns -1 with no write. */
    method IrqDisable(id: int) returns (ret: int)
      modifies this
      ensures ret == 0 ==> regs == old(regs)[R_CONTROL := IrqDisableByte(old(regs)[R_CONTROL], id)]
      ensures ret != 0 ==> (ret == ERR_UNKNOWN || 1 <= ret <= 4) && regs == old(regs)
    {
      var v;
      ret, v := ReadOne(R_CONTROL);
      if ret != 0 {
        return;
      }
      ret := WriteOne(R_CONTROL, IrqDisableByte(v, id));
    }

    /** irq_clear_flag: read-modify-write of STATUS; a failed read returns -1 with no write. */
    method IrqClearFlag(id: int) returns (ret: int)
      modifies this
      ensures ret == 0 ==> regs == old(regs)[R_STATUS := IrqClearFlagByte(old(regs)[R_STATUS], id)]
      ensures ret != 0 ==> (ret == ERR_UNKNOWN || 1 <= ret <= 4) && regs == old(regs)
    {
      var v;
      ret, v := ReadOne(R_STATUS);
      if ret != 0 {
        return;
      }
      ret := WriteOne(R_STATUS, IrqClearFlagByte(v, id));
    }

    /** set_square_wave_frequency: read-modify-write of CONTROL. */
    method SetSquareWaveFrequency(freq: int) returns (ret: int)
      modifies this
      ensures ret == 0 ==> regs == old(regs)[R_CONTROL := SquareWaveByte(old(regs)[R_CONTROL], freq)]
      ensures ret != 0 ==> (ret == ERR_UNKNOWN || 1 <= ret <= 4) && regs == old(regs)
    {
      var v;
      ret, v := ReadOne(R_CONTROL);
      if ret != 0 {
        return;
      }
      ret := WriteOne(R_CONTROL, SquareWaveByte(v, freq));
    }

    /**
     * start_temp_conversion: busy (STATUS.BSY) gives -3 and no write;
     * otherwise CONV is set in CONTROL and every other bit kept.
     */
    method StartTempConversion() returns (ret: int)
      modifies this
      ensures Get(old(regs)[R_STATUS], StBsy) == 1 ==> regs == old(regs) && (ret == ERR_BUSY || ret == ERR_UNKNOWN)
      ensures ret == 0 ==> Get(old(regs)[R_STATUS], StBsy) == 0 &&
                           regs == old(regs)[R_CONTROL := old(regs)[R_CONTROL] | F_CTRL_CONV]
      ensures ret != 0 ==> regs == old(regs) && (ret == ERR_BUSY || ret == ERR_UNKNOWN || 1 <= ret <= 4)
    {
      var stat;
      ret, stat := ReadOne(R_STATUS);
      if ret != 0 {
        return;
      }
      if stat & F_STATUS_BSY != 0 {
        return ERR_BUSY;
      }
      var cfg;
      ret, cfg := ReadOne(R_CONTROL);
      if ret != 0 {
        return;
      }
      ret := WriteOne(R_CONTROL, cfg | F_CTRL_CONV);
    }

    /** is_temp_ready: -3 while CONTROL.CONV is set, 0 once it is clear. */
    method IsTempReady() returns (ret: int)
      ensures ret == 0 || ret == ERR_BUSY || ret == ERR_UNKNOWN
      ensures ret == 0 ==> Get(regs[R_CONTROL], CfgConv) == 0
      ensures ret == ERR_BUSY ==> Get(regs[R_CONTROL], CfgConv) == 1
    {
      var cfg;
      ret, cfg := ReadOne(R_CONTROL);
      if ret != 0 {
        return;
      }
      ret := if cfg & F_CTRL_CONV != 0 then ERR_BUSY else 0;
    }
  }

  /**
   * A conversion started by start_temp_conversion is reported as pending by
   * is_temp_ready, and nothing else in CONTROL changes.
   */
  lemma ConversionPending(ctrl: Byte)
    ensures DecodeConfig(ctrl | F_CTRL_CONV) == DecodeConfig(ctrl).(conv := 1)
  {}
}
