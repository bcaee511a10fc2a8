/**
 * The MAX31343 driver: its register layout, the calendar and alarm codecs
 * (pure functions over the 7-byte time block and the 6-byte alarm block),
 * the one-byte read-modify-write updates, and the driver object as class
 * `Rtc` over the chip's register space.
 *
 * The chip's own header is not part of this model. The register addresses
 * and masks are those of MAX31343_registers.h; the record layouts, the
 * enumerations and the error codes are those of the sibling MAX31329
 * driver's header, whose alarm record uses the same member names
 * (a1m1..a1m6, dy_dt) as the MAX31343 driver code.
 */
module Max31343 {
  import opened Bits
  import opened Wrappers
  import opened Calendar
  import opened RegisterMap
  import Bcd

  // ---------------------------------------------------------------------
  // Constants
  // ---------------------------------------------------------------------

  const ERR_UNKNOWN := -1
  const ERR_BUSY := -3

  // alarm_no_t
  const ALARM1 := 0
  const ALARM2 := 1

  // alarm_period_t
  const EVERYSECOND := 0
  const EVERYMINUTE := 1
  const HOURLY := 2
  const DAILY := 3
  const WEEKLY := 4
  const MONTHLY := 5
  const YEARLY := 6
  const ONETIME := 7

  // intr_id_t: each id is its INT_EN bit
  const INTR_ID_ALARM1 := 1
  const INTR_ID_ALARM2 := 2
  const INTR_ID_ALL := 0xFF

  // power_mgmt_supply_t
  const POW_MGMT_SUPPLY_SEL_AUTO := 0
  const POW_MGMT_SUPPLY_SEL_VCC := 1
  const POW_MGMT_SUPPLY_SEL_VBACK := 2

  // Register addresses
  const R_STATUS: Addr := 0x00
  const R_INT_EN: Addr := 0x01
  const R_RTC_RESET: Addr := 0x02
  const R_CFG1: Addr := 0x03
  const R_CFG2: Addr := 0x04
  const R_TIMER_CONFIG: Addr := 0x05
  const R_SECONDS: Addr := 0x06
  const R_ALM1_SEC: Addr := 0x0D
  const R_ALM2_MIN: Addr := 0x13
  const R_TIMER_COUNT: Addr := 0x16
  const R_TIMER_INIT: Addr := 0x17
  const R_PWR_MGMT: Addr := 0x18
  const R_TRICKLE: Addr := 0x19
  const R_TEMP_MSB: Addr := 0x1A
  const R_TS_CONFIG: Addr := 0x1C
  const R_RAM_REG_START: Addr := 0x22
  const R_RAM_REG_END: Addr := 0x61

  /** The interrupt enables irq_enable and irq_disable set or clear for INTR_ID_ALL. */
  const ALL_IRQ: Byte := 0x6F

  // Bit fields of STATUS
  const StA1f: BitField := BitField(0, 0x01)
  const StA2f: BitField := BitField(1, 0x02)
  const StTif: BitField := BitField(2, 0x04)
  const StTsf: BitField := BitField(3, 0x08)
  const StPfail: BitField := BitField(5, 0x20)
  const StOsf: BitField := BitField(6, 0x40)
  const StPsdect: BitField := BitField(7, 0x80)

  // Bit fields of CFG1 and CFG2
  const Enosc: BitField := BitField(1, 0x02)
  const I2cTimeout: BitField := BitField(3, 0x08)
  const DataRet: BitField := BitField(4, 0x10)
  const SqwHz: BitField := BitField(0, 0x07)
  const ClkoHz: BitField := BitField(3, 0x78)
  const EnClko: BitField := BitField(7, 0x80)

  // Bit fields of TIMER_CONFIG
  const Tfs: BitField := BitField(0, 0x03)
  const Trpt: BitField := BitField(2, 0x04)
  const Tpause: BitField := BitField(3, 0x08)
  const Te: BitField := BitField(4, 0x10)

  // Bit fields of PWR_MGMT, TRICKLE and TS_CONFIG
  const DmanSel: BitField := BitField(2, 0x04)
  const DVbackSel: BitField := BitField(3, 0x08)
  const Pfvt: BitField := BitField(4, 0x30)
  const DTrickle: BitField := BitField(0, 0x0F)
  const Tche: BitField := BitField(4, 0xF0)
  const Ttsint: BitField := BitField(3, 0x38)
  const OneShot: BitField := BitField(6, 0x40)
  const AutoMode: BitField := BitField(7, 0x80)

  // Bit fields of the time block (rtc_time_regs_t)
  const Bcd7: BitField := BitField(0, 0x7F)     // seconds, minutes, hours: bcd.value
  const Bcd3: BitField := BitField(0, 0x07)     // day: bcd.value; alarm bcd_day.value
  const Bcd6: BitField := BitField(0, 0x3F)     // date: bcd.value; alarm hrs, bcd_date
  const Bcd5: BitField := BitField(0, 0x1F)     // month: bcd.value
  const Century: BitField := BitField(7, 0x80)  // month: century
  const Bcd8: BitField := BitField(0, 0xFF)     // year: bcd.value

  // Bit fields of the alarm block (regs_alarm_t)
  const Am: BitField := BitField(7, 0x80)       // a1m1..a1m4 at bit 7 of sec..day_date; a1m5 at bit 7 of mon
  const A1m6: BitField := BitField(6, 0x40)     // mon: a1m6
  const DyDt: BitField := BitField(6, 0x40)     // day_date: dy_dt

  /** The number of NVRAM bytes, RAM_REG_START..RAM_REG_END. */
  const NVRAM_SIZE := R_RAM_REG_END - R_RAM_REG_START + 1

  // ---------------------------------------------------------------------
  // Status and configuration records
  // ---------------------------------------------------------------------

  /** reg_status_t as get_status fills it in. */
  datatype Status = Status(a1f: U1, a2f: U1, tif: U1, tsf: U1, pfail: U1, osf: U1, psdect: U1)

  /** reg_cfg_t: the CFG1 and CFG2 fields get_configuration and set_configuration handle. */
  datatype Config = Config(enosc: U1, i2cTimeout: U1, dataRet: U1, sqwHz: U3, clkoHz: U4, enclko: U1)

  /** get_status: each flag from its own bit of STATUS. */
  function DecodeStatus(b: Byte): (s: Status)
    ensures s.a1f == b & 1 && s.a2f == (b >> 1) & 1 && s.tif == (b >> 2) & 1 && s.tsf == (b >> 3) & 1
    ensures s.pfail == (b >> 5) & 1 && s.osf == (b >> 6) & 1 && s.psdect == b >> 7
  {
    Status(Get(b, StA1f), Get(b, StA2f), Get(b, StTif), Get(b, StTsf), Get(b, StPfail), Get(b, StOsf), Get(b, StPsdect))
  }

  /** get_configuration: the fields of CFG1 and CFG2. */
  function DecodeConfig(cfg1: Byte, cfg2: Byte): Config
  {
    Config(Get(cfg1, Enosc), Get(cfg1, I2cTimeout), Get(cfg1, DataRet),
           Get(cfg2, SqwHz), Get(cfg2, ClkoHz), Get(cfg2, EnClko))
  }

  /**
   * set_configuration: each field shifted into place in a zero CFG1 or
   * CFG2 byte; the bits no field covers are written as 0.
   */
  function EncodeConfig(c: Config): (r: seq<Byte>)
    ensures |r| == 2 && r[0] & !0x1A == 0
  {
    [Put(Put(Put(0, Enosc, c.enosc), I2cTimeout, c.i2cTimeout), DataRet, c.dataRet),
     Put(Put(Put(0, SqwHz, c.sqwHz), ClkoHz, c.clkoHz), EnClko, c.enclko)]
  }

  /** A record set_configuration writes reads back unchanged through get_configuration. */
  lemma ConfigRoundTrip(c: Config)
    ensures DecodeConfig(EncodeConfig(c)[0], EncodeConfig(c)[1]) == c
  {
    Cfg1RoundTrip(c.enosc, c.i2cTimeout, c.dataRet);
    Cfg2RoundTrip(c.sqwHz, c.clkoHz, c.enclko);
  }

  lemma Cfg1RoundTrip(enosc: U1, timeout: U1, ret: U1)
    ensures var b := Put(Put(Put(0, Enosc, enosc), I2cTimeout, timeout), DataRet, ret);
            Get(b, Enosc) == enosc && Get(b, I2cTimeout) == timeout && Get(b, DataRet) == ret
  {}

  lemma Cfg2RoundTrip(sqw: U3, clko: U4, en: U1)
    ensures var b := Put(Put(Put(0, SqwHz, sqw), ClkoHz, clko), EnClko, en);
            Get(b, SqwHz) == sqw && Get(b, ClkoHz) == clko && Get(b, EnClko) == en
  {}

  // ---------------------------------------------------------------------
  // Time block codec (set_time / get_time)
  // ---------------------------------------------------------------------

  /**
   * set_time's encoding of the 7-byte block (seconds, minutes, hours, day,
   * date, month, year) into its uninitialised contents `stale`: the BCD
   * values, the weekday and month one higher, and the century bit; years
   * before 2000 give -1. The 7-bit hour field takes in the 12/24-hour
   * flag, which every hour 0..23 leaves at 0.
   */
  function EncodeTime(t: Tm, stale: seq<Byte>): (r: Result<seq<Byte>>)
    requires |stale| == 7
    ensures r.Err? <==> t.year < 100
    ensures r.Err? ==> r.code == ERR_UNKNOWN
    ensures r.Ok? ==> |r.value| == 7
    ensures r.Ok? ==> Get(r.value[5], Century) == (if CenturySet(t.year) then 1 else 0)
  {
    if t.year < 100 then Err(ERR_UNKNOWN)
    else
      var century := if CenturySet(t.year) then 1 else 0;
      var yy := YearOfCentury(t.year);
      Ok([Store(stale[0], Bcd7, Bcd.FromBin(t.sec)),
          Store(stale[1], Bcd7, Bcd.FromBin(t.min)),
          Store(stale[2], Bcd7, Bcd.FromBin(t.hour)),
          Store(stale[3], Bcd3, Bcd.FromBin(t.wday + 1)),
          Store(stale[4], Bcd6, Bcd.FromBin(t.mday)),
          Put(Store(stale[5], Bcd5, Bcd.FromBin(t.mon + 1)), Century, century),
          Store(stale[6], Bcd8, Bcd.FromBin(yy))])
  }

  /** get_time's decoding of the 7-byte block; day of year and DST are set to 0. */
  function DecodeTime(block: seq<Byte>): Tm
    requires |block| == 7
  {
    var year := Bcd.ToBin(Get(block[6], Bcd8)) + (if Get(block[5], Century) != 0 then 200 else 100);
    Tm(sec := Bcd.ToBin(Get(block[0], Bcd7)),
       min := Bcd.ToBin(Get(block[1], Bcd7)),
       hour := Bcd.ToBin(Get(block[2], Bcd7)),
       mday := Bcd.ToBin(Get(block[4], Bcd6)),
       mon := Bcd.ToBin(Get(block[5], Bcd5)) - 1,
       year := year,
       wday := Bcd.ToBin(Get(block[3], Bcd3)) - 1,
       yday := 0, isdst := 0)
  }

  /** Which register of the block set_time writes holds which field of the time. */
  lemma TimeLayout(t: Tm, stale: seq<Byte>)
    requires InRange(t) && |stale| == 7
    ensures EncodeTime(t, stale).Ok?
    ensures var b := EncodeTime(t, stale).value;
            b[0] == Store(stale[0], Bcd7, Bcd.FromBin(t.sec)) &&
            b[1] == Store(stale[1], Bcd7, Bcd.FromBin(t.min)) &&
            b[2] == Store(stale[2], Bcd7, Bcd.FromBin(t.hour)) &&
            b[3] == Store(stale[3], Bcd3, Bcd.FromBin(t.wday + 1)) &&
            b[4] == Store(stale[4], Bcd6, Bcd.FromBin(t.mday)) &&
            b[5] == Put(Store(stale[5], Bcd5, Bcd.FromBin(t.mon + 1)), Century, if CenturySet(t.year) then 1 else 0) &&
            b[6] == Store(stale[6], Bcd8, Bcd.FromBin(YearOfCentury(t.year)))
  {
  }

  /**
   * For every in-range time and whatever the local block held before,
   * the block set_time writes decodes to the same time.
   */
  lemma TimeRoundTrip(t: Tm, stale: seq<Byte>)
    requires InRange(t) && |stale| == 7
    ensures EncodeTime(t, stale).Ok?
    ensures DecodeTime(EncodeTime(t, stale).value) == Cleared(t)
  {
    TimeLayout(t, stale);
    var b := EncodeTime(t, stale).value;
    Bcd.ReadsBack(b, 0, stale[0], Bcd7, t.sec);
    Bcd.ReadsBack(b, 1, stale[1], Bcd7, t.min);
    Bcd.ReadsBack(b, 2, stale[2], Bcd7, t.hour);
    Bcd.ReadsBack(b, 3, stale[3], Bcd3, t.wday + 1);
    Bcd.ReadsBack(b, 4, stale[4], Bcd6, t.mday);
    Bcd.ReadsBackUnder(b, 5, stale[5], Bcd5, t.mon + 1, Century, if CenturySet(t.year) then 1 else 0);
    Bcd.ReadsBack(b, 6, stale[6], Bcd8, YearOfCentury(t.year));
  }

  // ---------------------------------------------------------------------
  // Alarm block codec (set_alarm / get_alarm)
  // ---------------------------------------------------------------------

  /** The mask bits a1m1..a1m6 and the day/date selector of an alarm; 1 means don't care. */
  datatype AlarmMasks = AlarmMasks(a1m1: U1, a1m2: U1, a1m3: U1, a1m4: U1, a1m5: U1, a1m6: U1, dyDt: U1)

  /**
   * set_alarm's period switch: alarm 2 has no once-per-second, one-time or
   * yearly alarm, and a period outside the enumeration is refused; otherwise
   * every flag starts at 0 and each period sets a longer suffix, coarsest
   * field first, with WEEKLY also selecting the weekday.
   */
  function PeriodMasks(alarmNo: int, period: int): (m: Option<AlarmMasks>)
    ensures m.None? <==> period < EVERYSECOND || period > ONETIME ||
                         (alarmNo == ALARM2 && (period == EVERYSECOND || period == ONETIME || period == YEARLY))
    ensures m.Some? ==> (m.value.a1m1 == 1 <==> period == EVERYSECOND)
    ensures m.Some? ==> (m.value.a1m2 == 1 <==> period <= EVERYMINUTE)
    ensures m.Some? ==> (m.value.a1m3 == 1 <==> period <= HOURLY)
    ensures m.Some? ==> (m.value.a1m4 == 1 <==> period <= DAILY)
    ensures m.Some? ==> (m.value.a1m5 == 1 <==> period <= MONTHLY)
    ensures m.Some? ==> (m.value.a1m6 == 1 <==> period <= YEARLY)
    ensures m.Some? ==> (m.value.dyDt == 1 <==> period == WEEKLY)
  {
    if alarmNo == ALARM2 && (period == EVERYSECOND || period == ONETIME || period == YEARLY) then None
    else if period == ONETIME then Some(AlarmMasks(0, 0, 0, 0, 0, 0, 0))
    else if period == YEARLY then Some(AlarmMasks(0, 0, 0, 0, 0, 1, 0))
    else if period == MONTHLY then Some(AlarmMasks(0, 0, 0, 0, 1, 1, 0))
    else if period == WEEKLY then Some(AlarmMasks(0, 0, 0, 0, 1, 1, 1))
    else if period == DAILY then Some(AlarmMasks(0, 0, 0, 1, 1, 1, 0))
    else if period == HOURLY then Some(AlarmMasks(0, 0, 1, 1, 1, 1, 0))
    else if period == EVERYMINUTE then Some(AlarmMasks(0, 1, 1, 1, 1, 1, 0))
    else if period == EVERYSECOND then Some(AlarmMasks(1, 1, 1, 1, 1, 1, 0))
    else None
  }

  /** The alarm block `stale` with the period's flags stored into it. */
  function ApplyMasks(stale: seq<Byte>, m: AlarmMasks): (b: seq<Byte>)
    requires |stale| == 6
    ensures |b| == 6 && b[5] == stale[5]
  {
    [Put(stale[0], Am, m.a1m1),
     Put(stale[1], Am, m.a1m2),
     Put(stale[2], Am, m.a1m3),
     Put(Put(stale[3], Am, m.a1m4), DyDt, m.dyDt),
     Put(Put(stale[4], Am, m.a1m5), A1m6, m.a1m6),
     stale[5]]
  }

  /**
   * set_alarm's time values into the flagged block: BCD seconds, minutes
   * and hour, the date when the selector is 0 and the weekday (not one
   * higher) otherwise, the month one higher and the year without century.
   */
  function AlarmValues(block: seq<Byte>, t: Tm): (b: seq<Byte>)
    requires |block| == 6
    ensures |b| == 6
  {
    var dd := if Get(block[3], DyDt) == 0 then Store(block[3], Bcd6, Bcd.FromBin(t.mday))
              else Store(block[3], Bcd3, Bcd.FromBin(t.wday));
    var yy := YearOfCentury(t.year);
    [Store(block[0], Bcd7, Bcd.FromBin(t.sec)),
     Store(block[1], Bcd7, Bcd.FromBin(t.min)),
     Store(block[2], Bcd6, Bcd.FromBin(t.hour)),
     dd,
     Store(block[4], Bcd5, Bcd.FromBin(t.mon + 1)),
     Store(block[5], Bcd8, Bcd.FromBin(yy))]
  }

  /**
   * set_alarm's pure part on the uninitialised block `stale`: -1 for a
   * period the alarm does not support and for a year before 2000,
   * otherwise the flags and then the time values.
   */
  function EncodeAlarm(alarmNo: int, t: Tm, period: int, stale: seq<Byte>): (r: Result<seq<Byte>>)
    requires |stale| == 6
    ensures r.Err? <==> PeriodMasks(alarmNo, period).None? || t.year < 100
    ensures r.Err? ==> r.code == ERR_UNKNOWN
    ensures r.Ok? ==> |r.value| == 6
  {
    match PeriodMasks(alarmNo, period)
    case None => Err(ERR_UNKNOWN)
    case Some(m) => if t.year < 100 then Err(ERR_UNKNOWN) else Ok(AlarmValues(ApplyMasks(stale, m), t))
  }

  /** The first register set_alarm writes: ALM1_SEC for alarm 1, ALM2_MIN otherwise. */
  function AlarmAddress(alarmNo: int): Addr
  {
    if alarmNo == ALARM1 then R_ALM1_SEC else R_ALM2_MIN
  }

  /** The bytes set_alarm writes: the whole block for alarm 1; minutes, hours and day/date otherwise. */
  function AlarmBytes(alarmNo: int, block: seq<Byte>): (w: seq<Byte>)
    requires |block| == 6
    ensures alarmNo == ALARM1 ==> w == block
    ensures alarmNo != ALARM1 ==> |w| == 3 && w == block[1..4]
  {
    if alarmNo == ALARM1 then block else block[1..4]
  }

  /**
   * The block get_alarm decodes: for alarm 1 the six registers at
   * ALM1_SEC; otherwise a zero seconds byte, the four registers from
   * ALM2_MIN (one past alarm 2's own, into TIMER_COUNT) and the
   * uninitialised year byte `stale`.
   */
  function AlarmRead(alarmNo: int, regs: Regs, stale: Byte): (block: seq<Byte>)
    ensures |block| == 6
  {
    if alarmNo == ALARM1 then Window(regs, R_ALM1_SEC, 6)
    else [0] + Window(regs, R_ALM2_MIN, 4) + [stale]
  }

  /**
   * get_alarm's decoding of the block into the caller's `prior`: seconds,
   * minutes, hour, the selected one of date and weekday (the other kept),
   * the month, and the year plus 100 (there is no century bit).
   */
  function AlarmTime(block: seq<Byte>, prior: Tm): Tm
    requires |block| == 6
  {
    var t := prior.(sec := Bcd.ToBin(Get(block[0], Bcd7)), min := Bcd.ToBin(Get(block[1], Bcd7)),
                    hour := Bcd.ToBin(Get(block[2], Bcd6)));
    var t2 := if Get(block[3], DyDt) == 0 then t.(mday := Bcd.ToBin(Get(block[3], Bcd6)))
              else t.(wday := Bcd.ToBin(Get(block[3], Bcd3)));
    t2.(mon := Bcd.ToBin(Get(block[4], Bcd5)) - 1, year := Bcd.ToBin(Get(block[5], Bcd8)) + 100)
  }

  /** The flags of an alarm block. */
  function MasksOf(block: seq<Byte>): AlarmMasks
    requires |block| == 6
  {
    AlarmMasks(Get(block[0], Am), Get(block[1], Am), Get(block[2], Am), Get(block[3], Am),
               Get(block[4], Am), Get(block[4], A1m6), Get(block[3], DyDt))
  }

  /**
   * get_alarm's packed key: for alarm 1 a1m1..a1m6 in bits 0..5 and dy_dt in
   * bit 6; otherwise a1m2, a1m3, a1m4 in bits 0..2 and dy_dt in bit 3.
   */
  function AlarmKey(alarmNo: int, m: AlarmMasks): (k: Byte)
    ensures alarmNo == ALARM1 ==> k < 0x80
    ensures alarmNo != ALARM1 ==> k < 0x10
  {
    if alarmNo == ALARM1 then
      m.a1m1 | (m.a1m2 << 1) | (m.a1m3 << 2) | (m.a1m4 << 3) | (m.a1m5 << 4) | (m.a1m6 << 5) | (m.dyDt << 6)
    else
      m.a1m2 | (m.a1m3 << 1) | (m.a1m4 << 2) | (m.dyDt << 3)
  }

  /**
   * get_alarm's switch over the key; a key the switch does not list leaves
   * the caller's period unassigned (`None`).
   */
  function KeyPeriod(alarmNo: int, k: Byte): Option<int>
  {
    if alarmNo == ALARM1 then
      if k == 0x7F || k == 0x3F then Some(EVERYSECOND)
      else if k == 0x7E || k == 0x3E then Some(EVERYMINUTE)
      else if k == 0x7C || k == 0x3C then Some(HOURLY)
      else if k == 0x38 || k == 0x78 then Some(DAILY)
      else if k == 0x30 then Some(MONTHLY)
      else if k == 0x20 then Some(YEARLY)
      else if k == 0x00 then Some(ONETIME)
      else if k == 0x70 then Some(WEEKLY)
      else None
    else
      if k == 0x0F || k == 0x07 then Some(EVERYMINUTE)
      else if k == 0x0E || k == 0x06 then Some(HOURLY)
      else if k == 0x0C || k == 0x04 then Some(DAILY)
      else if k == 0x00 then Some(MONTHLY)
      else if k == 0x08 then Some(WEEKLY)
      else None
  }

  /** get_alarm's period: the switch over the block's packed flags. */
  function AlarmPeriod(alarmNo: int, block: seq<Byte>): Option<int>
    requires |block| == 6
  {
    KeyPeriod(alarmNo, AlarmKey(alarmNo, MasksOf(block)))
  }

  /** For every period set_alarm accepts, the key of its flags decodes back to that period. */
  lemma KeyRoundTrip(alarmNo: int, period: int)
    requires alarmNo == ALARM1 || alarmNo == ALARM2
    requires PeriodMasks(alarmNo, period).Some?
    ensures KeyPeriod(alarmNo, AlarmKey(alarmNo, PeriodMasks(alarmNo, period).value)) == Some(period)
  {
    if alarmNo == ALARM1 {
      if period == EVERYSECOND {
        assert AlarmKey(alarmNo, PeriodMasks(alarmNo, period).value) == 0x3F;
      } else if period == EVERYMINUTE {
        assert AlarmKey(alarmNo, PeriodMasks(alarmNo, period).value) == 0x3E;
      } else if period == HOURLY {
        assert AlarmKey(alarmNo, PeriodMasks(alarmNo, period).value) == 0x3C;
      } else if period == DAILY {
        assert AlarmKey(alarmNo, PeriodMasks(alarmNo, period).value) == 0x38;
      } else if period == WEEKLY {
        assert AlarmKey(alarmNo, PeriodMasks(alarmNo, period).value) == 0x70;
      } else if period == MONTHLY {
        assert AlarmKey(alarmNo, PeriodMasks(alarmNo, period).value) == 0x30;
      } else if period == YEARLY {
        assert AlarmKey(alarmNo, PeriodMasks(alarmNo, period).value) == 0x20;
      } else {
        assert AlarmKey(alarmNo, PeriodMasks(alarmNo, period).value) == 0x00;
      }
    } else {
      if period == EVERYMINUTE {
        assert AlarmKey(alarmNo, PeriodMasks(alarmNo, period).value) == 0x07;
      } else if period == HOURLY {
        assert AlarmKey(alarmNo, PeriodMasks(alarmNo, period).value) == 0x06;
      } else if period == DAILY {
        assert AlarmKey(alarmNo, PeriodMasks(alarmNo, period).value) == 0x04;
      } else if period == WEEKLY {
        assert AlarmKey(alarmNo, PeriodMasks(alarmNo, period).value) == 0x08;
      } else {
        assert AlarmKey(alarmNo, PeriodMasks(alarmNo, period).value) == 0x00;
      }
    }
  }

  /** A flag stored at bit 7 or bit 6 reads back as stored. */
  lemma FlagRoundTrip(b: Byte, v: U1)
    ensures Get(Put(b, Am, v), Am) == v && Get(Put(b, DyDt, v), DyDt) == v
  {}

  /** The flags ApplyMasks stores read back as stored. */
  lemma MasksApplied(stale: seq<Byte>, m: AlarmMasks)
    requires |stale| == 6
    ensures MasksOf(ApplyMasks(stale, m)) == m
  {
    var b := ApplyMasks(stale, m);
    FlagRoundTrip(stale[0], m.a1m1);
    FlagRoundTrip(stale[1], m.a1m2);
    FlagRoundTrip(stale[2], m.a1m3);
    FlagRoundTrip(Put(stale[3], Am, m.a1m4), m.dyDt);
    FlagRoundTrip(stale[3], m.a1m4);
    GetFramed(Put(stale[3], Am, m.a1m4), b[3], 0x40, Am);
    FlagRoundTrip(stale[4], m.a1m5);
    GetFramed(Put(stale[4], Am, m.a1m5), b[4], 0x40, Am);
    assert Get(Put(Put(stale[4], Am, m.a1m5), A1m6, m.a1m6), A1m6) == m.a1m6;
  }

  /** Storing the time values leaves every flag of the block as it was. */
  lemma MasksKept(block: seq<Byte>, t: Tm)
    requires |block| == 6
    ensures MasksOf(AlarmValues(block, t)) == MasksOf(block)
  {
    var b := AlarmValues(block, t);
    GetFramed(block[0], b[0], 0x7F, Am);
    GetFramed(block[1], b[1], 0x7F, Am);
    GetFramed(block[2], b[2], 0x3F, Am);
    if Get(block[3], DyDt) == 0 {
      GetFramed(block[3], b[3], 0x3F, Am);
      GetFramed(block[3], b[3], 0x3F, DyDt);
    } else {
      GetFramed(block[3], b[3], 0x07, Am);
      GetFramed(block[3], b[3], 0x07, DyDt);
    }
    GetFramed(block[4], b[4], 0x1F, Am);
    GetFramed(block[4], b[4], 0x1F, A1m6);
  }

  /** The period set_alarm encodes is the one get_alarm's switch finds in the same block. */
  lemma AlarmPeriodRoundTrip(alarmNo: int, t: Tm, period: int, stale: seq<Byte>)
    requires alarmNo == ALARM1 || alarmNo == ALARM2
    requires |stale| == 6 && EncodeAlarm(alarmNo, t, period, stale).Ok?
    ensures AlarmPeriod(alarmNo, EncodeAlarm(alarmNo, t, period, stale).value) == Some(period)
  {
    var m := PeriodMasks(alarmNo, period).value;
    MasksApplied(stale, m);
    MasksKept(ApplyMasks(stale, m), t);
    KeyRoundTrip(alarmNo, period);
  }

  /** Which register of an alarm block holds which field once set_alarm has stored the time values. */
  lemma AlarmLayout(block: seq<Byte>, t: Tm)
    requires |block| == 6
    ensures var b := AlarmValues(block, t);
            b[0] == Store(block[0], Bcd7, Bcd.FromBin(t.sec)) &&
            b[1] == Store(block[1], Bcd7, Bcd.FromBin(t.min)) &&
            b[2] == Store(block[2], Bcd6, Bcd.FromBin(t.hour)) &&
            (Get(block[3], DyDt) == 0 ==> b[3] == Store(block[3], Bcd6, Bcd.FromBin(t.mday))) &&
            (Get(block[3], DyDt) != 0 ==> b[3] == Store(block[3], Bcd3, Bcd.FromBin(t.wday))) &&
            b[4] == Store(block[4], Bcd5, Bcd.FromBin(t.mon + 1)) &&
            b[5] == Store(block[5], Bcd8, Bcd.FromBin(YearOfCentury(t.year)))
  {
  }

  /** The fields of a block into which set_alarm stored a time's values read back as those values. */
  lemma AlarmFieldsRead(b: seq<Byte>, a: seq<Byte>, t: Tm)
    requires InRange(t) && |a| == 6 && |b| == 6
    requires b[0] == Store(a[0], Bcd7, Bcd.FromBin(t.sec)) && b[1] == Store(a[1], Bcd7, Bcd.FromBin(t.min))
    requires b[2] == Store(a[2], Bcd6, Bcd.FromBin(t.hour))
    requires Get(a[3], DyDt) == 0 ==> b[3] == Store(a[3], Bcd6, Bcd.FromBin(t.mday))
    requires Get(a[3], DyDt) != 0 ==> b[3] == Store(a[3], Bcd3, Bcd.FromBin(t.wday))
    requires b[4] == Store(a[4], Bcd5, Bcd.FromBin(t.mon + 1))
    requires b[5] == Store(a[5], Bcd8, Bcd.FromBin(YearOfCentury(t.year)))
    ensures Bcd.ToBin(Get(b[0], Bcd7)) == t.sec && Bcd.ToBin(Get(b[1], Bcd7)) == t.min
    ensures Bcd.ToBin(Get(b[2], Bcd6)) == t.hour
    ensures Get(a[3], DyDt) == 0 ==> Bcd.ToBin(Get(b[3], Bcd6)) == t.mday
    ensures Get(a[3], DyDt) != 0 ==> Bcd.ToBin(Get(b[3], Bcd3)) == t.wday
    ensures Bcd.ToBin(Get(b[4], Bcd5)) == t.mon + 1
    ensures Bcd.ToBin(Get(b[5], Bcd8)) == YearOfCentury(t.year)
  {
    Bcd.ReadsBack(b, 0, a[0], Bcd7, t.sec);
    Bcd.ReadsBack(b, 1, a[1], Bcd7, t.min);
    Bcd.ReadsBack(b, 2, a[2], Bcd6, t.hour);
    if Get(a[3], DyDt) == 0 {
      Bcd.ReadsBack(b, 3, a[3], Bcd6, t.mday);
    } else {
      Bcd.ReadsBack(b, 3, a[3], Bcd3, t.wday);
    }
    Bcd.ReadsBack(b, 4, a[4], Bcd5, t.mon + 1);
    Bcd.ReadsBack(b, 5, a[5], Bcd8, YearOfCentury(t.year));
  }

  /**
   * Decoding the whole block set_alarm encodes gives back the seconds,
   * minutes, hour, the date (or, for a weekly alarm, the weekday), the
   * month, and the year, which for 2100..2199 comes back a century early;
   * the other one of date and weekday keeps the caller's value.
   */
  lemma AlarmTimeRoundTrip(alarmNo: int, t: Tm, period: int, stale: seq<Byte>, prior: Tm)
    requires |stale| == 6 && InRange(t) && EncodeAlarm(alarmNo, t, period, stale).Ok?
    ensures var day := if period == WEEKLY then prior.(wday := t.wday) else prior.(mday := t.mday);
            AlarmTime(EncodeAlarm(alarmNo, t, period, stale).value, prior) ==
              day.(sec := t.sec, min := t.min, hour := t.hour, mon := t.mon,
                   year := if t.year >= 200 then t.year - 100 else t.year)
  {
    var m := PeriodMasks(alarmNo, period).value;
    var a := ApplyMasks(stale, m);
    MasksApplied(stale, m);
    MasksKept(a, t);
    AlarmLayout(a, t);
    AlarmFieldsRead(AlarmValues(a, t), a, t);
  }

  /**
   * What get_alarm reads back for alarm 2 after set_alarm wrote its three
   * bytes at ALM2_MIN: a zero seconds byte, the three bytes written, the
   * register after them (TIMER_COUNT, which set_alarm did not write) as the
   * month, and the uninitialised year byte.
   */
  lemma Alarm2ReadBack(regs: Regs, block: seq<Byte>, y: Byte)
    requires |block| == 6
    ensures AlarmRead(ALARM2, Overwrite(regs, R_ALM2_MIN, AlarmBytes(ALARM2, block)), y)
            == [0] + block[1..4] + [regs[R_TIMER_COUNT], y]
  {
    var r := Overwrite(regs, R_ALM2_MIN, block[1..4]);
    WindowPrefix(r, R_ALM2_MIN, 4, 3);
    assert !Covers(R_ALM2_MIN, 3, R_TIMER_COUNT);
    assert Window(r, R_ALM2_MIN, 4) == block[1..4] + [regs[R_TIMER_COUNT]];
  }

  /**
   * set_alarm then get_alarm for alarm 2 through the registers: the minutes,
   * the hour and the date (or, for a weekly alarm, the weekday) come back and
   * the seconds read 0, but the month is decoded from TIMER_COUNT and the
   * year from the uninitialised byte, because get_alarm reads one register
   * more than set_alarm writes.
   */
  lemma Alarm2TimeReadBack(t: Tm, period: int, stale: seq<Byte>, regs: Regs, y: Byte, prior: Tm)
    requires |stale| == 6 && InRange(t) && EncodeAlarm(ALARM2, t, period, stale).Ok?
    ensures var block := EncodeAlarm(ALARM2, t, period, stale).value;
            var back := AlarmTime(AlarmRead(ALARM2, Overwrite(regs, R_ALM2_MIN, AlarmBytes(ALARM2, block)), y), prior);
            back.sec == 0 && back.min == t.min && back.hour == t.hour &&
            (if period == WEEKLY then back.wday == t.wday && back.mday == prior.mday
             else back.mday == t.mday && back.wday == prior.wday) &&
            back.mon == Bcd.ToBin(Get(regs[R_TIMER_COUNT], Bcd5)) - 1 &&
            back.year == Bcd.ToBin(Get(y, Bcd8)) + 100
  {
    var block := EncodeAlarm(ALARM2, t, period, stale).value;
    Alarm2ReadBack(regs, block, y);
    AlarmTimeRoundTrip(ALARM2, t, period, stale, prior);
  }

  /**
   * A flag of INT_EN as get_alarm reports it: it tests bit
   * `1 << INTR_ID_ALARM1` for alarm 1 and `1 << INTR_ID_ALARM2` otherwise,
   * using the interrupt ids, which are already bit masks, as bit numbers.
   */
  predicate IsEnabled(intEn: Byte, alarmNo: int)
  {
    if alarmNo == ALARM1 then intEn & (1 << INTR_ID_ALARM1) != 0 else intEn & (1 << INTR_ID_ALARM2) != 0
  }

  /**
   * get_alarm's enable flag is INT_EN bit 1 (the alarm 2 enable) for alarm 1
   * and bit 2 (the timer enable) for alarm 2, not A1IE and A2IE.
   */
  lemma IsEnabledBits(intEn: Byte)
    ensures IsEnabled(intEn, ALARM1) <==> Get(intEn, BitField(1, 0x02)) == 1
    ensures IsEnabled(intEn, ALARM2) <==> Get(intEn, BitField(2, 0x04)) == 1
  {}

  /** Enabling only alarm 1's interrupt leaves get_alarm reporting alarm 1 as disabled. */
  lemma EnabledAlarmReportedDisabled()
    ensures IrqEnableByte(0, INTR_ID_ALARM1) == 0x01 && !IsEnabled(IrqEnableByte(0, INTR_ID_ALARM1), ALARM1)
  {}

  // ---------------------------------------------------------------------
  // One-register updates
  // ---------------------------------------------------------------------

  /** The INT_EN bits irq_enable and irq_disable act on: the six enables for INTR_ID_ALL, else the id as a mask. */
  function IrqMask(id: int): (m: Byte)
    ensures id == INTR_ID_ALL ==> m == ALL_IRQ
    ensures id != INTR_ID_ALL ==> m as int == id % 256
  {
    if id == INTR_ID_ALL then ALL_IRQ else U8(id)
  }

  /** irq_enable's INT_EN update: the id's enables are set, no other bit changes. */
  function IrqEnableByte(intEn: Byte, id: int): (r: Byte)
    ensures r & IrqMask(id) == IrqMask(id) && r & !IrqMask(id) == intEn & !IrqMask(id)
  {
    intEn | IrqMask(id)
  }

  /** irq_disable's INT_EN update: the id's enables are cleared, no other bit changes. */
  function IrqDisableByte(intEn: Byte, id: int): (r: Byte)
    ensures r & IrqMask(id) == 0 && r & !IrqMask(id) == intEn & !IrqMask(id)
  {
    intEn & !IrqMask(id)
  }

  /** powerfail_threshold_level's PWR_MGMT update: PFVT takes the threshold, nothing else changes. */
  function ThresholdByte(reg: Byte, th: int): (r: Byte)
    ensures Get(r, Pfvt) == U8(th) & 3 && r & !0x30 == reg & !0x30
  {
    Store(reg, Pfvt, th)
  }

  /**
   * supply_select's PWR_MGMT update: manual selection of VCC or of the
   * backup supply; any other value returns to automatic selection and
   * leaves the backup-supply bit as it was.
   */
  function SupplyByte(reg: Byte, supply: int): (r: Byte)
    ensures r & !0x0C == reg & !0x0C
    ensures supply == POW_MGMT_SUPPLY_SEL_VCC ==> Get(r, DmanSel) == 1 && Get(r, DVbackSel) == 0
    ensures supply == POW_MGMT_SUPPLY_SEL_VBACK ==> Get(r, DmanSel) == 1 && Get(r, DVbackSel) == 1
    ensures supply != POW_MGMT_SUPPLY_SEL_VCC && supply != POW_MGMT_SUPPLY_SEL_VBACK ==>
              Get(r, DmanSel) == 0 && Get(r, DVbackSel) == Get(reg, DVbackSel)
  {
    if supply == POW_MGMT_SUPPLY_SEL_VCC then (reg | 0x04) & !0x08
    else if supply == POW_MGMT_SUPPLY_SEL_VBACK then reg | 0x04 | 0x08
    else reg & !0x04
  }

  /**
   * trickle_charger_enable's TRICKLE byte, written without reading: the
   * enable code 5 in TCHE and the path in D_TRICKLE.
   */
  function TrickleByte(path: int): (r: Byte)
    ensures Get(r, Tche) == 5 && Get(r, DTrickle) == U8(path) & 0x0F
  {
    ((5 << 4) & 0xF0) | (U8(path) & 0x0F)
  }

  /** set_square_wave_frequency's CFG2 update: SQW_HZ takes the frequency, nothing else changes. */
  function SquareWaveByte(cfg2: Byte, freq: int): (r: Byte)
    ensures Get(r, SqwHz) == U8(freq) & 7 && r & !0x07 == cfg2 & !0x07
  {
    Store(cfg2, SqwHz, freq)
  }

  /** clko_enable's CFG2 update: ENCLKO set, CLKO_HZ takes the frequency, the square wave field kept. */
  function ClkoEnableByte(cfg2: Byte, freq: int): (r: Byte)
    ensures Get(r, EnClko) == 1 && Get(r, ClkoHz) == U8(freq) & 0x0F && r & 0x07 == cfg2 & 0x07
  {
    Store(cfg2 | 0x80, ClkoHz, freq)
  }

  /**
   * timer_init's TIMER_CONFIG update: the timer reset (TE 0) and paused
   * (TPAUSE 1), TRPT from `repeat`, TFS from `freq`; the top three bits kept.
   */
  function TimerInitByte(cfg: Byte, repeat: bool, freq: int): (r: Byte)
    ensures Get(r, Te) == 0 && Get(r, Tpause) == 1 && Get(r, Trpt) == (if repeat then 1 else 0)
    ensures Get(r, Tfs) == U8(freq) & 3 && r & 0xE0 == cfg & 0xE0
  {
    var c := (cfg & !0x10) | 0x08;
    var c2 := if repeat then c | 0x04 else c & !0x04;
    Store(c2, Tfs, freq)
  }

  /**
   * timer_start, timer_pause, timer_continue and timer_stop: TE and TPAUSE
   * take the given values, every other TIMER_CONFIG bit is kept.
   */
  function TimerControlByte(cfg: Byte, te: bool, pause: bool): (r: Byte)
    ensures Get(r, Te) == (if te then 1 else 0) && Get(r, Tpause) == (if pause then 1 else 0)
    ensures r & !0x18 == cfg & !0x18
  {
    var c := if te then cfg | 0x10 else cfg & !0x10;
    if pause then c | 0x08 else c & !0x08
  }

  /**
   * set_data_retention_mode's CFG1 update: data retention on stops the
   * oscillator, off restarts it; nothing else changes.
   */
  function DataRetentionByte(cfg1: Byte, enable: bool): (r: Byte)
    ensures Get(r, DataRet) == (if enable then 1 else 0) && Get(r, Enosc) == (if enable then 0 else 1)
    ensures r & !0x12 == cfg1 & !0x12
  {
    if enable then (cfg1 & !0x02) | 0x10 else (cfg1 | 0x02) & !0x10
  }

  /**
   * start_temp_conversion's TS_CONFIG update: automatic mode with the given
   * interval, or a one-shot conversion with automatic mode off (interval kept).
   */
  function TempConversionByte(reg: Byte, automode: bool, interval: int): (r: Byte)
    ensures automode ==> Get(r, AutoMode) == 1 && Get(r, Ttsint) == U8(interval) & 7 && r & 0x47 == reg & 0x47
    ensures !automode ==> Get(r, AutoMode) == 0 && Get(r, OneShot) == 1 && r & 0x3F == reg & 0x3F
  {
    if automode then Store(reg | 0x80, Ttsint, interval) else (reg & !0x80) | 0x40
  }

  /**
   * get_temp's 10-bit two's-complement count from TEMP_MSB and the top two
   * bits of TEMP_LSB, in quarter degrees Celsius, with the driver's own
   * negation (`(count ^ 0x3FF) + 1`) for a set sign bit.
   */
  function TempQuarters(msb: Byte, lsb: Byte): (q: int)
    ensures -512 <= q <= 511
  {
    var count := (msb as int * 4 + (lsb as int / 64) % 4) % 1024;
    if count >= 512 then -(1023 - count + 1) else count
  }

  /** get_temp reads the count as a 10-bit two's-complement number. */
  lemma TempTwosComplement(msb: Byte, lsb: Byte)
    ensures var count := (msb as int * 4 + (lsb as int / 64) % 4) % 1024;
            TempQuarters(msb, lsb) == if count >= 512 then count - 1024 else count
    ensures TempQuarters(msb, lsb) % 1024 == (msb as int * 4 + (lsb as int / 64) % 4) % 1024
  {}

  // ---------------------------------------------------------------------
  // NVRAM
  // ---------------------------------------------------------------------

  /**
   * The register nvram_write and nvram_read start at, `RAM_REG_START +
   * offset` passed as a `uint8_t`; a negative offset is not refused and
   * reaches below the NVRAM.
   */
  function NvramAddress(offset: int): (a: Addr)
    ensures 0 <= offset < NVRAM_SIZE ==> a == R_RAM_REG_START + offset
  {
    (R_RAM_REG_START + offset) % 256
  }

  /** The length nvram_write and nvram_read pass on as a `uint8_t`. */
  function NvramLength(length: nat): (n: nat)
    ensures n <= 255 && (length <= 255 ==> n == length)
  {
    length % 256
  }

  // ---------------------------------------------------------------------
  // The device
  // ---------------------------------------------------------------------

  /** A MAX31343 on its I2C bus, as the driver object sees it. */
  class Rtc {
    /** The chip's register space. */
    var regs: Regs

    constructor (init: Regs)
      ensures regs == init
    {
      regs := init;
    }

    /**
     * read_register: a burst read that either returns the registers or fails
     * with -1 (a NACK, or fewer bytes than requested).
     */
    method ReadRegister(addr: Addr, len: nat) returns (ret: int, data: seq<Byte>)
      requires len <= 255
      ensures ret == 0 || ret == ERR_UNKNOWN
      ensures ret == 0 ==> data == Window(regs, addr, len)
    {
      if * {
        ret, data := ERR_UNKNOWN, [];
      } else {
        ret, data := 0, Window(regs, addr, len);
      }
    }

    /**
     * write_register: a burst write that either stores all bytes or fails
     * with the bus status code 1..4 and stores nothing.
     */
    method WriteRegister(addr: Addr, data: seq<Byte>) returns (ret: int)
      requires |data| <= 255
      modifies this
      ensures ret == 0 ==> regs == Overwrite(old(regs), addr, data)
      ensures ret != 0 ==> 1 <= ret <= 4 && regs == old(regs)
    {
      if * {
        var code: int :| 1 <= code <= 4;
        ret := code;
      } else {
        regs := Overwrite(regs, addr, data);
        ret := 0;
      }
    }

    method ReadOne(addr: Addr) returns (ret: int, b: Byte)
      ensures ret == 0 || ret == ERR_UNKNOWN
      ensures ret == 0 ==> b == regs[addr]
    {
      var data;
      ret, data := ReadRegister(addr, 1);
      b := if ret == 0 then data[0] else 0;
    }

    method WriteOne(addr: Addr, b: Byte) returns (ret: int)
      modifies this
      ensures ret == 0 ==> regs == old(regs)[addr := b]
      ensures ret != 0 ==> 1 <= ret <= 4 && regs == old(regs)
    {
      ret := WriteRegister(addr, [b]);
      OverwriteOne(old(regs), addr, b);
    }

    /**
     * The read-modify-write every setter does: read one register, return
     * -1 with no write if that fails, else write back its updated value.
     */
    method Update(addr: Addr, op: Op) returns (ret: int)
      modifies this
      ensures ret == 0 ==> regs == old(regs)[addr := Apply(op, old(regs)[addr])]
      ensures ret != 0 ==> (ret == ERR_UNKNOWN || 1 <= ret <= 4) && regs == old(regs)
    {
      var b;
      ret, b := ReadOne(addr);
      if ret != 0 {
        return;
      }
      ret := WriteOne(addr, Apply(op, b));
    }

    /** get_status: `prior` is the caller's record, left as it was when the read fails. */
    method GetStatus(prior: Status) returns (ret: int, stat: Status)
      ensures ret == 0 || ret == ERR_UNKNOWN
      ensures ret == 0 ==> stat == DecodeStatus(regs[R_STATUS])
      ensures ret != 0 ==> stat == prior
    {
      var b;
      ret, b := ReadOne(R_STATUS);
      stat := if ret == 0 then DecodeStatus(b) else prior;
    }

    /** get_configuration: reads CFG1 and CFG2 together. */
    method GetConfiguration(prior: Config) returns (ret: int, cfg: Config)
      ensures ret == 0 || ret == ERR_UNKNOWN
      ensures ret == 0 ==> cfg == DecodeConfig(regs[R_CFG1], regs[R_CFG2])
      ensures ret != 0 ==> cfg == prior
    {
      var data;
      ret, data := ReadRegister(R_CFG1, 2);
      if ret != 0 {
        return ret, prior;
      }
      cfg := DecodeConfig(data[0], data[1]);
    }

    /** set_configuration: writes the encoded CFG1 and CFG2 together. */
    method SetConfiguration(cfg: Config) returns (ret: int)
      modifies this
      ensures ret == 0 ==> regs == Overwrite(old(regs), R_CFG1, EncodeConfig(cfg))
      ensures ret != 0 ==> 1 <= ret <= 4 && regs == old(regs)
    {
      ret := WriteRegister(R_CFG1, EncodeConfig(cfg));
    }

    /**
     * set_time: refuses years before 2000 with -1 and no write; otherwise
     * writes the encoded 7-byte block at SECONDS. `stale` is the initial
     * content of the local register block.
     */
    method SetTime(t: Tm, stale: seq<Byte>) returns (ret: int)
      requires |stale| == 7
      modifies this
      ensures EncodeTime(t, stale).Err? ==> ret == ERR_UNKNOWN && regs == old(regs)
      ensures EncodeTime(t, stale).Ok? && ret == 0 ==> regs == Overwrite(old(regs), R_SECONDS, EncodeTime(t, stale).value)
      ensures EncodeTime(t, stale).Ok? && ret != 0 ==> 1 <= ret <= 4 && regs == old(regs)
    {
      var enc := EncodeTime(t, stale);
      if enc.Err? {
        return enc.code;
      }
      ret := WriteRegister(R_SECONDS, enc.value);
    }

    /** get_time: a failed read returns -1 and leaves the caller's `prior` as it was. */
    method GetTime(prior: Tm) returns (ret: int, t: Tm)
      ensures ret == 0 || ret == ERR_UNKNOWN
      ensures ret == 0 ==> t == DecodeTime(Window(regs, R_SECONDS, 7))
      ensures ret != 0 ==> t == prior
    {
      var data;
      ret, data := ReadRegister(R_SECONDS, 7);
      if ret != 0 {
        return ret, prior;
      }
      t := DecodeTime(data);
    }

    /**
     * set_alarm: refuses an unsupported period or a year before 2000 with
     * -1 and no write; otherwise writes the encoded block, for alarm 2
     * only its minutes, hours and day/date bytes.
     */
    method SetAlarm(alarmNo: int, t: Tm, period: int, stale: seq<Byte>) returns (ret: int)
      requires |stale| == 6
      modifies this
      ensures EncodeAlarm(alarmNo, t, period, stale).Err? ==> ret == ERR_UNKNOWN && regs == old(regs)
      ensures EncodeAlarm(alarmNo, t, period, stale).Ok? && ret == 0 ==>
        regs == Overwrite(old(regs), AlarmAddress(alarmNo), AlarmBytes(alarmNo, EncodeAlarm(alarmNo, t, period, stale).value))
      ensures EncodeAlarm(alarmNo, t, period, stale).Ok? && ret != 0 ==> 1 <= ret <= 4 && regs == old(regs)
    {
      var enc := EncodeAlarm(alarmNo, t, period, stale);
      if enc.Err? {
        return enc.code;
      }
      ret := WriteRegister(AlarmAddress(alarmNo), AlarmBytes(alarmNo, enc.value));
    }

    /**
     * get_alarm: decodes the alarm time into the caller's `prior` and the
     * period (left at `priorPeriod` for a key the switch does not list),
     * then reads whether the alarm is enabled. A failed first read leaves
     * all three outputs as they were; a failed INT_EN read leaves only the
     * enable flag. `stale` is the uninitialised year byte of alarm 2.
     */
    method GetAlarm(alarmNo: int, prior: Tm, priorPeriod: int, priorEnabled: bool, stale: Byte)
      returns (ret: int, t: Tm, period: int, enabled: bool)
      ensures ret == 0 || ret == ERR_UNKNOWN
      ensures ret == 0 ==> t == AlarmTime(AlarmRead(alarmNo, regs, stale), prior) &&
                           period == OrElse(AlarmPeriod(alarmNo, AlarmRead(alarmNo, regs, stale)), priorPeriod) &&
                           enabled == IsEnabled(regs[R_INT_EN], alarmNo)
      ensures ret != 0 ==> enabled == priorEnabled &&
                           ((t, period) == (prior, priorPeriod) ||
                            (t, period) == (AlarmTime(AlarmRead(alarmNo, regs, stale), prior),
                                            OrElse(AlarmPeriod(alarmNo, AlarmRead(alarmNo, regs, stale)), priorPeriod)))
    {
      var data;
      if alarmNo == ALARM1 {
        ret, data := ReadRegister(R_ALM1_SEC, 6);
      } else {
        ret, data := ReadRegister(R_ALM2_MIN, 4);
        data := [0] + data + [stale];
      }
      if ret != 0 {
        return ret, prior, priorPeriod, priorEnabled;
      }
      t := AlarmTime(data, prior);
      period := OrElse(AlarmPeriod(alarmNo, data), priorPeriod);
      var intEn;
      ret, intEn := ReadOne(R_INT_EN);
      if ret != 0 {
        return ret, t, period, priorEnabled;
      }
      enabled := IsEnabled(intEn, alarmNo);
    }

    /** powerfail_threshold_level: read-modify-write of PWR_MGMT. */
    method PowerfailThresholdLevel(th: int) returns (ret: int)
      modifies this
      ensures ret == 0 ==> regs == old(regs)[R_PWR_MGMT := ThresholdByte(old(regs)[R_PWR_MGMT], th)]
      ensures ret != 0 ==> (ret == ERR_UNKNOWN || 1 <= ret <= 4) && regs == old(regs)
    {
      ret := Update(R_PWR_MGMT, Threshold(th));
    }

    /** supply_select: read-modify-write of PWR_MGMT. */
    method SupplySelect(supply: int) returns (ret: int)
      modifies this
      ensures ret == 0 ==> regs == old(regs)[R_PWR_MGMT := SupplyByte(old(regs)[R_PWR_MGMT], supply)]
      ensures ret != 0 ==> (ret == ERR_UNKNOWN || 1 <= ret <= 4) && regs == old(regs)
    {
      ret := Update(R_PWR_MGMT, Supply(supply));
    }

    /** trickle_charger_enable: writes TRICKLE without reading it. */
    method TrickleChargerEnable(path: int) returns (ret: int)
      modifies this
      ensures ret == 0 ==> regs == old(regs)[R_TRICKLE := TrickleByte(path)]
      ensures ret != 0 ==> 1 <= ret <= 4 && regs == old(regs)
    {
      ret := WriteOne(R_TRICKLE, TrickleByte(path));
    }

    /** trickle_charger_disable: clears TCHE, keeping the path. */
    method TrickleChargerDisable() returns (ret: int)
      modifies this
      ensures ret == 0 ==> regs == old(regs)[R_TRICKLE := old(regs)[R_TRICKLE] & 0x0F]
      ensures ret != 0 ==> (ret == ERR_UNKNOWN || 1 <= ret <= 4) && regs == old(regs)
    {
      ret := Update(R_TRICKLE, ClearBits(0xF0));
    }

    /** set_square_wave_frequency: read-modify-write of CFG2. */
    method SetSquareWaveFrequency(freq: int) returns (ret: int)
      modifies this
      ensures ret == 0 ==> regs == old(regs)[R_CFG2 := SquareWaveByte(old(regs)[R_CFG2], freq)]
      ensures ret != 0 ==> (ret == ERR_UNKNOWN || 1 <= ret <= 4) && regs == old(regs)
    {
      ret := Update(R_CFG2, SquareWave(freq));
    }

    /** clko_enable: read-modify-write of CFG2. */
    method ClkoEnable(freq: int) returns (ret: int)
      modifies this
      ensures ret == 0 ==> regs == old(regs)[R_CFG2 := ClkoEnableByte(old(regs)[R_CFG2], freq)]
      ensures ret != 0 ==> (ret == ERR_UNKNOWN || 1 <= ret <= 4) && regs == old(regs)
    {
      ret := Update(R_CFG2, ClkoOn(freq));
    }

    /** clko_disable: clears ENCLKO, keeping the rest of CFG2. */
    method ClkoDisable() returns (ret: int)
      modifies this
      ensures ret == 0 ==> regs == old(regs)[R_CFG2 := old(regs)[R_CFG2] & 0x7F]
      ensures ret != 0 ==> (ret == ERR_UNKNOWN || 1 <= ret <= 4) && regs == old(regs)
    {
      ret := Update(R_CFG2, ClearBits(0x80));
    }

    /**
     * timer_init: TIMER_CONFIG updated first; only if that write succeeds is
     * the initial value written to TIMER_INIT.
     */
    method TimerInit(initial: Byte, repeat: bool, freq: int) returns (ret: int)
      modifies this
      ensures ret == 0 ==> regs == old(regs)[R_TIMER_CONFIG := TimerInitByte(old(regs)[R_TIMER_CONFIG], repeat, freq)]
                                            [R_TIMER_INIT := initial]
      ensures ret != 0 ==> (ret == ERR_UNKNOWN || 1 <= ret <= 4) &&
                           (regs == old(regs) ||
                            regs == old(regs)[R_TIMER_CONFIG := TimerInitByte(old(regs)[R_TIMER_CONFIG], repeat, freq)])
    {
      ret := Update(R_TIMER_CONFIG, TimerSetup(repeat, freq));
      if ret != 0 {
        return;
      }
      ret := WriteOne(R_TIMER_INIT, initial);
    }

    /** timer_get: the TIMER_COUNT register; `prior` is left as it was when the read fails. */
    method TimerGet(prior: Byte) returns (ret: int, val: Byte)
      ensures ret == 0 || ret == ERR_UNKNOWN
      ensures ret == 0 ==> val == regs[R_TIMER_COUNT]
      ensures ret != 0 ==> val == prior
    {
      var b;
      ret, b := ReadOne(R_TIMER_COUNT);
      val := if ret == 0 then b else prior;
    }

    /**
     * timer_start (TE 1, TPAUSE 0), timer_pause (1, 1), timer_continue
     * (1, 0) and timer_stop (0, 1): read-modify-write of TIMER_CONFIG.
     */
    method TimerControl(te: bool, pause: bool) returns (ret: int)
      modifies this
      ensures ret == 0 ==> regs == old(regs)[R_TIMER_CONFIG := TimerControlByte(old(regs)[R_TIMER_CONFIG], te, pause)]
      ensures ret != 0 ==> (ret == ERR_UNKNOWN || 1 <= ret <= 4) && regs == old(regs)
    {
      ret := Update(R_TIMER_CONFIG, TimerRun(te, pause));
    }

    /** set_data_retention_mode: read-modify-write of CFG1. */
    method SetDataRetentionMode(enable: bool) returns (ret: int)
      modifies this
      ensures ret == 0 ==> regs == old(regs)[R_CFG1 := DataRetentionByte(old(regs)[R_CFG1], enable)]
      ensures ret != 0 ==> (ret == ERR_UNKNOWN || 1 <= ret <= 4) && regs == old(regs)
    {
      ret := Update(R_CFG1, DataRetention(enable));
    }

    /** start_temp_conversion: read-modify-write of TS_CONFIG. */
    method StartTempConversion(automode: bool, interval: int) returns (ret: int)
      modifies this
      ensures ret == 0 ==> regs == old(regs)[R_TS_CONFIG := TempConversionByte(old(regs)[R_TS_CONFIG], automode, interval)]
      ensures ret != 0 ==> (ret == ERR_UNKNOWN || 1 <= ret <= 4) && regs == old(regs)
    {
      ret := Update(R_TS_CONFIG, TempConversion(automode, interval));
    }

    /** is_temp_ready: -3 while a one-shot conversion is pending, 0 once it is done. */
    method IsTempReady() returns (ret: int)
      ensures ret == 0 || ret == ERR_BUSY || ret == ERR_UNKNOWN
      ensures ret == 0 ==> Get(regs[R_TS_CONFIG], OneShot) == 0
      ensures ret == ERR_BUSY ==> Get(regs[R_TS_CONFIG], OneShot) == 1
    {
      var reg;
      ret, reg := ReadOne(R_TS_CONFIG);
      if ret != 0 {
        return;
      }
      ret := if reg & 0x40 != 0 then ERR_BUSY else 0;
    }

    /** get_temp: the temperature count in quarter degrees; `prior` is kept when the read fails. */
    method GetTemp(prior: int) returns (ret: int, quarters: int)
      ensures ret == 0 || ret == ERR_UNKNOWN
      ensures ret == 0 ==> quarters == TempQuarters(regs[R_TEMP_MSB], regs[R_TEMP_MSB + 1])
      ensures ret != 0 ==> quarters == prior
    {
      var data;
      ret, data := ReadRegister(R_TEMP_MSB, 2);
      if ret != 0 {
        return ret, prior;
      }
      quarters := TempQuarters(data[0], data[1]);
    }

    /** irq_enable: read-modify-write of INT_EN. */
    method IrqEnable(id: int) returns (ret: int)
      modifies this
      ensures ret == 0 ==> regs == old(regs)[R_INT_EN := IrqEnableByte(old(regs)[R_INT_EN], id)]
      ensures ret != 0 ==> (ret == ERR_UNKNOWN || 1 <= ret <= 4) && regs == old(regs)
    {
      ret := Update(R_INT_EN, IrqOn(id));
    }

    /** irq_disable: read-modify-write of INT_EN. */
    method IrqDisable(id: int) returns (ret: int)
      modifies this
      ensures ret == 0 ==> regs == old(regs)[R_INT_EN := IrqDisableByte(old(regs)[R_INT_EN], id)]
      ensures ret != 0 ==> (ret == ERR_UNKNOWN || 1 <= ret <= 4) && regs == old(regs)
    {
      ret := Update(R_INT_EN, IrqOff(id));
    }

    /** irq_clear_flag: only reads STATUS (the chip clears its flags on that read); the id is ignored. */
    method IrqClearFlag(id: int) returns (ret: int)
      ensures ret == 0 || ret == ERR_UNKNOWN
    {
      var b;
      ret, b := ReadOne(R_STATUS);
    }

    /** sw_reset_assert (`hold` true) writes 1 to RTC_RESET; sw_reset_release writes 0. */
    method SwReset(hold: bool) returns (ret: int)
      modifies this
      ensures ret == 0 ==> regs == old(regs)[R_RTC_RESET := if hold then 1 else 0]
      ensures ret != 0 ==> 1 <= ret <= 4 && regs == old(regs)
    {
      ret := WriteOne(R_RTC_RESET, if hold then 1 else 0);
    }

    /** rtc_start (`run` true) sets ENOSC in CFG1; rtc_stop clears it. */
    method RtcRun(run: bool) returns (ret: int)
      modifies this
      ensures ret == 0 ==> regs == old(regs)[R_CFG1 := if run then old(regs)[R_CFG1] | 0x02 else old(regs)[R_CFG1] & !0x02]
      ensures ret != 0 ==> (ret == ERR_UNKNOWN || 1 <= ret <= 4) && regs == old(regs)
    {
      ret := Update(R_CFG1, if run then SetBits(0x02) else ClearBits(0x02));
    }

    /**
     * nvram_write: -1 with no write when the bytes would end past the NVRAM,
     * 0 with no bus access for no bytes, otherwise one burst write at
     * RAM_REG_START + offset.
     */
    method NvramWrite(offset: int, data: seq<Byte>) returns (ret: int)
      modifies this
      ensures offset + |data| > NVRAM_SIZE ==> ret == ERR_UNKNOWN && regs == old(regs)
      ensures offset + |data| <= NVRAM_SIZE && |data| == 0 ==> ret == 0 && regs == old(regs)
      ensures offset + |data| <= NVRAM_SIZE && |data| > 0 && ret == 0 ==>
                regs == Overwrite(old(regs), NvramAddress(offset), data[..NvramLength(|data|)])
      ensures ret != 0 ==> regs == old(regs)
    {
      if offset + |data| > NVRAM_SIZE {
        return ERR_UNKNOWN;
      }
      if |data| == 0 {
        return 0;
      }
      ret := WriteRegister(NvramAddress(offset), data[..NvramLength(|data|)]);
    }

    /**
     * nvram_read: the same bounds as nvram_write; a successful read fills
     * the first bytes of the caller's buffer `prior`.
     */
    method NvramRead(offset: int, prior: seq<Byte>) returns (ret: int, buffer: seq<Byte>)
      ensures |buffer| == |prior|
      ensures offset + |prior| > NVRAM_SIZE ==> ret == ERR_UNKNOWN && buffer == prior
      ensures offset + |prior| <= NVRAM_SIZE && |prior| == 0 ==> ret == 0
      ensures offset + |prior| <= NVRAM_SIZE && |prior| > 0 ==> ret == 0 || ret == ERR_UNKNOWN
      ensures offset + |prior| <= NVRAM_SIZE && |prior| > 0 && ret == 0 ==>
                buffer == Window(regs, NvramAddress(offset), NvramLength(|prior|)) + prior[NvramLength(|prior|)..]
      ensures ret != 0 ==> buffer == prior
    {
      if offset + |prior| > NVRAM_SIZE {
        return ERR_UNKNOWN, prior;
      }
      if |prior| == 0 {
        return 0, prior;
      }
      var n := NvramLength(|prior|);
      var data;
      ret, data := ReadRegister(NvramAddress(offset), n);
      buffer := if ret == 0 then data + prior[n..] else prior;
    }
  }

  /** The one-register updates the driver's setters apply between their read and their write. */
  datatype Op =
    | Threshold(th: int) | Supply(supply: int) | SquareWave(freq: int) | ClkoOn(clkoFreq: int)
    | TimerSetup(repeat: bool, timerFreq: int) | TimerRun(te: bool, pause: bool)
    | DataRetention(enable: bool) | TempConversion(automode: bool, interval: int)
    | IrqOn(onId: int) | IrqOff(offId: int) | SetBits(setMask: Byte) | ClearBits(clearMask: Byte)

  /** The register value an update gives. */
  function Apply(op: Op, b: Byte): Byte
  {
    match op
    case Threshold(th) => ThresholdByte(b, th)
    case Supply(supply) => SupplyByte(b, supply)
    case SquareWave(freq) => SquareWaveByte(b, freq)
    case ClkoOn(freq) => ClkoEnableByte(b, freq)
    case TimerSetup(repeat, freq) => TimerInitByte(b, repeat, freq)
    case TimerRun(te, pause) => TimerControlByte(b, te, pause)
    case DataRetention(enable) => DataRetentionByte(b, enable)
    case TempConversion(automode, interval) => TempConversionByte(b, automode, interval)
    case IrqOn(id) => IrqEnableByte(b, id)
    case IrqOff(id) => IrqDisableByte(b, id)
    case SetBits(m) => b | m
    case ClearBits(m) => b & !m
  }

  /** The value of an optional result, or `d` when there is none. */
  function OrElse(o: Option<int>, d: int): (r: int)
    ensures o.Some? ==> r == o.value
    ensures o.None? ==> r == d
  {
    if o.Some? then o.value else d
  }
}
