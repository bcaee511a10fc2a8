/**
 * The MAX31341 driver: its register layout (MAX31341_registers.h), the
 * record layouts and enumerations of MAX31341.h, the calendar and alarm
 * codecs, the one-register updates, and the driver object as class `Rtc`
 * over the chip's register space and the log of its bus writes.
 */
module Max31341 {
  import opened Bits
  import opened Wrappers
  import opened Calendar
  import opened RegisterMap
  import Bcd

  // ---------------------------------------------------------------------
  // Constants
  // ---------------------------------------------------------------------

  /** The code read_register returns for a failed transfer. */
  const ERR_READ := -1

  // power_mgmt_mode_t
  const POW_MGMT_MODE_COMPARATOR := 0
  const POW_MGMT_MODE_POWER_MANAGEMENT := 1

  // power_mgmt_supply_t
  const POW_MGMT_SUPPLY_SEL_AUTO := 0
  const POW_MGMT_SUPPLY_SEL_VCC := 1
  const POW_MGMT_SUPPLY_SEL_AIN := 2

  // trickle_charger_ohm_t
  const TrickleCodes: seq<int> := [0, 0x08, 0x0A, 0x0B, 0x0C, 0x0E, 0x0F]

  // clkin_freq_t
  const CLKIN_FREQ_1HZ := 0

  // intr_id_t: one bit per interrupt
  const INTR_ID_ALARM1 := 1
  const INTR_ID_ALARM2 := 2
  const INTR_ID_TIMER := 4
  const INTR_ID_ALL := 0xFF

  // alarm_no_t
  const ALARM1 := 0
  const ALARM2 := 1

  // alarm_period_t
  const EVERYSECOND := 0
  const EVERYMINUTE := 1
  const HOURLY := 2
  const DAILY := 3
  const WEEKLY := 4
  const MONTHLY := 5

  // config_inta_clkin_pin_t and config_intb_clkout_pin_t
  const CONFIGURE_PIN_AS_INTA := 0
  const CONFIGURE_PIN_AS_CLKIN := 1
  const CONFIGURE_PIN_AS_CLKOUT := 0
  const CONFIGURE_PIN_AS_INTB := 1

  // sync_delay_t
  const SYNC_DLY_LESS_THAN_1SEC := 0
  const SYNC_DLY_LESS_THAN_100MS := 1
  const SYNC_DLY_LESS_THAN_10MS := 2

  // Register addresses
  const R_CFG1: Addr := 0x00
  const R_CFG2: Addr := 0x01
  const R_TIMER_CFG: Addr := 0x03
  const R_INT_EN: Addr := 0x04
  const R_INT_STATUS: Addr := 0x05
  const R_SECONDS: Addr := 0x06
  const R_ALM1_SEC: Addr := 0x0D
  const R_ALM2_MIN: Addr := 0x11
  const R_TIMER_COUNT: Addr := 0x14
  const R_TIMER_INIT: Addr := 0x15
  const R_RAM_START: Addr := 0x16
  const R_RAM_END: Addr := 0x55
  const R_PWR_MGMT: Addr := 0x56
  const R_TRICKLE: Addr := 0x57
  const R_CLOCK_SYNC: Addr := 0x58
  const R_REV_ID: Addr := 0x59

  // Bit fields of CFG1
  const Swrstn: BitField := BitField(0, 0x01)
  const Rs: BitField := BitField(1, 0x06)
  const Osconz: BitField := BitField(3, 0x08)
  const Clksel: BitField := BitField(4, 0x30)
  const Intcn: BitField := BitField(6, 0x40)
  const Eclk: BitField := BitField(7, 0x80)

  // Bit fields of CFG2
  const SetRtc: BitField := BitField(1, 0x02)
  const RdRtc: BitField := BitField(2, 0x04)
  const I2cTimeout: BitField := BitField(3, 0x08)
  const Bref: BitField := BitField(4, 0x30)
  const DataReten: BitField := BitField(6, 0x40)

  // Bit fields of TIMER_CFG
  const Tfs: BitField := BitField(0, 0x03)
  const Trpt: BitField := BitField(2, 0x04)
  const Te: BitField := BitField(4, 0x10)
  const Tpause: BitField := BitField(5, 0x20)

  /** The interrupt enables of INT_EN: A1IE, A2IE, TIE, EIE1, ANA_IE and DOSF. */
  const ALL_IRQ: Byte := 0x77

  // Bit fields of INT_STATUS
  const A1if: BitField := BitField(0, 0x01)
  const A2if: BitField := BitField(1, 0x02)
  const Tif: BitField := BitField(2, 0x04)
  const Eif1: BitField := BitField(4, 0x10)
  const AnaIf: BitField := BitField(5, 0x20)
  const Osf: BitField := BitField(6, 0x40)
  const Los: BitField := BitField(7, 0x80)

  // Bit fields of PWR_MGMT, TRICKLE, CLOCK_SYNC and REV_ID
  const DMode: BitField := BitField(0, 0x03)
  const DmanSel: BitField := BitField(2, 0x04)
  const DVbackSel: BitField := BitField(3, 0x08)
  const DTrickle: BitField := BitField(0, 0x0F)
  const SyncDelay: BitField := BitField(0, 0x03)
  const RevId: BitField := BitField(4, 0xF0)

  // Bit fields of the time block (regs_rtc_time_t) and the alarm block (regs_alarm_t)
  const Bcd7: BitField := BitField(0, 0x7F)     // seconds, minutes; alarm sec, min
  const Bcd6: BitField := BitField(0, 0x3F)     // hours, date; alarm hrs, bcd_date
  const Bcd3: BitField := BitField(0, 0x07)     // day; alarm bcd_day
  const Bcd5: BitField := BitField(0, 0x1F)     // month
  const Century: BitField := BitField(7, 0x80)  // month: century
  const Bcd8: BitField := BitField(0, 0xFF)     // year
  const Axm: BitField := BitField(7, 0x80)      // axm1..axm4 at bit 7 of each alarm byte
  const DyDt: BitField := BitField(6, 0x40)     // day_date: dy_dt

  /** The number of NVRAM bytes, RAM_START..RAM_END. */
  const NVRAM_SIZE := R_RAM_END - R_RAM_START + 1

  /** The driver's SET_BIT_VAL: a value shifted to a field's position and cut to its mask. */
  function SetBitVal(v: Byte, f: BitField): (r: Byte)
    ensures r & !f.mask == 0
  {
    (v << f.pos) & f.mask
  }

  /** The time block, SECONDS..YEAR, does not reach CFG2. */
  lemma TimeBlockSpan()
    ensures !Covers(R_SECONDS, 7, R_CFG2)
  {
    assert R_CFG2 - R_SECONDS == -5;
  }

  /** The layout facts the driver relies on: the interrupt ids are the INT_EN enables they name. */
  lemma Layout()
    ensures ALL_IRQ == 0x01 | 0x02 | 0x04 | 0x10 | 0x20 | 0x40
    ensures forall i :: 0 <= i < |TrickleCodes| ==> 0 <= TrickleCodes[i] < 16
    ensures NVRAM_SIZE == 64
  {}

  // ---------------------------------------------------------------------
  // Status and configuration records
  // ---------------------------------------------------------------------

  /** reg_status_t as get_status fills it in. */
  datatype Status = Status(a1f: U1, a2f: U1, tif: U1, eif1: U1, anaIf: U1, osf: U1, los: U1)

  /** get_status: each flag from its own bit of INT_STATUS. */
  function DecodeStatus(b: Byte): (s: Status)
    ensures s.a1f == b & 1 && s.a2f == (b >> 1) & 1 && s.tif == (b >> 2) & 1
    ensures s.eif1 == (b >> 4) & 1 && s.anaIf == (b >> 5) & 1 && s.osf == (b >> 6) & 1 && s.los == b >> 7
  {
    Status(Get(b, A1if), Get(b, A2if), Get(b, Tif), Get(b, Eif1), Get(b, AnaIf), Get(b, Osf), Get(b, Los))
  }

  /** reg_cfg_t: the fields of CFG1 and CFG2. */
  datatype Config = Config(swrstn: U1, rs: U2, osconz: U1, clksel: U2, intcn: U1, eclk: U1,
                           setRtc: U1, rdRtc: U1, i2cTimeout: U1, bref: U2, dataReten: U1)

  /** get_configuration: GET_BIT_VAL of each field of the two bytes read. */
  function DecodeConfig(cfg1: Byte, cfg2: Byte): Config
  {
    Config(Get(cfg1, Swrstn), Get(cfg1, Rs), Get(cfg1, Osconz), Get(cfg1, Clksel), Get(cfg1, Intcn), Get(cfg1, Eclk),
           Get(cfg2, SetRtc), Get(cfg2, RdRtc), Get(cfg2, I2cTimeout), Get(cfg2, Bref), Get(cfg2, DataReten))
  }

  /** set_configuration: the SET_BIT_VAL of each field ORed into a zero byte; unused bits are 0. */
  function EncodeConfig(c: Config): (r: seq<Byte>)
    ensures |r| == 2 && r[1] & !0x7E == 0
  {
    [SetBitVal(c.swrstn, Swrstn) | SetBitVal(c.rs, Rs) | SetBitVal(c.osconz, Osconz) |
     SetBitVal(c.clksel, Clksel) | SetBitVal(c.intcn, Intcn) | SetBitVal(c.eclk, Eclk),
     SetBitVal(c.setRtc, SetRtc) | SetBitVal(c.rdRtc, RdRtc) | SetBitVal(c.i2cTimeout, I2cTimeout) |
     SetBitVal(c.bref, Bref) | SetBitVal(c.dataReten, DataReten)]
  }

  /** A record set_configuration writes reads back unchanged through get_configuration. */
  lemma ConfigRoundTrip(c: Config)
    ensures DecodeConfig(EncodeConfig(c)[0], EncodeConfig(c)[1]) == c
  {
    Cfg1Low(c.swrstn, c.rs, c.osconz, c.clksel, c.intcn, c.eclk);
    Cfg1High(c.swrstn, c.rs, c.osconz, c.clksel, c.intcn, c.eclk);
    Cfg2RoundTrip(c.setRtc, c.rdRtc, c.i2cTimeout, c.bref, c.dataReten);
  }

  lemma Cfg1Low(swrstn: U1, rs: U2, osconz: U1, clksel: U2, intcn: U1, eclk: U1)
    ensures var b := SetBitVal(swrstn, Swrstn) | SetBitVal(rs, Rs) | SetBitVal(osconz, Osconz) |
                     SetBitVal(clksel, Clksel) | SetBitVal(intcn, Intcn) | SetBitVal(eclk, Eclk);
            Get(b, Swrstn) == swrstn && Get(b, Rs) == rs && Get(b, Osconz) == osconz
  {}

  lemma Cfg1High(swrstn: U1, rs: U2, osconz: U1, clksel: U2, intcn: U1, eclk: U1)
    ensures var b := SetBitVal(swrstn, Swrstn) | SetBitVal(rs, Rs) | SetBitVal(osconz, Osconz) |
                     SetBitVal(clksel, Clksel) | SetBitVal(intcn, Intcn) | SetBitVal(eclk, Eclk);
            Get(b, Clksel) == clksel && Get(b, Intcn) == intcn && Get(b, Eclk) == eclk
  {}

  lemma Cfg2RoundTrip(setRtc: U1, rdRtc: U1, timeout: U1, bref: U2, reten: U1)
    ensures var b := SetBitVal(setRtc, SetRtc) | SetBitVal(rdRtc, RdRtc) | SetBitVal(timeout, I2cTimeout) |
                     SetBitVal(bref, Bref) | SetBitVal(reten, DataReten);
            Get(b, SetRtc) == setRtc && Get(b, RdRtc) == rdRtc && Get(b, I2cTimeout) == timeout &&
            Get(b, Bref) == bref && Get(b, DataReten) == reten
  {}

  // ---------------------------------------------------------------------
  // Time block codec (set_time / get_time)
  // ---------------------------------------------------------------------

  /**
   * set_time's encoding of the 7-byte block (seconds, minutes, hours, day,
   * date, month, year) into its uninitialised contents `stale`: BCD values,
   * the weekday and month one higher, and the century bit; years before
   * 2000 give -1.
   */
  function EncodeTime(t: Tm, stale: seq<Byte>): (r: Result<seq<Byte>>)
    requires |stale| == 7
    ensures r.Err? <==> t.year < 100
    ensures r.Err? ==> r.code == -1
    ensures r.Ok? ==> |r.value| == 7
    ensures r.Ok? ==> Get(r.value[5], Century) == (if CenturySet(t.year) then 1 else 0)
  {
    if t.year < 100 then Err(-1)
    else
      var century := if CenturySet(t.year) then 1 else 0;
      Ok([Store(stale[0], Bcd7, Bcd.FromBin(t.sec)),
          Store(stale[1], Bcd7, Bcd.FromBin(t.min)),
          Store(stale[2], Bcd6, Bcd.FromBin(t.hour)),
          Store(stale[3], Bcd3, Bcd.FromBin(t.wday + 1)),
          Store(stale[4], Bcd6, Bcd.FromBin(t.mday)),
          Put(Store(stale[5], Bcd5, Bcd.FromBin(t.mon + 1)), Century, century),
          Store(stale[6], Bcd8, Bcd.FromBin(YearOfCentury(t.year)))])
  }

  /** get_time's decoding of the 7-byte block; day of year and DST are set to 0. */
  function DecodeTime(block: seq<Byte>): Tm
    requires |block| == 7
  {
    var year := Bcd.ToBin(Get(block[6], Bcd8)) + (if Get(block[5], Century) != 0 then 200 else 100);
    Tm(sec := Bcd.ToBin(Get(block[0], Bcd7)),
       min := Bcd.ToBin(Get(block[1], Bcd7)),
       hour := Bcd.ToBin(Get(block[2], Bcd6)),
       mday := Bcd.ToBin(Get(block[4], Bcd6)),
       mon := Bcd.ToBin(Get(block[5], Bcd5)) - 1,
       year := year,
       wday := Bcd.ToBin(Get(block[3], Bcd3)) - 1,
       yday := 0, isdst := 0)
  }

  /** Which register of the block set_time writes holds which field of the time. */
  lemma TimeLayout(t: Tm, stale: seq<Byte>)
    requires InRange(t) && |stale| == 7
    ensures EncodeTime(t, stale).Ok?
    ensures var b := EncodeTime(t, stale).value;
            b[0] == Store(stale[0], Bcd7, Bcd.FromBin(t.sec)) &&
            b[1] == Store(stale[1], Bcd7, Bcd.FromBin(t.min)) &&
            b[2] == Store(stale[2], Bcd6, Bcd.FromBin(t.hour)) &&
            b[3] == Store(stale[3], Bcd3, Bcd.FromBin(t.wday + 1)) &&
            b[4] == Store(stale[4], Bcd6, Bcd.FromBin(t.mday)) &&
            b[5] == Put(Store(stale[5], Bcd5, Bcd.FromBin(t.mon + 1)), Century, if CenturySet(t.year) then 1 else 0) &&
            b[6] == Store(stale[6], Bcd8, Bcd.FromBin(YearOfCentury(t.year)))
  {
  }

  /**
   * For every in-range time and whatever the local block held before, the
   * block set_time writes decodes through get_time to the same time.
   */
  lemma TimeRoundTrip(t: Tm, stale: seq<Byte>)
    requires InRange(t) && |stale| == 7
    ensures EncodeTime(t, stale).Ok?
    ensures DecodeTime(EncodeTime(t, stale).value) == Cleared(t)
  {
    TimeLayout(t, stale);
    var b := EncodeTime(t, stale).value;
    Bcd.ReadsBack(b, 0, stale[0], Bcd7, t.sec);
    Bcd.ReadsBack(b, 1, stale[1], Bcd7, t.min);
    Bcd.ReadsBack(b, 2, stale[2], Bcd6, t.hour);
    Bcd.ReadsBack(b, 3, stale[3], Bcd3, t.wday + 1);
    Bcd.ReadsBack(b, 4, stale[4], Bcd6, t.mday);
    Bcd.ReadsBackUnder(b, 5, stale[5], Bcd5, t.mon + 1, Century, if CenturySet(t.year) then 1 else 0);
    Bcd.ReadsBack(b, 6, stale[6], Bcd8, YearOfCentury(t.year));
  }

  /** set_time's `val8 &= ~SET_RTC`. */
  function ClearSetRtc(cfg2: Byte): Byte
  {
    cfg2 & !0x02
  }

  /** set_time's `val8 |= SET_RTC`. */
  function RaiseSetRtc(cfg2: Byte): Byte
  {
    cfg2 | 0x02
  }

  /**
   * The three CFG2 bytes set_time writes after the time block, from the
   * value it read: SET_RTC cleared, set, and cleared again.
   */
  function PulseLow(cfg2: Byte): Byte { ClearSetRtc(cfg2) }
  function PulseHigh(cfg2: Byte): Byte { RaiseSetRtc(PulseLow(cfg2)) }
  function PulseEnd(cfg2: Byte): Byte { ClearSetRtc(PulseHigh(cfg2)) }

  /** The pulse drives SET_RTC low, high, low and keeps every other bit of CFG2 as read. */
  lemma PulseBits(cfg2: Byte)
    ensures Get(PulseLow(cfg2), SetRtc) == 0 && Get(PulseHigh(cfg2), SetRtc) == 1 && Get(PulseEnd(cfg2), SetRtc) == 0
    ensures PulseLow(cfg2) & !0x02 == PulseHigh(cfg2) & !0x02 == PulseEnd(cfg2) & !0x02 == cfg2 & !0x02
    ensures PulseEnd(cfg2) == PulseLow(cfg2)
  {}

  /** The three CFG2 writes of the SET_RTC pulse, in order. */
  function PulseWrites(cfg2: Byte): (ws: seq<Transfer>)
    ensures |ws| == 3 && Sendable(ws)
  {
    [Write(R_CFG2, [PulseLow(cfg2)]), Write(R_CFG2, [PulseHigh(cfg2)]), Write(R_CFG2, [PulseEnd(cfg2)])]
  }

  /** The registers after the first `m` writes of the pulse, one CFG2 update per write. */
  function PulseState(regs: Regs, m: nat): Regs
    requires m <= 3
  {
    if m == 0 then regs
    else PulseState(regs, m - 1)[R_CFG2 := PulseWrites(regs[R_CFG2])[m - 1].data[0]]
  }

  /** Every write of the pulse is a one-byte write of CFG2. */
  lemma PulseWriteShape(cfg2: Byte, k: nat)
    requires k < 3
    ensures PulseWrites(cfg2)[k] == Write(R_CFG2, [PulseWrites(cfg2)[k].data[0]])
  {}

  /** Each state of the pulse is the effect of its writes made so far. */
  lemma {:induction false} PulseStates(regs: Regs, m: nat)
    requires m <= 3
    ensures PulseState(regs, m) == ApplyWrites(regs, PulseWrites(regs[R_CFG2])[..m])
  {
    var ws := PulseWrites(regs[R_CFG2]);
    if m == 0 {
      assert ws[..0] == [];
    } else {
      PulseStates(regs, m - 1);
      ApplyNext(regs, ws, m - 1);
      PulseWriteShape(regs[R_CFG2], m - 1);
      OverwriteOne(PulseState(regs, m - 1), R_CFG2, ws[m - 1].data[0]);
    }
  }

  /** Every write of a successful set_time, in order. */
  function SetTimeWrites(block: seq<Byte>, cfg2: Byte): (ws: seq<Transfer>)
    requires |block| == 7
    ensures |ws| == 4 && Sendable(ws)
  {
    [Write(R_SECONDS, block)] + PulseWrites(cfg2)
  }

  /**
   * After all of set_time's writes the time registers hold the block and
   * CFG2 holds its old value with SET_RTC cleared; nothing else changes.
   */
  lemma SetTimeEffect(regs: Regs, block: seq<Byte>)
    requires |block| == 7
    ensures ApplyWrites(regs, SetTimeWrites(block, regs[R_CFG2])) ==
            Overwrite(regs, R_SECONDS, block)[R_CFG2 := regs[R_CFG2] & !0x02]
  {
    var c := regs[R_CFG2];
    var r1 := Overwrite(regs, R_SECONDS, block);
    TimeBlockSpan();
    assert r1[R_CFG2] == c;
    assert SetTimeWrites(block, c) == [Write(R_SECONDS, block)] + PulseWrites(c);
    ApplyFirst(regs, Write(R_SECONDS, block), PulseWrites(c));
    PulseStates(r1, 3);
    assert PulseWrites(c)[..3] == PulseWrites(c);
    PulseFinal(r1);
    PulseBits(c);
  }

  /** The time block leaves CFG2 as it was. */
  lemma BlockKeepsCfg2(regs: Regs, block: seq<Byte>)
    requires |block| == 7
    ensures Overwrite(regs, R_SECONDS, block)[R_CFG2] == regs[R_CFG2]
  {
    TimeBlockSpan();
  }

  /**
   * set_time's first `m + 1` writes: the time block, then the first `m` of
   * the pulse on the registers the block leaves.
   */
  lemma SetTimeSent(regs0: Regs, bus0: seq<Transfer>, block: seq<Byte>, m: nat,
                    bus1: seq<Transfer>, regs1: Regs, bus2: seq<Transfer>, regs2: Regs)
    requires |block| == 7 && m <= 3
    requires bus1 == bus0 + [Write(R_SECONDS, block)] && regs1 == Overwrite(regs0, R_SECONDS, block)
    requires bus2 == bus1 + PulseWrites(regs1[R_CFG2])[..m] && regs2 == ApplyWrites(regs1, PulseWrites(regs1[R_CFG2])[..m])
    ensures bus2 == bus0 + SetTimeWrites(block, regs0[R_CFG2])[..m + 1]
    ensures regs2 == ApplyWrites(regs0, SetTimeWrites(block, regs0[R_CFG2])[..m + 1])
  {
    BlockKeepsCfg2(regs0, block);
    var pw := PulseWrites(regs0[R_CFG2])[..m];
    SetTimePrefix(block, regs0[R_CFG2], m);
    Regroup(bus0, Write(R_SECONDS, block), pw);
    ApplyFirst(regs0, Write(R_SECONDS, block), pw);
  }

  /** The first `m + 1` writes of set_time: the time block and the start of the pulse. */
  lemma SetTimePrefix(block: seq<Byte>, cfg2: Byte, m: nat)
    requires |block| == 7 && m <= 3
    ensures SetTimeWrites(block, cfg2)[..m + 1] == [Write(R_SECONDS, block)] + PulseWrites(cfg2)[..m]
  {}

  /** Appending a write and then more writes to the bus log, regrouped. */
  lemma Regroup(bus: seq<Transfer>, w: Transfer, ws: seq<Transfer>)
    ensures bus + [w] + ws == bus + ([w] + ws)
  {}

  /** After the whole pulse CFG2 holds its last byte and nothing else has changed. */
  lemma PulseFinal(regs: Regs)
    ensures PulseState(regs, 3) == regs[R_CFG2 := PulseEnd(regs[R_CFG2])]
  {
    var c := regs[R_CFG2];
    assert PulseState(regs, 1) == regs[R_CFG2 := PulseLow(c)];
    assert PulseState(regs, 2) == regs[R_CFG2 := PulseHigh(c)];
  }

  // ---------------------------------------------------------------------
  // Alarm block codec (set_alarm / get_alarm)
  // ---------------------------------------------------------------------

  /** The mask bits axm1..axm4 and the day/date selector of an alarm; 1 means don't care. */
  datatype AlarmMasks = AlarmMasks(axm1: U1, axm2: U1, axm3: U1, axm4: U1, dyDt: U1)

  /**
   * set_alarm's period switch: alarm 2 has no once-per-second alarm and a
   * period outside the enumeration is refused; otherwise every flag starts
   * at 1 and each period clears a longer prefix, finest field first, with
   * MONTHLY also selecting the date.
   */
  function PeriodMasks(alarmNo: int, period: int): (m: Option<AlarmMasks>)
    ensures m.None? <==> period < EVERYSECOND || period > MONTHLY || (alarmNo == ALARM2 && period == EVERYSECOND)
    ensures m.Some? ==> (m.value.axm1 == 0 <==> period >= EVERYMINUTE)
    ensures m.Some? ==> (m.value.axm2 == 0 <==> period >= HOURLY)
    ensures m.Some? ==> (m.value.axm3 == 0 <==> period >= DAILY)
    ensures m.Some? ==> (m.value.axm4 == 0 <==> period >= WEEKLY)
    ensures m.Some? ==> (m.value.dyDt == 0 <==> period == MONTHLY)
  {
    if alarmNo == ALARM2 && period == EVERYSECOND then None
    else if period == EVERYSECOND then Some(AlarmMasks(1, 1, 1, 1, 1))
    else if period == EVERYMINUTE then Some(AlarmMasks(0, 1, 1, 1, 1))
    else if period == HOURLY then Some(AlarmMasks(0, 0, 1, 1, 1))
    else if period == DAILY then Some(AlarmMasks(0, 0, 0, 1, 1))
    else if period == WEEKLY then Some(AlarmMasks(0, 0, 0, 0, 1))
    else if period == MONTHLY then Some(AlarmMasks(0, 0, 0, 0, 0))
    else None
  }

  /** The 4-byte alarm block `stale` with the period's flags stored into it. */
  function ApplyMasks(stale: seq<Byte>, m: AlarmMasks): (b: seq<Byte>)
    requires |stale| == 4
    ensures |b| == 4
  {
    [Put(stale[0], Axm, m.axm1),
     Put(stale[1], Axm, m.axm2),
     Put(stale[2], Axm, m.axm3),
     Put(Put(stale[3], Axm, m.axm4), DyDt, m.dyDt)]
  }

  /**
   * set_alarm's time values into the flagged block: BCD seconds, minutes
   * and hour, and the date when the selector is 0 or the weekday (not one
   * higher) otherwise.
   */
  function AlarmValues(block: seq<Byte>, t: Tm): (b: seq<Byte>)
    requires |block| == 4
    ensures |b| == 4
  {
    [Store(block[0], Bcd7, Bcd.FromBin(t.sec)),
     Store(block[1], Bcd7, Bcd.FromBin(t.min)),
     Store(block[2], Bcd6, Bcd.FromBin(t.hour)),
     if Get(block[3], DyDt) == 0 then Store(block[3], Bcd6, Bcd.FromBin(t.mday))
     else Store(block[3], Bcd3, Bcd.FromBin(t.wday))]
  }

  /**
   * set_alarm's pure part on the uninitialised block `stale`: -1 for a
   * period the alarm does not support; then the test of the uninitialised
   * return code `staleRet`, which returns it when it is not 0; otherwise
   * the flags and then the time values.
   */
  function EncodeAlarm(alarmNo: int, t: Tm, period: int, stale: seq<Byte>, staleRet: int): (r: Result<seq<Byte>>)
    requires |stale| == 4
    ensures PeriodMasks(alarmNo, period).None? ==> r == Err(-1)
    ensures PeriodMasks(alarmNo, period).Some? && staleRet != 0 ==> r == Err(staleRet)
    ensures r.Ok? <==> PeriodMasks(alarmNo, period).Some? && staleRet == 0
    ensures r.Ok? ==> |r.value| == 4
  {
    match PeriodMasks(alarmNo, period)
    case None => Err(-1)
    case Some(m) => if staleRet != 0 then Err(staleRet) else Ok(AlarmValues(ApplyMasks(stale, m), t))
  }

  /** The first register set_alarm writes: ALM1_SEC for alarm 1, ALM2_MIN otherwise. */
  function AlarmAddress(alarmNo: int): Addr
  {
    if alarmNo == ALARM1 then R_ALM1_SEC else R_ALM2_MIN
  }

  /** The bytes set_alarm writes: the whole block for alarm 1; minutes, hours and day/date otherwise. */
  function AlarmBytes(alarmNo: int, block: seq<Byte>): (w: seq<Byte>)
    requires |block| == 4
    ensures alarmNo == ALARM1 ==> w == block
    ensures alarmNo != ALARM1 ==> w == block[1..]
  {
    if alarmNo == ALARM1 then block else block[1..]
  }

  /** The block get_alarm decodes: the four registers at ALM1_SEC, or a zero seconds byte and the three at ALM2_MIN. */
  function AlarmRead(alarmNo: int, regs: Regs): (block: seq<Byte>)
    ensures |block| == 4
  {
    if alarmNo == ALARM1 then Window(regs, R_ALM1_SEC, 4) else [0] + Window(regs, R_ALM2_MIN, 3)
  }

  /**
   * get_alarm's decoding of the block into the caller's `prior`: seconds,
   * minutes, hour, and the selected one of date and weekday; every other
   * field is kept.
   */
  function AlarmTime(block: seq<Byte>, prior: Tm): Tm
    requires |block| == 4
  {
    var t := prior.(sec := Bcd.ToBin(Get(block[0], Bcd7)), min := Bcd.ToBin(Get(block[1], Bcd7)),
                    hour := Bcd.ToBin(Get(block[2], Bcd6)));
    if Get(block[3], DyDt) == 0 then t.(mday := Bcd.ToBin(Get(block[3], Bcd6)))
    else t.(wday := Bcd.ToBin(Get(block[3], Bcd3)))
  }

  /** The flags of an alarm block. */
  function MasksOf(block: seq<Byte>): AlarmMasks
    requires |block| == 4
  {
    AlarmMasks(Get(block[0], Axm), Get(block[1], Axm), Get(block[2], Axm), Get(block[3], Axm), Get(block[3], DyDt))
  }

  /**
   * get_alarm's period: EVERYSECOND for alarm 1 and EVERYMINUTE otherwise,
   * then overridden by each cleared flag in turn — axm1 (alarm 1 only),
   * axm2, axm3, axm4, dy_dt — so the last cleared flag decides.
   */
  function ChainPeriod(alarmNo: int, m: AlarmMasks): (p: int)
    ensures EVERYSECOND <= p <= MONTHLY
  {
    var p0 := if alarmNo == ALARM1 then EVERYSECOND else EVERYMINUTE;
    var p1 := if alarmNo == ALARM1 && m.axm1 == 0 then EVERYMINUTE else p0;
    var p2 := if m.axm2 == 0 then HOURLY else p1;
    var p3 := if m.axm3 == 0 then DAILY else p2;
    var p4 := if m.axm4 == 0 then WEEKLY else p3;
    if m.dyDt == 0 then MONTHLY else p4
  }

  /** For every period set_alarm accepts, get_alarm's chain over its flags gives that period back. */
  lemma ChainRoundTrip(alarmNo: int, period: int)
    requires alarmNo == ALARM1 || alarmNo == ALARM2
    requires PeriodMasks(alarmNo, period).Some?
    ensures ChainPeriod(alarmNo, PeriodMasks(alarmNo, period).value) == period
  {}

  /** A flag stored at bit 7 or bit 6 reads back as stored. */
  lemma FlagRoundTrip(b: Byte, v: U1)
    ensures Get(Put(b, Axm, v), Axm) == v && Get(Put(b, DyDt, v), DyDt) == v
  {}

  /** The flags ApplyMasks stores read back as stored. */
  lemma MasksApplied(stale: seq<Byte>, m: AlarmMasks)
    requires |stale| == 4
    ensures MasksOf(ApplyMasks(stale, m)) == m
  {
    var b := ApplyMasks(stale, m);
    FlagRoundTrip(stale[0], m.axm1);
    FlagRoundTrip(stale[1], m.axm2);
    FlagRoundTrip(stale[2], m.axm3);
    FlagRoundTrip(stale[3], m.axm4);
    FlagRoundTrip(Put(stale[3], Axm, m.axm4), m.dyDt);
    GetFramed(Put(stale[3], Axm, m.axm4), b[3], 0x40, Axm);
  }

  /**
   * Storing the time values leaves every flag of the block as it was: the
   * date and the weekday both lie below the selector and the mask bit.
   */
  lemma MasksKept(block: seq<Byte>, t: Tm)
    requires |block| == 4
    ensures MasksOf(AlarmValues(block, t)) == MasksOf(block)
  {
    var b := AlarmValues(block, t);
    GetFramed(block[0], b[0], 0x7F, Axm);
    GetFramed(block[1], b[1], 0x7F, Axm);
    GetFramed(block[2], b[2], 0x3F, Axm);
    if Get(block[3], DyDt) == 0 {
      GetFramed(block[3], b[3], 0x3F, Axm);
      GetFramed(block[3], b[3], 0x3F, DyDt);
    } else {
      GetFramed(block[3], b[3], 0x07, Axm);
      GetFramed(block[3], b[3], 0x07, DyDt);
    }
  }

  /** The period set_alarm encodes is the one get_alarm's chain finds in the same block. */
  lemma AlarmPeriodRoundTrip(alarmNo: int, t: Tm, period: int, stale: seq<Byte>)
    requires alarmNo == ALARM1 || alarmNo == ALARM2
    requires |stale| == 4 && EncodeAlarm(alarmNo, t, period, stale, 0).Ok?
    ensures ChainPeriod(alarmNo, MasksOf(EncodeAlarm(alarmNo, t, period, stale, 0).value)) == period
  {
    var m := PeriodMasks(alarmNo, period).value;
    MasksApplied(stale, m);
    MasksKept(ApplyMasks(stale, m), t);
    ChainRoundTrip(alarmNo, period);
  }

  /** Which register of an alarm block holds which field once set_alarm has stored the time values. */
  lemma AlarmLayout(block: seq<Byte>, t: Tm)
    requires |block| == 4
    ensures var b := AlarmValues(block, t);
            b[0] == Store(block[0], Bcd7, Bcd.FromBin(t.sec)) &&
            b[1] == Store(block[1], Bcd7, Bcd.FromBin(t.min)) &&
            b[2] == Store(block[2], Bcd6, Bcd.FromBin(t.hour)) &&
            (Get(block[3], DyDt) == 0 ==> b[3] == Store(block[3], Bcd6, Bcd.FromBin(t.mday))) &&
            (Get(block[3], DyDt) != 0 ==> b[3] == Store(block[3], Bcd3, Bcd.FromBin(t.wday)))
  {
  }

  /**
   * Decoding the block set_alarm encodes gives back the seconds, minutes,
   * hour and, for a monthly alarm the date, for any other the weekday; the
   * rest of the caller's record is kept.
   */
  lemma AlarmTimeRoundTrip(alarmNo: int, t: Tm, period: int, stale: seq<Byte>, prior: Tm)
    requires |stale| == 4 && InRange(t) && EncodeAlarm(alarmNo, t, period, stale, 0).Ok?
    ensures var day := if period == MONTHLY then prior.(mday := t.mday) else prior.(wday := t.wday);
            AlarmTime(EncodeAlarm(alarmNo, t, period, stale, 0).value, prior) ==
              day.(sec := t.sec, min := t.min, hour := t.hour)
  {
    var m := PeriodMasks(alarmNo, period).value;
    var a := ApplyMasks(stale, m);
    MasksApplied(stale, m);
    MasksKept(a, t);
    AlarmLayout(a, t);
    var b := AlarmValues(a, t);
    Bcd.ReadsBack(b, 0, a[0], Bcd7, t.sec);
    Bcd.ReadsBack(b, 1, a[1], Bcd7, t.min);
    Bcd.ReadsBack(b, 2, a[2], Bcd6, t.hour);
    if Get(a[3], DyDt) == 0 {
      Bcd.ReadsBack(b, 3, a[3], Bcd6, t.mday);
    } else {
      Bcd.ReadsBack(b, 3, a[3], Bcd3, t.wday);
    }
  }

  /**
   * Through the registers: after set_alarm's write, get_alarm reads a block
   * with the same flags, minutes, hour and day/date; alarm 1 also keeps its
   * seconds, alarm 2 reads them as 0.
   */
  lemma AlarmRegistersRoundTrip(regs: Regs, alarmNo: int, block: seq<Byte>)
    requires |block| == 4
    ensures var r := AlarmRead(alarmNo, Overwrite(regs, AlarmAddress(alarmNo), AlarmBytes(alarmNo, block)));
            r == if alarmNo == ALARM1 then block else [0] + block[1..]
  {}

  /** Alarm 2's period and time do not depend on the seconds byte that is not stored for it. */
  lemma Alarm2IgnoresSeconds(block: seq<Byte>, prior: Tm)
    requires |block| == 4
    ensures ChainPeriod(ALARM2, MasksOf([0] + block[1..])) == ChainPeriod(ALARM2, MasksOf(block))
    ensures AlarmTime([0] + block[1..], prior) == AlarmTime(block, prior).(sec := 0)
  {
    assert ([0] + block[1..])[1..] == block[1..];
  }

  /**
   * A flag of INT_EN as get_alarm reports it: it tests bit
   * `1 << INTR_ID_ALARM1` for alarm 1 and `1 << INTR_ID_ALARM2` otherwise,
   * using the interrupt ids, which are already bit masks, as bit numbers.
   */
  predicate IsEnabled(intEn: Byte, alarmNo: int)
  {
    if alarmNo == ALARM1 then intEn & (1 << INTR_ID_ALARM1) != 0 else intEn & (1 << INTR_ID_ALARM2) != 0
  }

  /**
   * get_alarm's enable flag is INT_EN bit 1 (A2IE) for alarm 1 and bit 2
   * (TIE) for alarm 2, not A1IE and A2IE.
   */
  lemma IsEnabledBits(intEn: Byte)
    ensures IsEnabled(intEn, ALARM1) <==> Get(intEn, A2if) == 1
    ensures IsEnabled(intEn, ALARM2) <==> Get(intEn, Tif) == 1
  {}

  /** Enabling only alarm 1's interrupt leaves get_alarm reporting alarm 1 as disabled. */
  lemma EnabledAlarmReportedDisabled()
    ensures IrqEnableByte(0, INTR_ID_ALARM1) == 0x01 && !IsEnabled(IrqEnableByte(0, INTR_ID_ALARM1), ALARM1)
  {}

  // ---------------------------------------------------------------------
  // One-register updates
  // ---------------------------------------------------------------------

  /** The INT_EN bits irq_enable and irq_disable act on: the six enables for INTR_ID_ALL, else the id as a mask. */
  function IrqMask(id: int): (m: Byte)
    ensures id == INTR_ID_ALL ==> m == ALL_IRQ
    ensures id != INTR_ID_ALL ==> m as int == id % 256
  {
    if id == INTR_ID_ALL then ALL_IRQ else U8(id)
  }

  /** irq_enable's INT_EN update: the id's enables are set, no other bit changes. */
  function IrqEnableByte(intEn: Byte, id: int): (r: Byte)
    ensures r & IrqMask(id) == IrqMask(id) && r & !IrqMask(id) == intEn & !IrqMask(id)
  {
    intEn | IrqMask(id)
  }

  /** irq_disable's INT_EN update: the id's enables are cleared, no other bit changes. */
  function IrqDisableByte(intEn: Byte, id: int): (r: Byte)
    ensures r & IrqMask(id) == 0 && r & !IrqMask(id) == intEn & !IrqMask(id)
  {
    intEn & !IrqMask(id)
  }

  /** set_power_mgmt_mode's PWR_MGMT update: D_MODE takes the mode, nothing else changes. */
  function PowerModeByte(reg: Byte, mode: int): (r: Byte)
    ensures Get(r, DMode) == U8(mode) & 3 && r & !0x03 == reg & !0x03
  {
    Store(reg, DMode, mode)
  }

  /**
   * comparator_threshold_level's CFG2 byte: the read value is masked with
   * BREF itself rather than its complement, so every bit outside BREF is
   * cleared and the old BREF bits stay set under the new threshold's.
   */
  function ComparatorByte(cfg2: Byte, th: int): (r: Byte)
    ensures r & !0x30 == 0
    ensures Get(r, Bref) == Get(cfg2, Bref) | (U8(th) & 3)
  {
    (cfg2 & 0x30) | SetBitVal(U8(th), Bref)
  }

  /** A threshold below the one set leaves the set BREF bits in place: 2.2 V stays after asking for 1.3 V. */
  lemma ComparatorCannotLower()
    ensures Get(ComparatorByte(0x30, 0), Bref) == 3
    ensures ComparatorByte(0xFF, 1) == 0x30
  {}

  /**
   * supply_select's PWR_MGMT update: manual selection of VCC or of AIN;
   * any other value returns to automatic selection and leaves the
   * backup-supply bit as it was.
   */
  function SupplyByte(reg: Byte, supply: int): (r: Byte)
    ensures r & !0x0C == reg & !0x0C
    ensures supply == POW_MGMT_SUPPLY_SEL_VCC ==> Get(r, DmanSel) == 1 && Get(r, DVbackSel) == 0
    ensures supply == POW_MGMT_SUPPLY_SEL_AIN ==> Get(r, DmanSel) == 1 && Get(r, DVbackSel) == 1
    ensures supply != POW_MGMT_SUPPLY_SEL_VCC && supply != POW_MGMT_SUPPLY_SEL_AIN ==>
              Get(r, DmanSel) == 0 && Get(r, DVbackSel) == Get(reg, DVbackSel)
  {
    if supply == POW_MGMT_SUPPLY_SEL_VCC then (reg | 0x04) & !0x08
    else if supply == POW_MGMT_SUPPLY_SEL_AIN then reg | 0x04 | 0x08
    else reg & !0x04
  }

  /** trickle_charger_enable's TRICKLE byte, written without reading: the resistor code in D_TRICKLE, all else 0. */
  function TrickleByte(res: int): (r: Byte)
    ensures r & !0x0F == 0 && Get(r, DTrickle) == U8(res) & 0x0F
    ensures res in TrickleCodes ==> r as int == res
  {
    SetBitVal(U8(res), DTrickle)
  }

  /** set_square_wave_frequency's CFG1 update: RS takes the frequency, nothing else changes. */
  function SquareWaveByte(cfg1: Byte, freq: int): (r: Byte)
    ensures Get(r, Rs) == U8(freq) & 3 && r & !0x06 == cfg1 & !0x06
  {
    Store(cfg1, Rs, freq)
  }

  /** set_clock_sync_delay's CLOCK_SYNC update: SYNC_DELAY takes the delay, nothing else changes. */
  function SyncDelayByte(reg: Byte, delay: int): (r: Byte)
    ensures Get(r, SyncDelay) == U8(delay) & 3 && r & !0x03 == reg & !0x03
  {
    Store(reg, SyncDelay, delay)
  }

  /** set_clkin_frequency's CFG1 update: CLKSEL takes the frequency, nothing else changes. */
  function ClkinByte(cfg1: Byte, freq: int): (r: Byte)
    ensures Get(r, Clksel) == U8(freq) & 3 && r & !0x30 == cfg1 & !0x30
  {
    Store(cfg1, Clksel, freq)
  }

  /** The sync delay set_clkin_frequency picks: under 1 s for a 1 Hz clock, under 100 ms for any other. */
  function ClkinSyncDelay(freq: int): (d: int)
    ensures freq == CLKIN_FREQ_1HZ <==> d == SYNC_DLY_LESS_THAN_1SEC
    ensures freq != CLKIN_FREQ_1HZ <==> d == SYNC_DLY_LESS_THAN_100MS
  {
    if freq == CLKIN_FREQ_1HZ then SYNC_DLY_LESS_THAN_1SEC else SYNC_DLY_LESS_THAN_100MS
  }

  /** The sync delay configure_inta_clkin_pin picks: under 1 s for the clock input, under 10 ms otherwise. */
  function PinSyncDelay(sel: int): (d: int)
    ensures sel == CONFIGURE_PIN_AS_CLKIN <==> d == SYNC_DLY_LESS_THAN_1SEC
    ensures sel != CONFIGURE_PIN_AS_CLKIN <==> d == SYNC_DLY_LESS_THAN_10MS
  {
    if sel == CONFIGURE_PIN_AS_CLKIN then SYNC_DLY_LESS_THAN_1SEC else SYNC_DLY_LESS_THAN_10MS
  }

  /**
   * timer_init's TIMER_CFG update: the timer disabled (TE 0) and paused
   * (TPAUSE 1), TRPT from `repeat`, TFS from `freq`; bits 3, 6 and 7 kept.
   */
  function TimerInitByte(cfg: Byte, repeat: bool, freq: int): (r: Byte)
    ensures Get(r, Te) == 0 && Get(r, Tpause) == 1 && Get(r, Trpt) == (if repeat then 1 else 0)
    ensures Get(r, Tfs) == U8(freq) & 3 && r & 0xC8 == cfg & 0xC8
  {
    var c := (cfg & !0x10) | 0x20;
    var c2 := if repeat then c | 0x04 else c & !0x04;
    Store(c2, Tfs, freq)
  }

  /**
   * timer_start, timer_pause, timer_continue and timer_stop: TE and TPAUSE
   * take the given values, every other TIMER_CFG bit is kept.
   */
  function TimerControlByte(cfg: Byte, te: bool, pause: bool): (r: Byte)
    ensures Get(r, Te) == (if te then 1 else 0) && Get(r, Tpause) == (if pause then 1 else 0)
    ensures r & !0x30 == cfg & !0x30
  {
    var c := if te then cfg | 0x10 else cfg & !0x10;
    if pause then c | 0x20 else c & !0x20
  }

  /**
   * set_data_retention_mode's CFG1 and CFG2: data retention on stops the
   * oscillator (OSCONZ set) and sets DATA_RETEN, off clears both; no other
   * bit changes.
   */
  function DataRetentionBytes(cfg1: Byte, cfg2: Byte, enable: bool): (r: seq<Byte>)
    ensures |r| == 2
    ensures Get(r[0], Osconz) == Get(r[1], DataReten) == (if enable then 1 else 0)
    ensures r[0] & !0x08 == cfg1 & !0x08 && r[1] & !0x40 == cfg2 & !0x40
  {
    if enable then [cfg1 | 0x08, cfg2 | 0x40] else [cfg1 & !0x08, cfg2 & !0x40]
  }

  // ---------------------------------------------------------------------
  // NVRAM
  // ---------------------------------------------------------------------

  /**
   * The register nvram_write and nvram_read start at, `RAM_START + offset`
   * passed as a `uint8_t`; a negative offset is not refused and reaches
   * below the NVRAM.
   */
  function NvramAddress(offset: int): (a: Addr)
    ensures 0 <= offset < NVRAM_SIZE ==> a == R_RAM_START + offset
  {
    U8(R_RAM_START + offset) as int
  }

  /** The length nvram_write and nvram_read pass on as a `uint8_t`. */
  function NvramLength(length: nat): (n: nat)
    ensures n <= 255 && (length <= 255 ==> n == length)
  {
    length % 256
  }

  /** Whether an NVRAM access of `length` bytes at `offset` stays inside the NVRAM, as the driver checks it. */
  predicate NvramFits(offset: int, length: nat)
  {
    offset + length <= NVRAM_SIZE
  }

  /** An access that passes the driver's check and starts inside the NVRAM stays inside it. */
  lemma NvramInside(offset: int, length: nat, i: nat)
    requires NvramFits(offset, length) && 0 <= offset && i < length
    ensures R_RAM_START <= At(NvramAddress(offset), i) <= R_RAM_END
  {}

  // ---------------------------------------------------------------------
  // The device
  // ---------------------------------------------------------------------

  /** The one-register updates the driver's setters apply between their read and their write. */
  datatype Op =
    | PowerMode(mode: int) | Comparator(th: int) | Supply(supply: int) | SquareWave(freq: int)
    | SyncDelayOp(delay: int) | Clkin(clkinFreq: int) | TimerSetup(repeat: bool, timerFreq: int)
    | TimerRun(te: bool, pause: bool) | IrqOn(onId: int) | IrqOff(offId: int)
    | SetBits(setMask: Byte) | ClearBits(clearMask: Byte)

  /** The register value an update gives. */
  function Apply(op: Op, b: Byte): Byte
  {
    match op
    case PowerMode(mode) => PowerModeByte(b, mode)
    case Comparator(th) => ComparatorByte(b, th)
    case Supply(supply) => SupplyByte(b, supply)
    case SquareWave(freq) => SquareWaveByte(b, freq)
    case SyncDelayOp(delay) => SyncDelayByte(b, delay)
    case Clkin(freq) => ClkinByte(b, freq)
    case TimerSetup(repeat, freq) => TimerInitByte(b, repeat, freq)
    case TimerRun(te, pause) => TimerControlByte(b, te, pause)
    case IrqOn(id) => IrqEnableByte(b, id)
    case IrqOff(id) => IrqDisableByte(b, id)
    case SetBits(m) => b | m
    case ClearBits(m) => b & !m
  }

  /** A MAX31341 on its I2C bus, as the driver object sees it. */
  class Rtc {
    /** The chip's register space. */
    var regs: Regs
    /** The writes the driver has completed, oldest first. */
    var bus: seq<Transfer>

    constructor (init: Regs)
      ensures regs == init && bus == []
    {
      regs := init;
      bus := [];
    }

    /**
     * read_register: a burst read that either returns the registers or fails
     * with -1 (a NACK, or fewer bytes than requested).
     */
    method ReadRegister(addr: Addr, len: nat) returns (ret: int, data: seq<Byte>)
      requires len <= 255
      ensures ret == 0 || ret == ERR_READ
      ensures ret == 0 ==> data == Window(regs, addr, len)
    {
      if * {
        ret, data := ERR_READ, [];
      } else {
        ret, data := 0, Window(regs, addr, len);
      }
    }

    /**
     * write_register: a burst write that either stores all bytes or fails
     * with the bus status code 1..4 and stores nothing.
     */
    method WriteRegister(addr: Addr, data: seq<Byte>) returns (ret: int)
      requires |data| <= 255
      modifies this
      ensures ret == 0 ==> regs == Overwrite(old(regs), addr, data) && bus == old(bus) + [Write(addr, data)]
      ensures ret != 0 ==> 1 <= ret <= 4 && regs == old(regs) && bus == old(bus)
    {
      if * {
        var code: int :| 1 <= code <= 4;
        ret := code;
      } else {
        regs := Overwrite(regs, addr, data);
        bus := bus + [Write(addr, data)];
        ret := 0;
      }
    }

    method ReadOne(addr: Addr) returns (ret: int, b: Byte)
      ensures ret == 0 || ret == ERR_READ
      ensures ret == 0 ==> b == regs[addr]
    {
      var data;
      ret, data := ReadRegister(addr, 1);
      b := if ret == 0 then data[0] else 0;
    }

    method WriteOne(addr: Addr, b: Byte) returns (ret: int)
      modifies this
      ensures ret == 0 ==> regs == old(regs)[addr := b] && bus == old(bus) + [Write(addr, [b])]
      ensures ret != 0 ==> 1 <= ret <= 4 && regs == old(regs) && bus == old(bus)
    {
      ret := WriteRegister(addr, [b]);
      OverwriteOne(old(regs), addr, b);
    }

    /**
     * The read-modify-write every setter does: read one register, return
     * -1 with no write if that fails, else write back its updated value.
     */
    method Update(addr: Addr, op: Op) returns (ret: int)
      modifies this
      ensures ret == 0 ==> regs == old(regs)[addr := Apply(op, old(regs)[addr])] &&
                           bus == old(bus) + [Write(addr, [Apply(op, old(regs)[addr])])]
      ensures ret != 0 ==> (ret == ERR_READ || 1 <= ret <= 4) && regs == old(regs) && bus == old(bus)
    {
      var b;
      ret, b := ReadOne(addr);
      if ret != 0 {
        return;
      }
      ret := WriteOne(addr, Apply(op, b));
    }

    /** get_version: REVID of REV_ID, taken even from the uninitialised byte `stale` when the read fails. */
    method GetVersion(stale: Byte) returns (ret: int, version: Byte)
      ensures ret == 0 || ret == ERR_READ
      ensures ret == 0 ==> version == Get(regs[R_REV_ID], RevId)
      ensures ret != 0 ==> version == Get(stale, RevId)
    {
      var b;
      ret, b := ReadOne(R_REV_ID);
      version := Get(if ret == 0 then b else stale, RevId);
    }

    /** get_status: `prior` is the caller's record, left as it was when the read fails. */
    method GetStatus(prior: Status) returns (ret: int, stat: Status)
      ensures ret == 0 || ret == ERR_READ
      ensures ret == 0 ==> stat == DecodeStatus(regs[R_INT_STATUS])
      ensures ret != 0 ==> stat == prior
    {
      var b;
      ret, b := ReadOne(R_INT_STATUS);
      stat := if ret == 0 then DecodeStatus(b) else prior;
    }

    /** get_configuration: reads CFG1 and CFG2 together. */
    method GetConfiguration(prior: Config) returns (ret: int, cfg: Config)
      ensures ret == 0 || ret == ERR_READ
      ensures ret == 0 ==> cfg == DecodeConfig(regs[R_CFG1], regs[R_CFG2])
      ensures ret != 0 ==> cfg == prior
    {
      var data;
      ret, data := ReadRegister(R_CFG1, 2);
      if ret != 0 {
        return ret, prior;
      }
      cfg := DecodeConfig(data[0], data[1]);
    }

    /** set_configuration: writes the encoded CFG1 and CFG2 together. */
    method SetConfiguration(cfg: Config) returns (ret: int)
      modifies this
      ensures ret == 0 ==> regs == Overwrite(old(regs), R_CFG1, EncodeConfig(cfg)) &&
                           bus == old(bus) + [Write(R_CFG1, EncodeConfig(cfg))]
      ensures ret != 0 ==> 1 <= ret <= 4 && regs == old(regs) && bus == old(bus)
    {
      ret := WriteRegister(R_CFG1, EncodeConfig(cfg));
    }

    /** get_time: a failed read returns -1 and leaves the caller's `prior` as it was. */
    method GetTime(prior: Tm) returns (ret: int, t: Tm)
      ensures ret == 0 || ret == ERR_READ
      ensures ret == 0 ==> t == DecodeTime(Window(regs, R_SECONDS, 7))
      ensures ret != 0 ==> t == prior
    {
      var data;
      ret, data := ReadRegister(R_SECONDS, 7);
      if ret != 0 {
        return ret, prior;
      }
      t := DecodeTime(data);
    }

    /**
     * set_time: refuses years before 2000 with -1 and no transfer; otherwise
     * writes the encoded block at SECONDS, reads CFG2 once, and writes it
     * back with SET_RTC cleared, set and cleared. The first failing step
     * returns its code and nothing after it happens, so the writes made are
     * always a prefix of the full sequence and the registers hold exactly
     * their effect. `stale` is the initial content of the local block.
     */
    method SetTime(t: Tm, stale: seq<Byte>) returns (ret: int)
      requires |stale| == 7
      modifies this
      ensures EncodeTime(t, stale).Err? ==> ret == -1 && regs == old(regs) && bus == old(bus)
      ensures EncodeTime(t, stale).Ok? ==>
                var block := EncodeTime(t, stale).value;
                var n := |bus| - |old(bus)|;
                0 <= n <= 4 && bus == old(bus) + SetTimeWrites(block, old(regs)[R_CFG2])[..n] &&
                regs == ApplyWrites(old(regs), SetTimeWrites(block, old(regs)[R_CFG2])[..n]) && (ret == 0 <==> n == 4)
      ensures ret != 0 ==> ret == -1 || 1 <= ret <= 4
    {
      var enc := EncodeTime(t, stale);
      if enc.Err? {
        return enc.code;
      }
      ghost var n;
      ret, n := LoadTime(enc.value);
    }

    /** The bus traffic of set_time once the time block is encoded: the block, then the pulse. */
    method LoadTime(block: seq<Byte>) returns (ret: int, ghost n: nat)
      requires |block| == 7
      modifies this
      ensures n <= 4 && bus == old(bus) + SetTimeWrites(block, old(regs)[R_CFG2])[..n]
      ensures regs == ApplyWrites(old(regs), SetTimeWrites(block, old(regs)[R_CFG2])[..n])
      ensures ret == 0 <==> n == 4
      ensures ret != 0 ==> ret == ERR_READ || 1 <= ret <= 4
    {
      ghost var ws := SetTimeWrites(block, regs[R_CFG2]);
      n := 0;
      assert ws[..0] == [];
      ret := WriteRegister(R_SECONDS, block);
      if ret != 0 {
        return;
      }
      ghost var bus1, regs1 := bus, regs;
      ghost var m;
      ret, m := PulseSetRtc();
      SetTimeSent(old(regs), old(bus), block, m, bus1, regs1, bus, regs);
      n := m + 1;
    }

    /**
     * The SET_RTC pulse of set_time: one read of CFG2, then its three
     * writes; the first failing step returns its code and ends the pulse
     * after `m` writes.
     */
    method PulseSetRtc() returns (ret: int, ghost m: nat)
      modifies this
      ensures m <= 3 && bus == old(bus) + PulseWrites(old(regs)[R_CFG2])[..m]
      ensures regs == ApplyWrites(old(regs), PulseWrites(old(regs)[R_CFG2])[..m])
      ensures ret == 0 <==> m == 3
      ensures ret != 0 ==> ret == ERR_READ || 1 <= ret <= 4
    {
      ghost var ws := PulseWrites(regs[R_CFG2]);
      m := 0;
      assert ws[..0] == [];
      var v;
      ret, v := ReadOne(R_CFG2);
      if ret != 0 {
        return;
      }
      v := ClearSetRtc(v);
      ret := WriteNext(old(regs), old(bus), ws, 0, R_CFG2, [v]);
      if ret != 0 {
        return;
      }
      m := 1;
      v := RaiseSetRtc(v);
      ret := WriteNext(old(regs), old(bus), ws, 1, R_CFG2, [v]);
      if ret != 0 {
        return;
      }
      m := 2;
      v := ClearSetRtc(v);
      ret := WriteNext(old(regs), old(bus), ws, 2, R_CFG2, [v]);
      if ret != 0 {
        return;
      }
      m := 3;
    }

    /**
     * Write `k` of a planned sequence `ws`, once the `k` before it went out
     * since the bus and registers were `bus0` and `regs0`.
     */
    method WriteNext(ghost regs0: Regs, ghost bus0: seq<Transfer>, ghost ws: seq<Transfer>, ghost k: nat,
                     addr: Addr, data: seq<Byte>) returns (ret: int)
      requires Sendable(ws) && k < |ws| && ws[k] == Write(addr, data) && |data| <= 255
      requires bus == bus0 + ws[..k] && regs == ApplyWrites(regs0, ws[..k])
      modifies this
      ensures ret == 0 ==> bus == bus0 + ws[..k + 1] && regs == ApplyWrites(regs0, ws[..k + 1])
      ensures ret != 0 ==> 1 <= ret <= 4 && bus == old(bus) && regs == old(regs)
    {
      ret := WriteRegister(addr, data);
      ApplyNext(regs0, ws, k);
      assert ws[..k + 1] == ws[..k] + [ws[k]];
    }

    /**
     * set_alarm: refuses an unsupported period with -1 and no transfer;
     * then returns the uninitialised `staleRet` when it is not 0; otherwise
     * writes the encoded block, for alarm 2 only its minutes, hours and
     * day/date bytes.
     */
    method SetAlarm(alarmNo: int, t: Tm, period: int, stale: seq<Byte>, staleRet: int) returns (ret: int)
      requires |stale| == 4
      modifies this
      ensures EncodeAlarm(alarmNo, t, period, stale, staleRet).Err? ==>
                ret == EncodeAlarm(alarmNo, t, period, stale, staleRet).code && regs == old(regs) && bus == old(bus)
      ensures EncodeAlarm(alarmNo, t, period, stale, staleRet).Ok? && ret == 0 ==>
                var w := AlarmBytes(alarmNo, EncodeAlarm(alarmNo, t, period, stale, staleRet).value);
                regs == Overwrite(old(regs), AlarmAddress(alarmNo), w) && bus == old(bus) + [Write(AlarmAddress(alarmNo), w)]
      ensures EncodeAlarm(alarmNo, t, period, stale, staleRet).Ok? && ret != 0 ==>
                1 <= ret <= 4 && regs == old(regs) && bus == old(bus)
    {
      var enc := EncodeAlarm(alarmNo, t, period, stale, staleRet);
      if enc.Err? {
        return enc.code;
      }
      ret := WriteRegister(AlarmAddress(alarmNo), AlarmBytes(alarmNo, enc.value));
    }

    /**
     * get_alarm: decodes the alarm time into the caller's `prior` and the
     * period, then reads whether the alarm is enabled. A failed first read
     * leaves all three outputs as they were; a failed INT_EN read leaves
     * only the enable flag.
     */
    method GetAlarm(alarmNo: int, prior: Tm, priorPeriod: int, priorEnabled: bool)
      returns (ret: int, t: Tm, period: int, enabled: bool)
      ensures ret == 0 || ret == ERR_READ
      ensures ret == 0 ==> t == AlarmTime(AlarmRead(alarmNo, regs), prior) &&
                           period == ChainPeriod(alarmNo, MasksOf(AlarmRead(alarmNo, regs))) &&
                           enabled == IsEnabled(regs[R_INT_EN], alarmNo)
      ensures ret != 0 ==> enabled == priorEnabled &&
                           ((t, period) == (prior, priorPeriod) ||
                            (t, period) == (AlarmTime(AlarmRead(alarmNo, regs), prior),
                                            ChainPeriod(alarmNo, MasksOf(AlarmRead(alarmNo, regs)))))
    {
      var data;
      if alarmNo == ALARM1 {
        ret, data := ReadRegister(R_ALM1_SEC, 4);
      } else {
        ret, data := ReadRegister(R_ALM2_MIN, 3);
        data := [0] + data;
      }
      if ret != 0 {
        return ret, prior, priorPeriod, priorEnabled;
      }
      t := AlarmTime(data, prior);
      period := ChainPeriod(alarmNo, MasksOf(data));
      var intEn;
      ret, intEn := ReadOne(R_INT_EN);
      if ret != 0 {
        return ret, t, period, priorEnabled;
      }
      enabled := IsEnabled(intEn, alarmNo);
    }

    /** set_power_mgmt_mode: read-modify-write of PWR_MGMT. */
    method SetPowerMgmtMode(mode: int) returns (ret: int)
      modifies this
      ensures ret == 0 ==> regs == old(regs)[R_PWR_MGMT := PowerModeByte(old(regs)[R_PWR_MGMT], mode)]
      ensures ret != 0 ==> (ret == ERR_READ || 1 <= ret <= 4) && regs == old(regs)
    {
      ret := Update(R_PWR_MGMT, PowerMode(mode));
    }

    /** comparator_threshold_level: read-modify-write of CFG2. */
    method ComparatorThresholdLevel(th: int) returns (ret: int)
      modifies this
      ensures ret == 0 ==> regs == old(regs)[R_CFG2 := ComparatorByte(old(regs)[R_CFG2], th)]
      ensures ret != 0 ==> (ret == ERR_READ || 1 <= ret <= 4) && regs == old(regs)
    {
      ret := Update(R_CFG2, Comparator(th));
    }

    /** supply_select: read-modify-write of PWR_MGMT. */
    method SupplySelect(supply: int) returns (ret: int)
      modifies this
      ensures ret == 0 ==> regs == old(regs)[R_PWR_MGMT := SupplyByte(old(regs)[R_PWR_MGMT], supply)]
      ensures ret != 0 ==> (ret == ERR_READ || 1 <= ret <= 4) && regs == old(regs)
    {
      ret := Update(R_PWR_MGMT, Supply(supply));
    }

    /** trickle_charger_enable (`enable` true) writes the resistor code; trickle_charger_disable writes 0. */
    method TrickleCharger(enable: bool, res: int) returns (ret: int)
      modifies this
      ensures ret == 0 ==> regs == old(regs)[R_TRICKLE := if enable then TrickleByte(res) else 0]
      ensures ret != 0 ==> 1 <= ret <= 4 && regs == old(regs)
    {
      ret := WriteOne(R_TRICKLE, if enable then TrickleByte(res) else 0);
    }

    /** set_square_wave_frequency: read-modify-write of CFG1. */
    method SetSquareWaveFrequency(freq: int) returns (ret: int)
      modifies this
      ensures ret == 0 ==> regs == old(regs)[R_CFG1 := SquareWaveByte(old(regs)[R_CFG1], freq)]
      ensures ret != 0 ==> (ret == ERR_READ || 1 <= ret <= 4) && regs == old(regs)
    {
      ret := Update(R_CFG1, SquareWave(freq));
    }

    /** set_clock_sync_delay: read-modify-write of CLOCK_SYNC. */
    method SetClockSyncDelay(delay: int) returns (ret: int)
      modifies this
      ensures ret == 0 ==> regs == old(regs)[R_CLOCK_SYNC := SyncDelayByte(old(regs)[R_CLOCK_SYNC], delay)]
      ensures ret != 0 ==> (ret == ERR_READ || 1 <= ret <= 4) && regs == old(regs)
    {
      ret := Update(R_CLOCK_SYNC, SyncDelayOp(delay));
    }

    /**
     * set_clkin_frequency: CLKSEL in CFG1, and only if that succeeds the
     * sync delay the frequency calls for.
     */
    method SetClkinFrequency(freq: int) returns (ret: int)
      modifies this
      ensures ret == 0 ==> regs == old(regs)[R_CFG1 := ClkinByte(old(regs)[R_CFG1], freq)]
                                            [R_CLOCK_SYNC := SyncDelayByte(old(regs)[R_CLOCK_SYNC], ClkinSyncDelay(freq))]
      ensures ret != 0 ==> (ret == ERR_READ || 1 <= ret <= 4) &&
                           (regs == old(regs) || regs == old(regs)[R_CFG1 := ClkinByte(old(regs)[R_CFG1], freq)])
    {
      ret := Update(R_CFG1, Clkin(freq));
      if ret != 0 {
        return;
      }
      ret := SetClockSyncDelay(ClkinSyncDelay(freq));
    }

    /** configure_intb_clkout_pin: INTCN set for the interrupt output, cleared for the square wave. */
    method ConfigureIntbClkoutPin(sel: int) returns (ret: int)
      modifies this
      ensures ret == 0 ==> regs == old(regs)[R_CFG1 := if sel == CONFIGURE_PIN_AS_INTB then old(regs)[R_CFG1] | 0x40
                                                        else old(regs)[R_CFG1] & !0x40]
      ensures ret != 0 ==> (ret == ERR_READ || 1 <= ret <= 4) && regs == old(regs)
    {
      ret := Update(R_CFG1, if sel == CONFIGURE_PIN_AS_INTB then SetBits(0x40) else ClearBits(0x40));
    }

    /**
     * configure_inta_clkin_pin: ECLK set for the clock input, cleared for
     * the interrupt output, and only if that succeeds the matching sync delay.
     */
    method ConfigureIntaClkinPin(sel: int) returns (ret: int)
      modifies this
      ensures var cfg1 := if sel == CONFIGURE_PIN_AS_CLKIN then old(regs)[R_CFG1] | 0x80 else old(regs)[R_CFG1] & !0x80;
              (ret == 0 ==> regs == old(regs)[R_CFG1 := cfg1]
                                             [R_CLOCK_SYNC := SyncDelayByte(old(regs)[R_CLOCK_SYNC], PinSyncDelay(sel))]) &&
              (ret != 0 ==> (ret == ERR_READ || 1 <= ret <= 4) && (regs == old(regs) || regs == old(regs)[R_CFG1 := cfg1]))
    {
      ret := Update(R_CFG1, if sel == CONFIGURE_PIN_AS_CLKIN then SetBits(0x80) else ClearBits(0x80));
      if ret != 0 {
        return;
      }
      ret := SetClockSyncDelay(PinSyncDelay(sel));
    }

    /**
     * timer_init: TIMER_CFG updated first; only if that write succeeds is
     * the initial value written to TIMER_INIT.
     */
    method TimerInit(initial: Byte, repeat: bool, freq: int) returns (ret: int)
      modifies this
      ensures ret == 0 ==> regs == old(regs)[R_TIMER_CFG := TimerInitByte(old(regs)[R_TIMER_CFG], repeat, freq)]
                                            [R_TIMER_INIT := initial]
      ensures ret != 0 ==> (ret == ERR_READ || 1 <= ret <= 4) &&
                           (regs == old(regs) ||
                            regs == old(regs)[R_TIMER_CFG := TimerInitByte(old(regs)[R_TIMER_CFG], repeat, freq)])
    {
      ret := Update(R_TIMER_CFG, TimerSetup(repeat, freq));
      if ret != 0 {
        return;
      }
      ret := WriteOne(R_TIMER_INIT, initial);
    }

    /** timer_get: the TIMER_COUNT register; `prior` is left as it was when the read fails. */
    method TimerGet(prior: Byte) returns (ret: int, count: Byte)
      ensures ret == 0 || ret == ERR_READ
      ensures ret == 0 ==> count == regs[R_TIMER_COUNT]
      ensures ret != 0 ==> count == prior
    {
      var b;
      ret, b := ReadOne(R_TIMER_COUNT);
      count := if ret == 0 then b else prior;
    }

    /**
     * timer_start and timer_continue (TE 1, TPAUSE 0), timer_pause (1, 1)
     * and timer_stop (0, 1): read-modify-write of TIMER_CFG.
     */
    method TimerControl(te: bool, pause: bool) returns (ret: int)
      modifies this
      ensures ret == 0 ==> regs == old(regs)[R_TIMER_CFG := TimerControlByte(old(regs)[R_TIMER_CFG], te, pause)]
      ensures ret != 0 ==> (ret == ERR_READ || 1 <= ret <= 4) && regs == old(regs)
    {
      ret := Update(R_TIMER_CFG, TimerRun(te, pause));
    }

    /**
     * set_data_retention_mode: CFG1 and CFG2 read and written together;
     * data retention on stops the oscillator (OSCONZ set) and sets
     * DATA_RETEN, off clears both.
     */
    method SetDataRetentionMode(enable: bool) returns (ret: int)
      modifies this
      ensures ret == 0 ==> regs == Overwrite(old(regs), R_CFG1, DataRetentionBytes(old(regs)[R_CFG1], old(regs)[R_CFG2], enable))
      ensures ret != 0 ==> (ret == ERR_READ || 1 <= ret <= 4) && regs == old(regs)
    {
      var data;
      ret, data := ReadRegister(R_CFG1, 2);
      if ret != 0 {
        return;
      }
      assert data[0] == regs[R_CFG1] && data[1] == regs[R_CFG2];
      ret := WriteRegister(R_CFG1, DataRetentionBytes(data[0], data[1], enable));
    }

    /** irq_enable: read-modify-write of INT_EN. */
    method IrqEnable(id: int) returns (ret: int)
      modifies this
      ensures ret == 0 ==> regs == old(regs)[R_INT_EN := IrqEnableByte(old(regs)[R_INT_EN], id)]
      ensures ret != 0 ==> (ret == ERR_READ || 1 <= ret <= 4) && regs == old(regs)
    {
      ret := Update(R_INT_EN, IrqOn(id));
    }

    /** irq_disable: read-modify-write of INT_EN. */
    method IrqDisable(id: int) returns (ret: int)
      modifies this
      ensures ret == 0 ==> regs == old(regs)[R_INT_EN := IrqDisableByte(old(regs)[R_INT_EN], id)]
      ensures ret != 0 ==> (ret == ERR_READ || 1 <= ret <= 4) && regs == old(regs)
    {
      ret := Update(R_INT_EN, IrqOff(id));
    }

    /** irq_clear_flag: only reads INT_STATUS (the chip clears its flags on that read); the id is ignored. */
    method IrqClearFlag(id: int) returns (ret: int)
      ensures ret == 0 || ret == ERR_READ
    {
      var b;
      ret, b := ReadOne(R_INT_STATUS);
    }

    /** sw_reset_assert (`hold` true) clears SWRSTN in CFG1; sw_reset_release sets it. */
    method SwReset(hold: bool) returns (ret: int)
      modifies this
      ensures ret == 0 ==> regs == old(regs)[R_CFG1 := if hold then old(regs)[R_CFG1] & !0x01 else old(regs)[R_CFG1] | 0x01]
      ensures ret != 0 ==> (ret == ERR_READ || 1 <= ret <= 4) && regs == old(regs)
    {
      ret := Update(R_CFG1, if hold then ClearBits(0x01) else SetBits(0x01));
    }

    /** rtc_start (`run` true) clears OSCONZ in CFG1, enabling the oscillator; rtc_stop sets it. */
    method RtcRun(run: bool) returns (ret: int)
      modifies this
      ensures ret == 0 ==> regs == old(regs)[R_CFG1 := if run then old(regs)[R_CFG1] & !0x08 else old(regs)[R_CFG1] | 0x08]
      ensures ret != 0 ==> (ret == ERR_READ || 1 <= ret <= 4) && regs == old(regs)
    {
      ret := Update(R_CFG1, if run then ClearBits(0x08) else SetBits(0x08));
    }

    /**
     * nvram_write: -1 with no write when the bytes would end past the NVRAM,
     * 0 with no bus access for no bytes, otherwise one burst write at
     * RAM_START + offset.
     */
    method NvramWrite(offset: int, data: seq<Byte>) returns (ret: int)
      modifies this
      ensures !NvramFits(offset, |data|) ==> ret == -1 && regs == old(regs) && bus == old(bus)
      ensures NvramFits(offset, |data|) && |data| == 0 ==> ret == 0 && regs == old(regs) && bus == old(bus)
      ensures NvramFits(offset, |data|) && |data| > 0 && ret == 0 ==>
                regs == Overwrite(old(regs), NvramAddress(offset), data[..NvramLength(|data|)])
      ensures ret != 0 ==> regs == old(regs)
    {
      if !NvramFits(offset, |data|) {
        return -1;
      }
      if |data| == 0 {
        return 0;
      }
      ret := WriteRegister(NvramAddress(offset), data[..NvramLength(|data|)]);
    }

    /**
     * nvram_read: the same bounds as nvram_write; a successful read fills
     * the first bytes of the caller's buffer `prior`.
     */
    method NvramRead(offset: int, prior: seq<Byte>) returns (ret: int, buffer: seq<Byte>)
      ensures |buffer| == |prior|
      ensures !NvramFits(offset, |prior|) ==> ret == -1 && buffer == prior
      ensures NvramFits(offset, |prior|) && |prior| == 0 ==> ret == 0
      ensures NvramFits(offset, |prior|) && |prior| > 0 ==> ret == 0 || ret == ERR_READ
      ensures NvramFits(offset, |prior|) && |prior| > 0 && ret == 0 ==>
                buffer == Window(regs, NvramAddress(offset), NvramLength(|prior|)) + prior[NvramLength(|prior|)..]
      ensures ret != 0 ==> buffer == prior
    {
      if !NvramFits(offset, |prior|) {
        return -1, prior;
      }
      if |prior| == 0 {
        return 0, prior;
      }
      var n := NvramLength(|prior|);
      var data;
      ret, data := ReadRegister(NvramAddress(offset), n);
      buffer := if ret == 0 then data + prior[n..] else prior;
    }
  }
}
