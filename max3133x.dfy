/**
 * The MAX3133X driver as a device: the chip's register space, the I2C
 * transfers that may fail, and every driver operation as a read, a bit
 * update and a write.
 */
module Max3133x {
  import opened Bits
  import opened Wrappers
  import opened Calendar
  import opened RegisterMap
  import opened Max3133xCodec

  /** The two chips the driver implements. */
  datatype Chip = MAX31331 | MAX31334

  /** The register addresses the driver uses (reg_addr_t). */
  datatype RegAddrs = RegAddrs(
    status: Addr, intEn: Addr, rtcReset: Addr, config1: Addr, config2: Addr,
    timestampConfig: Addr, timerConfig: Addr, sleepConfig: Addr,
    seconds128: Addr, seconds: Addr, hours: Addr, alm1Sec: Addr, alm2Min: Addr,
    timerCount: Addr, timerInit: Addr, pwrMgmt: Addr, trickle: Addr,
    ts0Sec128: Addr, ts0Flags: Addr)

  /** REG_NOT_AVAILABLE: the address of a register a chip does not have. */
  const REG_NOT_AVAILABLE: Addr := 0xFF

  /** The MAX31331 register map; the timer count and init registers are the one-byte ones. */
  const Max31331Addrs := RegAddrs(
    status := 0x00, intEn := 0x01, rtcReset := 0x02, config1 := 0x03, config2 := 0x04,
    timestampConfig := 0x05, timerConfig := 0x06, sleepConfig := REG_NOT_AVAILABLE,
    seconds128 := 0x07, seconds := 0x08, hours := 0x0A, alm1Sec := 0x0F, alm2Min := 0x15,
    timerCount := 0x18, timerInit := 0x19, pwrMgmt := 0x1A, trickle := 0x1B,
    ts0Sec128 := 0x20, ts0Flags := 0x27)

  /** The MAX31334 register map; the timer count and init registers are the high bytes TIMER_COUNT2 and TIMER_INIT2. */
  const Max31334Addrs := RegAddrs(
    status := 0x00, intEn := 0x01, rtcReset := 0x02, config1 := 0x03, config2 := 0x04,
    timestampConfig := 0x05, timerConfig := 0x06, sleepConfig := 0x07,
    seconds128 := 0x08, seconds := 0x09, hours := 0x0B, alm1Sec := 0x10, alm2Min := 0x16,
    timerCount := 0x19, timerInit := 0x1B, pwrMgmt := 0x1D, trickle := 0x1E,
    ts0Sec128 := 0x30, ts0Flags := 0x37)

  function AddrsOf(chip: Chip): RegAddrs
  {
    if chip == MAX31331 then Max31331Addrs else Max31334Addrs
  }

  /**
   * The block layout the driver relies on: SECONDS right after
   * SECONDS_1_128 and HOURS three further on, the alarm 1 block reaching
   * up to alarm 2's, the flags last in a timestamp bank, and the four
   * banks inside the register space.
   */
  predicate BlockLayout(a: RegAddrs)
  {
    a.seconds == a.seconds128 + 1 && a.hours == a.seconds128 + 3 &&
    a.alm2Min == a.alm1Sec + 6 && a.ts0Flags == a.ts0Sec128 + 7 &&
    a.ts0Sec128 + TS_BANK * NUM_OF_TS <= 256
  }

  /** Both chips' register maps have that layout. */
  lemma ChipLayouts(chip: Chip)
    ensures BlockLayout(AddrsOf(chip))
  {}

  /** The codes read_register returns on a failed transfer. */
  predicate ReadFailure(ret: int)
  {
    ret == WRITE_REG_ERR || ret == I2C_END_TRANS_ERR || ret == I2C_BUFF_ERR || ret == READ_REG_ERR
  }

  /** The codes write_register returns on a failed transfer. */
  predicate WriteFailure(ret: int)
  {
    ret == WRITE_REG_ERR || ret == I2C_END_TRANS_ERR
  }

  /** A timestamp record (timestamp_t) without the sub-second part. */
  datatype Timestamp = Timestamp(tsNum: int, trigger: int, ctime: Tm)

  /** A MAX31331 or MAX31334 on the bus. */
  class Rtc {
    const chip: Chip
    const addrs: RegAddrs
    /** The chip's register space. */
    var regs: Regs
    /** The writes the driver has completed, oldest first. */
    var bus: seq<Transfer>

    constructor (chip: Chip, init: Regs)
      ensures this.chip == chip && addrs == AddrsOf(chip) && regs == init && bus == []
    {
      this.chip := chip;
      addrs := AddrsOf(chip);
      regs := init;
      bus := [];
    }

    /**
     * read_register: a burst read that returns the registers or fails with
     * the code of the step that failed.
     */
    method ReadRegister(addr: Addr, len: nat) returns (ret: int, data: seq<Byte>)
      requires len <= 255
      ensures ret == NO_ERR || ReadFailure(ret)
      ensures ret == NO_ERR ==> data == Window(regs, addr, len)
    {
      data := [];
      if * {
        ret, data := NO_ERR, Window(regs, addr, len);
      } else if * {
        ret := WRITE_REG_ERR;
      } else if * {
        ret := I2C_END_TRANS_ERR;
      } else if * {
        ret := I2C_BUFF_ERR;
      } else {
        ret := READ_REG_ERR;
      }
    }

    /**
     * write_register: a burst write that stores all bytes or fails with the
     * code of the step that failed and stores nothing.
     */
    method WriteRegister(addr: Addr, data: seq<Byte>) returns (ret: int)
      requires |data| <= 255
      modifies this
      ensures ret == NO_ERR ==> regs == Overwrite(old(regs), addr, data) && bus == old(bus) + [Write(addr, data)]
      ensures ret != NO_ERR ==> WriteFailure(ret) && regs == old(regs) && bus == old(bus)
    {
      if * {
        regs := Overwrite(regs, addr, data);
        bus := bus + [Write(addr, data)];
        ret := NO_ERR;
      } else if * {
        ret := WRITE_REG_ERR;
      } else {
        ret := I2C_END_TRANS_ERR;
      }
    }

    method ReadOne(addr: Addr) returns (ret: int, b: Byte)
      ensures ret == NO_ERR || ReadFailure(ret)
      ensures ret == NO_ERR ==> b == regs[addr]
    {
      var data;
      ret, data := ReadRegister(addr, 1);
      b := if ret == NO_ERR then data[0] else 0;
    }

    method WriteOne(addr: Addr, b: Byte) returns (ret: int)
      modifies this
      ensures ret == NO_ERR ==> regs == old(regs)[addr := b] && bus == old(bus) + [Write(addr, [b])]
      ensures ret != NO_ERR ==> WriteFailure(ret) && regs == old(regs) && bus == old(bus)
    {
      ret := WriteRegister(addr, [b]);
      OverwriteOne(old(regs), addr, b);
    }

    /**
     * SET_BIT_FIELD: read the register; when the field differs from the
     * value, assign it and write the register back. Either way, on success
     * the register holds the value in that field and nothing else changes.
     */
    method SetBitField(addr: Addr, f: BitField, x: int) returns (ret: int)
      requires Aligned(f)
      modifies this
      ensures ret == NO_ERR ==> regs == old(regs)[addr := Store(old(regs)[addr], f, x)]
      ensures ret == NO_ERR && Get(old(regs)[addr], f) as int == x ==> bus == old(bus)
      ensures ret == NO_ERR && Get(old(regs)[addr], f) as int != x ==>
                bus == old(bus) + [Write(addr, [Store(old(regs)[addr], f, x)])]
      ensures ret != NO_ERR ==> (ReadFailure(ret) || WriteFailure(ret)) && regs == old(regs) && bus == old(bus)
    {
      var b;
      ret, b := ReadOne(addr);
      if ret != NO_ERR {
        return;
      }
      if Get(b, f) as int != x {
        ret := WriteOne(addr, Store(b, f, x));
      } else {
        StoreSame(b, f, x);
      }
    }

    // -------------------------------------------------------------------
    // SET_BIT_FIELD users
    // -------------------------------------------------------------------

    /** sw_reset_assert: RTC_RESET.swrst := 1. */
    method SwResetAssert() returns (ret: int)
      modifies this
      ensures ret == NO_ERR ==> regs == old(regs)[addrs.rtcReset := Put(old(regs)[addrs.rtcReset], Swrst, 1)]
      ensures ret != NO_ERR ==> (ReadFailure(ret) || WriteFailure(ret)) && regs == old(regs)
    {
      ret := SetBitField(addrs.rtcReset, Swrst, 1);
    }

    /** sw_reset_release: RTC_RESET.swrst := 0. */
    method SwResetRelease() returns (ret: int)
      modifies this
      ensures ret == NO_ERR ==> regs == old(regs)[addrs.rtcReset := Put(old(regs)[addrs.rtcReset], Swrst, 0)]
      ensures ret != NO_ERR ==> (ReadFailure(ret) || WriteFailure(ret)) && regs == old(regs)
    {
      ret := SetBitField(addrs.rtcReset, Swrst, 0);
    }

    /** sw_reset: assert, then (after a delay) release; a failed assert stops the sequence. */
    method SwReset() returns (ret: int)
      modifies this
      ensures ret == NO_ERR ==> regs == old(regs)[addrs.rtcReset := Put(old(regs)[addrs.rtcReset], Swrst, 0)]
      ensures ret != NO_ERR ==>
                (ReadFailure(ret) || WriteFailure(ret)) &&
                (regs == old(regs) || regs == old(regs)[addrs.rtcReset := Put(old(regs)[addrs.rtcReset], Swrst, 1)])
    {
      ret := SwResetAssert();
      if ret != NO_ERR {
        return;
      }
      ret := SwResetRelease();
    }

    /** set_alarm1_auto_clear: RTC_CONFIG1.a1ac := a1ac. */
    method SetAlarm1AutoClear(a1ac: int) returns (ret: int)
      modifies this
      ensures ret == NO_ERR ==> regs == old(regs)[addrs.config1 := Store(old(regs)[addrs.config1], A1ac, a1ac)]
      ensures ret != NO_ERR ==> (ReadFailure(ret) || WriteFailure(ret)) && regs == old(regs)
    {
      ret := SetBitField(addrs.config1, A1ac, a1ac);
    }

    /** set_din_polarity: RTC_CONFIG1.dip := dip. */
    method SetDinPolarity(dip: int) returns (ret: int)
      modifies this
      ensures ret == NO_ERR ==> regs == old(regs)[addrs.config1 := Store(old(regs)[addrs.config1], Dip, dip)]
      ensures ret != NO_ERR ==> (ReadFailure(ret) || WriteFailure(ret)) && regs == old(regs)
    {
      ret := SetBitField(addrs.config1, Dip, dip);
    }

    /** data_retention_mode_config: RTC_CONFIG1.data_ret := enable. */
    method DataRetentionModeConfig(enable: bool) returns (ret: int)
      modifies this
      ensures ret == NO_ERR ==> regs == old(regs)[addrs.config1 := Put(old(regs)[addrs.config1], DataRet, if enable then 1 else 0)]
      ensures ret != NO_ERR ==> (ReadFailure(ret) || WriteFailure(ret)) && regs == old(regs)
    {
      ret := SetBitField(addrs.config1, DataRet, if enable then 1 else 0);
    }

    /** i2c_timeout_config: RTC_CONFIG1.i2c_timeout := enable. */
    method I2cTimeoutConfig(enable: bool) returns (ret: int)
      modifies this
      ensures ret == NO_ERR ==> regs == old(regs)[addrs.config1 := Put(old(regs)[addrs.config1], I2cTimeout, if enable then 1 else 0)]
      ensures ret != NO_ERR ==> (ReadFailure(ret) || WriteFailure(ret)) && regs == old(regs)
    {
      ret := SetBitField(addrs.config1, I2cTimeout, if enable then 1 else 0);
    }

    /** oscillator_config: RTC_CONFIG1.en_osc := enable. */
    method OscillatorConfig(enable: bool) returns (ret: int)
      modifies this
      ensures ret == NO_ERR ==> regs == old(regs)[addrs.config1 := Put(old(regs)[addrs.config1], EnOsc, if enable then 1 else 0)]
      ensures ret != NO_ERR ==> (ReadFailure(ret) || WriteFailure(ret)) && regs == old(regs)
    {
      ret := SetBitField(addrs.config1, EnOsc, if enable then 1 else 0);
    }

    /** MAX31334 din_sleep_entry_config: RTC_CONFIG2.dse := enable. */
    method DinSleepEntryConfig(enable: bool) returns (ret: int)
      requires chip == MAX31334
      modifies this
      ensures ret == NO_ERR ==> regs == old(regs)[addrs.config2 := Put(old(regs)[addrs.config2], Dse, if enable then 1 else 0)]
      ensures ret != NO_ERR ==> (ReadFailure(ret) || WriteFailure(ret)) && regs == old(regs)
    {
      ret := SetBitField(addrs.config2, Dse, if enable then 1 else 0);
    }

    /** MAX31334 din_pin_debounce_config: RTC_CONFIG2.ddb := enable. */
    method DinPinDebounceConfig(enable: bool) returns (ret: int)
      requires chip == MAX31334
      modifies this
      ensures ret == NO_ERR ==> regs == old(regs)[addrs.config2 := Put(old(regs)[addrs.config2], Ddb, if enable then 1 else 0)]
      ensures ret != NO_ERR ==> (ReadFailure(ret) || WriteFailure(ret)) && regs == old(regs)
    {
      ret := SetBitField(addrs.config2, Ddb, if enable then 1 else 0);
    }

    /** clkout_config: RTC_CONFIG2.enclko := enable. */
    method ClkoutConfig(enable: bool) returns (ret: int)
      modifies this
      ensures ret == NO_ERR ==> regs == old(regs)[addrs.config2 := Put(old(regs)[addrs.config2], EnClko, if enable then 1 else 0)]
      ensures ret != NO_ERR ==> (ReadFailure(ret) || WriteFailure(ret)) && regs == old(regs)
    {
      ret := SetBitField(addrs.config2, EnClko, if enable then 1 else 0);
    }

    /** set_clko_freq: RTC_CONFIG2.clko_hz := clkoHz. */
    method SetClkoFreq(clkoHz: int) returns (ret: int)
      modifies this
      ensures ret == NO_ERR ==> regs == old(regs)[addrs.config2 := Store(old(regs)[addrs.config2], ClkoHz, clkoHz)]
      ensures ret != NO_ERR ==> (ReadFailure(ret) || WriteFailure(ret)) && regs == old(regs)
    {
      ret := SetBitField(addrs.config2, ClkoHz, clkoHz);
    }

    /** timestamp_function_enable: TIMESTAMP_CONFIG.tse := 1. */
    method TimestampFunctionEnable() returns (ret: int)
      modifies this
      ensures ret == NO_ERR ==> regs == old(regs)[addrs.timestampConfig := Put(old(regs)[addrs.timestampConfig], Tse, 1)]
      ensures ret != NO_ERR ==> (ReadFailure(ret) || WriteFailure(ret)) && regs == old(regs)
    {
      ret := SetBitField(addrs.timestampConfig, Tse, 1);
    }

    /** timestamp_function_disable: TIMESTAMP_CONFIG.tse := 0. */
    method TimestampFunctionDisable() returns (ret: int)
      modifies this
      ensures ret == NO_ERR ==> regs == old(regs)[addrs.timestampConfig := Put(old(regs)[addrs.timestampConfig], Tse, 0)]
      ensures ret != NO_ERR ==> (ReadFailure(ret) || WriteFailure(ret)) && regs == old(regs)
    {
      ret := SetBitField(addrs.timestampConfig, Tse, 0);
    }

    /** timestamp_registers_reset: TIMESTAMP_CONFIG.tsr := 1. */
    method TimestampRegistersReset() returns (ret: int)
      modifies this
      ensures ret == NO_ERR ==> regs == old(regs)[addrs.timestampConfig := Put(old(regs)[addrs.timestampConfig], Tsr, 1)]
      ensures ret != NO_ERR ==> (ReadFailure(ret) || WriteFailure(ret)) && regs == old(regs)
    {
      ret := SetBitField(addrs.timestampConfig, Tsr, 1);
    }

    /** timestamp_overwrite_config: TIMESTAMP_CONFIG.tsow := enable. */
    method TimestampOverwriteConfig(enable: bool) returns (ret: int)
      modifies this
      ensures ret == NO_ERR ==> regs == old(regs)[addrs.timestampConfig := Put(old(regs)[addrs.timestampConfig], Tsow, if enable then 1 else 0)]
      ensures ret != NO_ERR ==> (ReadFailure(ret) || WriteFailure(ret)) && regs == old(regs)
    {
      ret := SetBitField(addrs.timestampConfig, Tsow, if enable then 1 else 0);
    }

    /** MAX31334 sleep_enter / sleep_exit: SLEEP_CONFIG.slp := 1 or 0. */
    method SleepConfig(enter: bool) returns (ret: int)
      requires chip == MAX31334
      modifies this
      ensures ret == NO_ERR ==> regs == old(regs)[addrs.sleepConfig := Put(old(regs)[addrs.sleepConfig], Slp, if enter then 1 else 0)]
      ensures ret != NO_ERR ==> (ReadFailure(ret) || WriteFailure(ret)) && regs == old(regs)
    {
      ret := SetBitField(addrs.sleepConfig, Slp, if enter then 1 else 0);
    }

    /** MAX31334 set_wait_state_timeout: SLEEP_CONFIG.wsto := wsto. */
    method SetWaitStateTimeout(wsto: int) returns (ret: int)
      requires chip == MAX31334
      modifies this
      ensures ret == NO_ERR ==> regs == old(regs)[addrs.sleepConfig := Store(old(regs)[addrs.sleepConfig], Wsto, wsto)]
      ensures ret != NO_ERR ==> (ReadFailure(ret) || WriteFailure(ret)) && regs == old(regs)
    {
      ret := SetBitField(addrs.sleepConfig, Wsto, wsto);
    }

    /** battery_voltage_detector_config: PWR_MGMT.en_vbat_detect := enable. */
    method BatteryVoltageDetectorConfig(enable: bool) returns (ret: int)
      modifies this
      ensures ret == NO_ERR ==> regs == old(regs)[addrs.pwrMgmt := Put(old(regs)[addrs.pwrMgmt], EnVbatDetect, if enable then 1 else 0)]
      ensures ret != NO_ERR ==> (ReadFailure(ret) || WriteFailure(ret)) && regs == old(regs)
    {
      ret := SetBitField(addrs.pwrMgmt, EnVbatDetect, if enable then 1 else 0);
    }

    /** trickle_charger_disable: TRICKLE_REG.en_trickle := 0. */
    method TrickleChargerDisable() returns (ret: int)
      modifies this
      ensures ret == NO_ERR ==> regs == old(regs)[addrs.trickle := Put(old(regs)[addrs.trickle], EnTrickle, 0)]
      ensures ret != NO_ERR ==> (ReadFailure(ret) || WriteFailure(ret)) && regs == old(regs)
    {
      ret := SetBitField(addrs.trickle, EnTrickle, 0);
    }

    /** oscillator_flag_config: INT_EN.dosf := !enable (the flag is a disable bit). */
    method OscillatorFlagConfig(enable: bool) returns (ret: int)
      modifies this
      ensures ret == NO_ERR ==> regs == old(regs)[addrs.intEn := Put(old(regs)[addrs.intEn], Dosf, if enable then 0 else 1)]
      ensures ret != NO_ERR ==> (ReadFailure(ret) || WriteFailure(ret)) && regs == old(regs)
    {
      ret := SetBitField(addrs.intEn, Dosf, if enable then 0 else 1);
    }

    // -------------------------------------------------------------------
    // Register reads
    // -------------------------------------------------------------------

    /** get_status_reg / get_interrupt_reg: one raw register; `prior` is left as it was when the read fails. */
    method GetReg(addr: Addr, prior: Byte) returns (ret: int, b: Byte)
      ensures ret == NO_ERR || ReadFailure(ret)
      ensures b == if ret == NO_ERR then regs[addr] else prior
    {
      ret, b := ReadOne(addr);
      if ret != NO_ERR {
        b := prior;
      }
    }

    /** get_clko_freq: RTC_CONFIG2.clko_hz. */
    method GetClkoFreq(prior: int) returns (ret: int, clkoHz: int)
      ensures ret == NO_ERR || ReadFailure(ret)
      ensures clkoHz == if ret == NO_ERR then Get(regs[addrs.config2], ClkoHz) as int else prior
      ensures ret == NO_ERR ==> 0 <= clkoHz < 4
    {
      var b;
      ret, b := ReadOne(addrs.config2);
      clkoHz := if ret == NO_ERR then Get(b, ClkoHz) as int else prior;
    }

    /** MAX31334 get_sleep_state: the slst bit, or the read's failure code. */
    method GetSleepState() returns (ret: int)
      requires chip == MAX31334
      ensures ret == Get(regs[addrs.config2], Slst) as int || ReadFailure(ret)
      ensures ret == 0 || ret == 1 || ReadFailure(ret)
    {
      var b;
      ret, b := ReadOne(addrs.config2);
      if ret == NO_ERR {
        ret := Get(b, Slst) as int;
      }
    }

    /** MAX31334 get_wait_state_timeout: SLEEP_CONFIG.wsto. */
    method GetWaitStateTimeout(prior: int) returns (ret: int, wsto: int)
      requires chip == MAX31334
      ensures ret == NO_ERR || ReadFailure(ret)
      ensures wsto == if ret == NO_ERR then Get(regs[addrs.sleepConfig], Wsto) as int else prior
      ensures ret == NO_ERR ==> 0 <= wsto < 8
    {
      var b;
      ret, b := ReadOne(addrs.sleepConfig);
      wsto := if ret == NO_ERR then Get(b, Wsto) as int else prior;
    }

    /** get_rtc_time_format: the hours register's 12/24-hour flag, which is HOUR24 or HOUR12. */
    method GetRtcTimeFormat(prior: int) returns (ret: int, format: int)
      ensures ret == NO_ERR || ReadFailure(ret)
      ensures format == if ret == NO_ERR then Get(regs[addrs.hours], F24_12) as int else prior
      ensures ret == NO_ERR ==> format == HOUR24 || format == HOUR12
    {
      var b;
      ret, b := ReadOne(addrs.hours);
      format := if ret == NO_ERR then Get(b, F24_12) as int else prior;
    }

    // -------------------------------------------------------------------
    // Mask updates
    // -------------------------------------------------------------------

    /** interrupt_enable: INT_EN |= mask. */
    method InterruptEnable(mask: Byte) returns (ret: int)
      modifies this
      ensures ret == NO_ERR ==> regs == old(regs)[addrs.intEn := old(regs)[addrs.intEn] | mask]
      ensures ret != NO_ERR ==> (ReadFailure(ret) || WriteFailure(ret)) && regs == old(regs)
    {
      var b;
      ret, b := ReadOne(addrs.intEn);
      if ret != NO_ERR {
        return;
      }
      ret := WriteOne(addrs.intEn, b | mask);
    }

    /** interrupt_disable: INT_EN &= ~mask. */
    method InterruptDisable(mask: Byte) returns (ret: int)
      modifies this
      ensures ret == NO_ERR ==> regs == old(regs)[addrs.intEn := old(regs)[addrs.intEn] & !mask]
      ensures ret != NO_ERR ==> (ReadFailure(ret) || WriteFailure(ret)) && regs == old(regs)
    {
      var b;
      ret, b := ReadOne(addrs.intEn);
      if ret != NO_ERR {
        return;
      }
      ret := WriteOne(addrs.intEn, b & !mask);
    }

    /** timestamp_record_enable: a mask above 0x38 gives -6 with no transfer; otherwise TIMESTAMP_CONFIG |= mask. */
    method TimestampRecordEnable(mask: Byte) returns (ret: int)
      modifies this
      ensures !RecordMaskAccepted(mask) ==> ret == INVALID_MASK_ERR && regs == old(regs) && bus == old(bus)
      ensures ret == NO_ERR ==>
                RecordMaskAccepted(mask) && regs == old(regs)[addrs.timestampConfig := old(regs)[addrs.timestampConfig] | mask]
      ensures ret != NO_ERR ==> regs == old(regs)
      ensures RecordMaskAccepted(mask) && ret != NO_ERR ==> ReadFailure(ret) || WriteFailure(ret)
    {
      if !RecordMaskAccepted(mask) {
        return INVALID_MASK_ERR;
      }
      var b;
      ret, b := ReadOne(addrs.timestampConfig);
      if ret != NO_ERR {
        return;
      }
      ret := WriteOne(addrs.timestampConfig, b | mask);
    }

    /** timestamp_record_disable: a mask above 0x38 gives -6 with no transfer; otherwise TIMESTAMP_CONFIG &= ~mask. */
    method TimestampRecordDisable(mask: Byte) returns (ret: int)
      modifies this
      ensures !RecordMaskAccepted(mask) ==> ret == INVALID_MASK_ERR && regs == old(regs) && bus == old(bus)
      ensures ret == NO_ERR ==>
                RecordMaskAccepted(mask) && regs == old(regs)[addrs.timestampConfig := old(regs)[addrs.timestampConfig] & !mask]
      ensures ret != NO_ERR ==> regs == old(regs)
      ensures RecordMaskAccepted(mask) && ret != NO_ERR ==> ReadFailure(ret) || WriteFailure(ret)
    {
      if !RecordMaskAccepted(mask) {
        return INVALID_MASK_ERR;
      }
      var b;
      ret, b := ReadOne(addrs.timestampConfig);
      if ret != NO_ERR {
        return;
      }
      ret := WriteOne(addrs.timestampConfig, b & !mask);
    }

    /** MAX31334 wakeup_enable: SLEEP_CONFIG |= mask. */
    method WakeupEnable(mask: Byte) returns (ret: int)
      requires chip == MAX31334
      modifies this
      ensures ret == NO_ERR ==> regs == old(regs)[addrs.sleepConfig := old(regs)[addrs.sleepConfig] | mask]
      ensures ret != NO_ERR ==> (ReadFailure(ret) || WriteFailure(ret)) && regs == old(regs)
    {
      var b;
      ret, b := ReadOne(addrs.sleepConfig);
      if ret != NO_ERR {
        return;
      }
      ret := WriteOne(addrs.sleepConfig, b | mask);
    }

    /** MAX31334 wakeup_disable: SLEEP_CONFIG &= ~mask. */
    method WakeupDisable(mask: Byte) returns (ret: int)
      requires chip == MAX31334
      modifies this
      ensures ret == NO_ERR ==> regs == old(regs)[addrs.sleepConfig := old(regs)[addrs.sleepConfig] & !mask]
      ensures ret != NO_ERR ==> (ReadFailure(ret) || WriteFailure(ret)) && regs == old(regs)
    {
      var b;
      ret, b := ReadOne(addrs.sleepConfig);
      if ret != NO_ERR {
        return;
      }
      ret := WriteOne(addrs.sleepConfig, b & !mask);
    }

    // -------------------------------------------------------------------
    // Timer
    // -------------------------------------------------------------------

    /**
     * timer_init: TIMER_CONFIG reset, paused, with the repeat mode and
     * frequency; then the initial count, one byte on MAX31331 and two bytes,
     * most significant first, on MAX31334. A failed step stops the sequence.
     */
    method TimerInit(init: int, repeat: bool, freq: int) returns (ret: int)
      requires chip == MAX31331 ==> 0 <= init < 0x100
      requires chip == MAX31334 ==> 0 <= init < 0x1_0000
      modifies this
      ensures ret == NO_ERR ==>
                var cfg := old(regs)[addrs.timerConfig := TimerInitConfig(old(regs)[addrs.timerConfig], repeat, freq)];
                regs == Overwrite(cfg, addrs.timerInit, if chip == MAX31331 then [init as Byte] else TimerInitBytes(init))
      ensures ret != NO_ERR ==>
                (ReadFailure(ret) || WriteFailure(ret)) &&
                (regs == old(regs) ||
                 regs == old(regs)[addrs.timerConfig := TimerInitConfig(old(regs)[addrs.timerConfig], repeat, freq)])
    {
      var b;
      ret, b := ReadOne(addrs.timerConfig);
      if ret != NO_ERR {
        return;
      }
      ret := WriteOne(addrs.timerConfig, TimerInitConfig(b, repeat, freq));
      if ret != NO_ERR {
        return;
      }
      if chip == MAX31331 {
        ret := WriteRegister(addrs.timerInit, [init as Byte]);
      } else {
        ret := WriteRegister(addrs.timerInit, TimerInitBytes(init));
      }
    }

    /** timer_get: the count (one byte on MAX31331, two on MAX31334), or the read's failure code. */
    method TimerGet() returns (ret: int)
      ensures ReadFailure(ret) ||
              ret == if chip == MAX31331 then regs[addrs.timerCount] as int else TimerCount(Window(regs, addrs.timerCount, 2))
    {
      var data;
      if chip == MAX31331 {
        ret, data := ReadRegister(addrs.timerCount, 1);
        if ret == NO_ERR {
          ret := data[0] as int;
        }
      } else {
        ret, data := ReadRegister(addrs.timerCount, 2);
        if ret == NO_ERR {
          ret := TimerCount(data);
        }
      }
    }

    /** timer_start, timer_pause, timer_continue and timer_stop: TIMER_CONFIG's TE and TPAUSE bits. */
    method TimerControlSet(te: U1, tpause: U1) returns (ret: int)
      modifies this
      ensures ret == NO_ERR ==> regs == old(regs)[addrs.timerConfig := TimerControl(old(regs)[addrs.timerConfig], te, tpause)]
      ensures ret != NO_ERR ==> (ReadFailure(ret) || WriteFailure(ret)) && regs == old(regs)
    {
      var b;
      ret, b := ReadOne(addrs.timerConfig);
      if ret != NO_ERR {
        return;
      }
      ret := WriteOne(addrs.timerConfig, TimerControl(b, te, tpause));
    }

    /** timer_start: enabled and running. */
    method TimerStart() returns (ret: int)
      modifies this
      ensures ret == NO_ERR ==> regs == old(regs)[addrs.timerConfig := TimerControl(old(regs)[addrs.timerConfig], 1, 0)]
      ensures ret != NO_ERR ==> (ReadFailure(ret) || WriteFailure(ret)) && regs == old(regs)
    {
      ret := TimerControlSet(1, 0);
    }

    /** timer_pause: enabled and paused, so the count is kept. */
    method TimerPause() returns (ret: int)
      modifies this
      ensures ret == NO_ERR ==> regs == old(regs)[addrs.timerConfig := TimerControl(old(regs)[addrs.timerConfig], 1, 1)]
      ensures ret != NO_ERR ==> (ReadFailure(ret) || WriteFailure(ret)) && regs == old(regs)
    {
      ret := TimerControlSet(1, 1);
    }

    /** timer_continue: enabled and running from the paused count. */
    method TimerContinue() returns (ret: int)
      modifies this
      ensures ret == NO_ERR ==> regs == old(regs)[addrs.timerConfig := TimerControl(old(regs)[addrs.timerConfig], 1, 0)]
      ensures ret != NO_ERR ==> (ReadFailure(ret) || WriteFailure(ret)) && regs == old(regs)
    {
      ret := TimerControlSet(1, 0);
    }

    /** timer_stop: disabled and paused. */
    method TimerStop() returns (ret: int)
      modifies this
      ensures ret == NO_ERR ==> regs == old(regs)[addrs.timerConfig := TimerControl(old(regs)[addrs.timerConfig], 0, 1)]
      ensures ret != NO_ERR ==> (ReadFailure(ret) || WriteFailure(ret)) && regs == old(regs)
    {
      ret := TimerControlSet(0, 1);
    }

    // -------------------------------------------------------------------
    // Power and trickle charger
    // -------------------------------------------------------------------

    /** supply_select: PWR_MGMT's manual and backup selection bits. */
    method SupplySelect(supply: int) returns (ret: int)
      modifies this
      ensures ret == NO_ERR ==> regs == old(regs)[addrs.pwrMgmt := SupplyConfig(old(regs)[addrs.pwrMgmt], supply)]
      ensures ret != NO_ERR ==> (ReadFailure(ret) || WriteFailure(ret)) && regs == old(regs)
    {
      var b;
      ret, b := ReadOne(addrs.pwrMgmt);
      if ret != NO_ERR {
        return;
      }
      ret := WriteOne(addrs.pwrMgmt, SupplyConfig(b, supply));
    }

    /**
     * trickle_charger_enable: writes TRICKLE_REG without reading it first,
     * so the bits it does not assign are those of the uninitialised local
     * `stale`.
     */
    method TrickleChargerEnable(res: int, diode: bool, stale: Byte) returns (ret: int)
      modifies this
      ensures ret == NO_ERR ==> regs == old(regs)[addrs.trickle := TrickleEnableConfig(stale, res, diode)]
      ensures ret != NO_ERR ==> WriteFailure(ret) && regs == old(regs)
    {
      ret := WriteOne(addrs.trickle, TrickleEnableConfig(stale, res, diode));
    }

    // -------------------------------------------------------------------
    // Configuration
    // -------------------------------------------------------------------

    /**
     * rtc_config: RTC_CONFIG1 then RTC_CONFIG2, each written whole from an
     * uninitialised local with the configured fields assigned; a failed
     * first write stops the sequence.
     */
    method RtcConfigSet(c: RtcConfig, stale1: Byte, stale2: Byte) returns (ret: int)
      modifies this
      ensures ret == NO_ERR ==>
                regs == old(regs)[addrs.config1 := Config1Byte(stale1, c)][addrs.config2 := Config2Byte(stale2, c, chip == MAX31334)]
      ensures ret != NO_ERR ==>
                WriteFailure(ret) &&
                (regs == old(regs) || regs == old(regs)[addrs.config1 := Config1Byte(stale1, c)])
    {
      ret := WriteOne(addrs.config1, Config1Byte(stale1, c));
      if ret != NO_ERR {
        return;
      }
      ret := WriteOne(addrs.config2, Config2Byte(stale2, c, chip == MAX31334));
    }

    /**
     * get_rtc_config: RTC_CONFIG1's fields, then RTC_CONFIG2's, into the
     * caller's record; a failed second read leaves the first read's fields
     * assigned.
     */
    method GetRtcConfig(prior: RtcConfig) returns (ret: int, c: RtcConfig)
      ensures ret == NO_ERR || ReadFailure(ret)
      ensures ret == NO_ERR ==> c == DecodeConfig2(DecodeConfig1(prior, regs[addrs.config1]), regs[addrs.config2], chip == MAX31334)
      ensures ret != NO_ERR ==> c == prior || c == DecodeConfig1(prior, regs[addrs.config1])
    {
      var b;
      c := prior;
      ret, b := ReadOne(addrs.config1);
      if ret != NO_ERR {
        return;
      }
      c := DecodeConfig1(c, b);
      ret, b := ReadOne(addrs.config2);
      if ret != NO_ERR {
        return;
      }
      c := DecodeConfig2(c, b, chip == MAX31334);
    }

    // -------------------------------------------------------------------
    // Time, alarms and timestamps
    // -------------------------------------------------------------------

    /**
     * set_time: encodes into the uninitialised block `stale` and writes all
     * of it but the sub-second byte, starting at SECONDS.
     */
    method SetTime(t: Tm, format: int, stale: seq<Byte>) returns (ret: int)
      requires |stale| == 8
      modifies this
      ensures TimeToRtcRegs(t, format, stale).Err? ==> ret == TimeToRtcRegs(t, format, stale).code && regs == old(regs)
      ensures TimeToRtcRegs(t, format, stale).Ok? && ret == NO_ERR ==>
                regs == Overwrite(old(regs), addrs.seconds, TimeToRtcRegs(t, format, stale).value[1..])
      ensures TimeToRtcRegs(t, format, stale).Ok? && ret != NO_ERR ==> WriteFailure(ret) && regs == old(regs)
    {
      var enc := TimeToRtcRegs(t, format, stale);
      if enc.Err? {
        return enc.code;
      }
      ret := WriteRegister(addrs.seconds, enc.value[1..]);
    }

    /** get_time: reads the 8-byte block from SECONDS_1_128 and decodes it; `junk` is the undefined 12-hour result. */
    method GetTime(prior: Tm, junk: int) returns (ret: int, t: Tm)
      ensures ret == NO_ERR || ReadFailure(ret)
      ensures t == if ret == NO_ERR then RtcRegsToTime(Window(regs, addrs.seconds128, 8), junk) else prior
    {
      var data;
      ret, data := ReadRegister(addrs.seconds128, 8);
      t := if ret == NO_ERR then RtcRegsToTime(data, junk) else prior;
    }

    /**
     * set_alarm: the period's flags (refusing before any transfer), then
     * the time format from the hours register, then the values; alarm 1's
     * 6-byte block goes to ALM1_SEC, alarm 2's minutes, hours and day/date
     * to ALM2_MIN.
     */
    method SetAlarm(alarmNo: int, t: Tm, period: int, stale: seq<Byte>) returns (ret: int)
      requires |stale| == 6
      modifies this
      ensures PeriodMasks(alarmNo, period).Err? ==> ret == PeriodMasks(alarmNo, period).code && regs == old(regs)
      ensures ret == NO_ERR ==>
                var enc := EncodeAlarm(alarmNo, t, period, Get(old(regs)[addrs.hours], F24_12) as int, stale);
                enc.Ok? &&
                regs == if alarmNo == ALARM1 then Overwrite(old(regs), addrs.alm1Sec, enc.value)
                        else Overwrite(old(regs), addrs.alm2Min, enc.value[1..4])
      ensures ret != NO_ERR ==> regs == old(regs)
      ensures PeriodMasks(alarmNo, period).Ok? && ret != NO_ERR ==>
                var enc := EncodeAlarm(alarmNo, t, period, Get(old(regs)[addrs.hours], F24_12) as int, stale);
                ReadFailure(ret) || WriteFailure(ret) || (enc.Err? && ret == enc.code)
    {
      var masks := PeriodMasks(alarmNo, period);
      if masks.Err? {
        return masks.code;
      }
      var format;
      ret, format := GetRtcTimeFormat(HOUR24);
      if ret != NO_ERR {
        return;
      }
      var enc := TimeToAlarmRegs(ApplyMasks(stale, masks.value), t, format);
      if enc.Err? {
        return enc.code;
      }
      if alarmNo == ALARM1 {
        ret := WriteRegister(addrs.alm1Sec, enc.value);
      } else {
        ret := WriteRegister(addrs.alm2Min, enc.value[1..4]);
      }
    }

    /**
     * get_alarm: the time format, then the alarm block (for alarm 2 only
     * minutes, hours and day/date, into the uninitialised `stale`), decoded
     * into the caller's time and period, then the enable flag from INT_EN.
     * The time and period are assigned even when that last read fails.
     */
    method GetAlarm(alarmNo: int, prior: Tm, priorPeriod: int, priorEnabled: bool, stale: seq<Byte>)
      returns (ret: int, t: Tm, period: int, enabled: bool)
      requires |stale| == 6
      ensures ret == NO_ERR || ReadFailure(ret)
      ensures ret == NO_ERR ==>
                var format := Get(regs[addrs.hours], F24_12) as int;
                var block := if alarmNo == ALARM1 then Window(regs, addrs.alm1Sec, 6)
                             else stale[..1] + Window(regs, addrs.alm2Min, 3) + stale[4..];
                t == AlarmRegsToTime(alarmNo, prior, block, format) && period == AlarmPeriod(alarmNo, block) &&
                enabled == IsEnabled(regs[addrs.intEn], alarmNo)
      ensures ret != NO_ERR ==>
                var format := Get(regs[addrs.hours], F24_12) as int;
                var block := if alarmNo == ALARM1 then Window(regs, addrs.alm1Sec, 6)
                             else stale[..1] + Window(regs, addrs.alm2Min, 3) + stale[4..];
                enabled == priorEnabled &&
                ((t, period) == (prior, priorPeriod) ||
                 (t, period) == (AlarmRegsToTime(alarmNo, prior, block, format), AlarmPeriod(alarmNo, block)))
    {
      t, period, enabled := prior, priorPeriod, priorEnabled;
      var format;
      ret, format := GetRtcTimeFormat(HOUR24);
      if ret != NO_ERR {
        return;
      }
      var data, block;
      if alarmNo == ALARM1 {
        ret, data := ReadRegister(addrs.alm1Sec, 6);
        block := data;
      } else {
        ret, data := ReadRegister(addrs.alm2Min, 3);
        block := if ret == NO_ERR then stale[..1] + data + stale[4..] else stale;
      }
      if ret != NO_ERR {
        return;
      }
      t := AlarmRegsToTime(alarmNo, prior, block, format);
      period := AlarmPeriod(alarmNo, block);
      var raw;
      ret, raw := ReadOne(addrs.intEn);
      if ret != NO_ERR {
        return;
      }
      enabled := IsEnabled(raw, alarmNo);
    }

    /**
     * get_timestamp: reads bank `tsNum`'s flags (addresses computed in
     * `uint8_t`) and reports the trigger; when any flag is set it reads the
     * bank's 7 time bytes and decodes them into the caller's time.
     */
    method GetTimestamp(tsNum: int, prior: Timestamp, junk: int) returns (ret: int, ts: Timestamp)
      ensures ret == NO_ERR || ReadFailure(ret)
      ensures ret == NO_ERR ==>
                var flags := regs[BankAddress(addrs.ts0Flags, tsNum)];
                ts.tsNum == tsNum && ts.trigger == Trigger(flags) &&
                ts.ctime == if flags == 0 then prior.ctime
                            else TimestampToTime(Window(regs, BankAddress(addrs.ts0Sec128, tsNum), 7), prior.ctime, junk)
      ensures ret != NO_ERR ==>
                ts == prior || ts == prior.(tsNum := tsNum, trigger := Trigger(regs[BankAddress(addrs.ts0Flags, tsNum)]))
    {
      ts := prior;
      var flags;
      ret, flags := ReadOne(BankAddress(addrs.ts0Flags, tsNum));
      if ret != NO_ERR {
        return;
      }
      ts := ts.(tsNum := tsNum, trigger := Trigger(flags));
      if flags == 0 {
        return;
      }
      var data;
      ret, data := ReadRegister(BankAddress(addrs.ts0Sec128, tsNum), 7);
      if ret != NO_ERR {
        return;
      }
      ts := ts.(ctime := TimestampToTime(data, prior.ctime, junk));
    }
  }

  // ---------------------------------------------------------------------
  // Properties across operations
  // ---------------------------------------------------------------------

  /** A time block written by set_time and read back by get_time decodes as the block itself. */
  lemma TimeReadBack(a: RegAddrs, regs: Regs, block: seq<Byte>, junk: int)
    requires BlockLayout(a) && |block| == 8
    ensures RtcRegsToTime(Window(Overwrite(regs, a.seconds, block[1..]), a.seconds128, 8), junk) == RtcRegsToTime(block, junk)
  {
    TimeWindow(a, regs, block);
    TimeRegisters(Window(Overwrite(regs, a.seconds, block[1..]), a.seconds128, 8), block, junk);
  }

  /** The 8-byte read from SECONDS_1_128 sees the 7 bytes written at SECONDS after its first byte. */
  lemma TimeWindow(a: RegAddrs, regs: Regs, block: seq<Byte>)
    requires BlockLayout(a) && |block| == 8
    ensures Window(Overwrite(regs, a.seconds, block[1..]), a.seconds128, 8)[1..] == block[1..]
  {
    ReadBeforeWrite(regs, a.seconds128, block[1..]);
  }

  /**
   * The block set_time writes, read back with get_time's 8-byte read one
   * address lower, decodes as the encoded block; in 24-hour form that is the
   * time that was set.
   */
  lemma SetThenGetTime(a: RegAddrs, regs: Regs, t: Tm, stale: seq<Byte>, junk: int)
    requires BlockLayout(a) && InRange(t) && |stale| == 8
    ensures TimeToRtcRegs(t, HOUR24, stale).Ok?
    ensures RtcRegsToTime(Window(Overwrite(regs, a.seconds, TimeToRtcRegs(t, HOUR24, stale).value[1..]), a.seconds128, 8), junk) ==
              Cleared(t)
  {
    TimeRoundTrip24(t, stale, junk);
    TimeReadBack(a, regs, TimeToRtcRegs(t, HOUR24, stale).value, junk);
  }

  /**
   * The block set_alarm writes for alarm 2, read back by get_alarm into
   * any uninitialised block, decodes to the same period and time as the
   * encoded block.
   */
  lemma Alarm2ReadBack(a: RegAddrs, regs: Regs, block: seq<Byte>, stale: seq<Byte>, prior: Tm, format: int)
    requires |block| == 6 && |stale| == 6
    ensures var r := Overwrite(regs, a.alm2Min, block[1..4]);
            var read := stale[..1] + Window(r, a.alm2Min, 3) + stale[4..];
            AlarmPeriod(ALARM2, read) == AlarmPeriod(ALARM2, block) &&
            AlarmRegsToTime(ALARM2, prior, read, format) == AlarmRegsToTime(ALARM2, prior, block, format)
  {
    var r := Overwrite(regs, a.alm2Min, block[1..4]);
    var read := stale[..1] + Window(r, a.alm2Min, 3) + stale[4..];
    assert read[1..4] == block[1..4];
    Alarm2Registers(read, block, prior, format);
  }
}
