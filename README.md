# Analog Devices real-time-clock drivers in Dafny

This project models the core of the Analog Devices RTC library. The library
has one C++ driver class per chip family:

- `MAX31328`;
- `MAX31341`;
- `MAX31343`;
- `MAX3133X`, with its two chips `MAX31331` and `MAX31334`.

Every driver talks to its chip over I²C. Every driver works the same way:

- it converts a C `struct tm` to and from the chip's BCD calendar registers;
- it converts an alarm time and an alarm period to and from the alarm
  registers, where mask bits say which fields must match;
- it changes one field of a control register by reading the register,
  changing some bits and writing it back;
- it returns the status of the bus transfer, or a negative error code.

## Shared modules

- `Bits`: bytes are `bv8`. C's `uint8_t` truncation, C's `/` and `%`, and the
  drivers' bit-field unions and `GET_BIT_VAL`/`SET_BIT_VAL` macros are written
  out here.
- `Bcd`: the `BCD2BIN`/`BIN2BCD` macros, with their round trip.
- `Calendar`: `struct tm`, and how a year is split into a century flag and a
  two-digit year.
- `RegisterMap`: the chip's 256 registers, and the effect of a burst read or
  write. A burst wraps at address 255, like the chip's 8-bit register address.
- `Wrappers`: `Option` and `Result`.

## Per-chip modules

Each chip module has two parts:

- The codecs are pure functions: encode, decode, period masks, and register
  updates one byte at a time. Lemmas about them give the round trips and the
  places where the code does something other than what it evidently intends.
- The class `Rtc` holds the chip's registers. The MAX31341 and MAX3133X
  classes also hold a log of the writes completed on the bus. Each driver
  method is a method whose contract gives:
  - on success, the new register contents;
  - on failure, the error code and the registers left behind.

The bus can fail at any transfer, so a failure is nondeterministic in the
model. `read_register` returns -1, or the MAX3133X read error codes. A write
returns the Wire status 1..4, or the MAX3133X write error codes.

## Uninitialised values

Several drivers build a register block in an uninitialised local variable and
assign only some of its bits. The model gives such a block as a parameter
(`stale`), so every contract holds whatever that memory held. Where a result
depends on it, a lemma says how:

- `Max31328.StaleTwelveHourFlag`;
- `Max31341.EncodeAlarm`'s `staleRet`.

## Model

| member | source | states |
|---|---|---|
| Bits.CDiv | src/MAX31341/MAX31341.cpp:40 | C's `/` truncates toward zero: equal to Euclidean division for a non-negative dividend, the negated quotient of the negation otherwise |
| Bits.CRem | src/MAX31341/MAX31341.cpp:40 | C's `%`: quotient times divisor plus remainder is the dividend, and the remainder takes the dividend's sign |
| Bits.U8 | src/MAX31341/MAX31341.cpp:291-307 | assigning a C `int` to a `uint8_t` keeps its value modulo 256 |
| Bits.Put | src/MAX31341/MAX31341.cpp:365-369 | a bit-field assignment changes no bit outside the field |
| Bits.Store | src/MAX31341/MAX31341.cpp:407-409 | assigning an `int` to a bit field changes no bit outside the field |
| Bits.GetPutLow | src/MAX31341/MAX31341.cpp:36-37 | a value that fits a field at bit 0 reads back through `GET_BIT_VAL` as written |
| Bits.GetFramed | src/MAX31341/MAX31341.cpp:36 | a field outside the bits an update may change reads the same afterwards |
| Bits.PutGet | src/MAX31341/MAX31341.cpp:36-37 | writing back the value a field holds leaves the byte unchanged |
| Bits.StoreSame | src/MAX3133X/MAX3133X.cpp:131-142 | assigning a field the value it already holds changes nothing, which is why `SET_BIT_FIELD` may skip the write |
| Bits.U8Byte | src/MAX31341/MAX31341.cpp:36 | a byte widened to `int` and cut back to `uint8_t` is unchanged |
| Bcd.ToBin | src/MAX31341/MAX31341.cpp:39 | `BCD2BIN` of any byte lies in 0..165 |
| Bcd.RoundTrip | src/MAX31341/MAX31341.cpp:39-40 | every 0..99 encodes to two valid BCD digits that decode back to it, and fits a 7-, 6-, 5- or 3-bit field when its tens digit does |
| Bcd.CodeDecodes | src/MAX31341/MAX31341.cpp:39-40 | `BCD2BIN(BIN2BCD(x)) == x` for 0..99, and the code is valid BCD |
| Bcd.CodeWidth | src/MAX31341/MAX31341.cpp:40 | the code of a value below 80, 40, 20 or 8 fits the 7-, 6-, 5- or 3-bit field |
| Bcd.DecodeEncode | src/MAX31341/MAX31341.cpp:39-40 | every valid two-digit BCD byte decodes to 0..99 and re-encodes to itself |
| Bcd.Digits | src/MAX31341/MAX31341.cpp:39 | a BCD byte's value and its decoding in terms of its two nibbles |
| Bcd.EncodeDigits | src/MAX31341/MAX31341.cpp:40 | `BIN2BCD` puts the tens digit in the high nibble and the units in the low one |
| Bcd.StoreRoundTrip | src/MAX31341/MAX31341.cpp:291-307 | a value stored in BCD into a field wide enough for it reads back as that value |
| Bcd.ReadsBack | src/MAX31341/MAX31341.cpp:39-40 | a register byte whose field got a value through BIN2BCD gives that value back through BCD2BIN |
| Bcd.ReadsBackUnder | src/MAX31341/MAX31341.cpp:296-307 | the same holds when another bit of the register, such as the century bit beside the month, is set afterwards |
| Bcd.Code | src/MAX31341/MAX31341.cpp:40 | the code of 0..99 read as a number is the value plus six per ten |
| Bcd.CodeValue | src/MAX31341/MAX31341.cpp:40 | the code of 0..99 is sixteen times the tens digit plus the units |
| Calendar.YearOfCentury | src/MAX31343/MAX31343.cpp:275-283 | for a `tm_year` of 100..299 (years 2000..2199) the stored two-digit year is 0..99; adding back 100, or 200 when the century flag is set, gives `tm_year` |
| RegisterMap.At | src/MAX31341/MAX31341.cpp:50-92 | a burst address always lies in 0..255 |
| RegisterMap.Window | src/MAX31341/MAX31341.cpp:50-92 | a burst read returns exactly the number of bytes requested |
| RegisterMap.Overwrite | src/MAX31341/MAX31341.cpp:94-115 | after a burst write, reading the same window gives the data, and no register outside the window changes |
| RegisterMap.Offsets | src/MAX31341/MAX31341.cpp:50-92 | byte `i` of a burst lies `i` addresses past its start, modulo 256 |
| RegisterMap.OverwriteOne | src/MAX31341/MAX31341.cpp:94-115 | a one-byte write changes exactly that register |
| RegisterMap.WindowShift | src/MAX3133X/MAX3133X.cpp:260-296 | a burst read one address later sees the tail of a longer read |
| RegisterMap.ReadBeforeWrite | src/MAX3133X/MAX3133X.cpp:260-296 | a read starting one address before a burst write sees the written bytes after its first byte, as get_time's read from SECONDS_1_128 does after set_time's write at SECONDS |
| RegisterMap.ApplyNext | src/MAX31341/MAX31341.cpp:309-344 | the registers after the first `k + 1` writes of a sequence are those after `k` writes, overwritten by write `k` |
| RegisterMap.ApplyFirst | src/MAX31341/MAX31341.cpp:309-344 | applying a write and then a sequence of writes is applying them all, first one first |
| RegisterMap.WindowPrefix | src/MAX31341/MAX31341.cpp:50-92 | the first `k` bytes of a burst read are a shorter read at the same address |
| Max31328.EncodeStatus | src/MAX31328/MAX31328.cpp:147-161 | set_status never sets the unused STATUS bits 4..6 |
| Max31328.StatusRoundTrip | src/MAX31328/MAX31328.cpp:128-161 | a status record written by set_status reads back unchanged through get_status |
| Max31328.StatusReencode | src/MAX31328/MAX31328.cpp:128-161 | re-encoding what get_status read keeps every flag and clears only bits 4..6 |
| Max31328.ConfigRoundTrip | src/MAX31328/MAX31328.cpp:163-200 | set_configuration and get_configuration are inverse in both directions: the fields cover CONTROL exactly |
| Max31328.EncodeTime | src/MAX31328/MAX31328.cpp:202-254 | years before 2000 give -1; otherwise the 7-byte block has the century bit of the year, the two-digit year, and the 12/24-hour flag of the uninitialised block |
| Max31328.TimeRoundTrip | src/MAX31328/MAX31328.cpp:202-450 | for every in-range time, get_time decodes set_time's block to the same time when the uninitialised 12/24-hour flag is 0 |
| Max31328.StaleTwelveHourFlag | src/MAX31328/MAX31328.cpp:226-254 | when that uninitialised flag is 1, hours 20..23 read back 8 lower, because bit 5 of their tens digit is taken as the PM flag |
| Max31328.TwelveHourRegister | src/MAX31328/MAX31328.cpp:417-425 | a 12-hour hours register always has the 12/24-hour flag set |
| Max31328.ClockHour | src/MAX31328/MAX31328.cpp:417-425 | the 12-hour clock face: midnight and noon are 12, other hours are taken modulo 12 |
| Max31328.TwelveHourDecode | src/MAX31328/MAX31328.cpp:417-425 | get_time decodes every 12-hour register correctly except 12 AM, which it returns as hour 12 instead of 0 |
| Max31328.TwelveHourRead | src/MAX31328/MAX31328.cpp:417-425 | get_time's 12-hour rule: add 12 when PM is set and the hour is not 12 |
| Max31328.PeriodMasks | src/MAX31328/MAX31328.cpp:266-303 | exactly the six periods are accepted; each clears a longer prefix of the masks, and MONTHLY alone selects the date |
| Max31328.EncodeAlarm | src/MAX31328/MAX31328.cpp:256-316 | -1 exactly for a once-per-second alarm 2 or an unknown period; otherwise a 4-byte block |
| Max31328.AlarmBytes | src/MAX31328/MAX31328.cpp:324-329 | alarm 1 writes the whole block, alarm 2 the block without its seconds byte |
| Max31328.AlarmRead | src/MAX31328/MAX31328.cpp:347-353 | get_alarm decodes a 4-byte block, with a zero seconds byte for alarm 2 |
| Max31328.AlarmPeriodRoundTrip | src/MAX31328/MAX31328.cpp:256-381 | get_alarm's chain maps the masks set_alarm stores back to the period, for both alarms |
| Max31328.AlarmRoundTrip | src/MAX31328/MAX31328.cpp:256-394 | set_alarm then get_alarm through the registers gives the period, the minutes and hour, the seconds (0 for alarm 2), and the date or weekday |
| Max31328.IsEnabledBit | src/MAX31328/MAX31328.cpp:387-391 | get_alarm's enable test reads A1IE for alarm 1 and A2IE for alarm 2 |
| Max31328.IrqEnableBits | src/MAX31328/MAX31328.cpp:452-472 | irq_enable sets INTCN and the requested enables and keeps every other CONTROL bit |
| Max31328.IntcnAndEnables | src/MAX31328/MAX31328.cpp:452-472 | ORing INTCN and a mask into CONTROL sets both and keeps every other bit |
| Max31328.IrqEnableThenEnabled | src/MAX31328/MAX31328.cpp:387-472 | after irq_enable for an alarm, or for ALL, get_alarm reports that alarm enabled |
| Max31328.IrqDisableOne | src/MAX31328/MAX31328.cpp:474-495 | irq_disable for one id clears exactly that id's bits |
| Max31328.IrqDisableAllClearsControl | src/MAX31328/MAX31328.cpp:474-495 | irq_disable(ALL) writes 0 to the whole CONTROL register, because of the final `&= ~id` with id 0xFF |
| Max31328.IrqClearFlagBits | src/MAX31328/MAX31328.cpp:497-515 | irq_clear_flag clears both alarm flags for ALL, or the bits of `id`, and keeps the other STATUS bits |
| Max31328.SquareWaveConfig | src/MAX31328/MAX31328.cpp:517-537 | set_square_wave_frequency clears INTCN, sets RS to the low two bits of the frequency and keeps every other field |
| Max31328.ConversionPending | src/MAX31328/MAX31328.cpp:539-583 | after start_temp_conversion's update, is_temp_ready's CONV test reports busy, and no other CONTROL field changes |
| Max31328.Rtc.constructor | src/MAX31328/MAX31328.cpp:113-121 | a driver over the given register contents |
| Max31328.Rtc.ReadRegister | src/MAX31328/MAX31328.cpp:45-87 | a burst read returns the window of registers, or fails with -1 |
| Max31328.Rtc.WriteRegister | src/MAX31328/MAX31328.cpp:89-110 | a burst write stores all bytes, or fails with the status 1..4 and stores nothing |
| Max31328.Rtc.ReadOne | src/MAX31328/MAX31328.cpp:45-87 | a one-byte read returns that register, or fails with -1 |
| Max31328.Rtc.WriteOne | src/MAX31328/MAX31328.cpp:89-110 | a one-byte write sets exactly that register, or fails and changes nothing |
| Max31328.Rtc.GetStatus | src/MAX31328/MAX31328.cpp:128-145 | the decoded STATUS register, or -1 with the caller's record untouched |
| Max31328.Rtc.SetStatus | src/MAX31328/MAX31328.cpp:147-161 | STATUS holds the encoded record, or nothing changes |
| Max31328.Rtc.GetConfiguration | src/MAX31328/MAX31328.cpp:163-182 | the decoded CONTROL register, or -1 with the caller's record untouched |
| Max31328.Rtc.SetConfiguration | src/MAX31328/MAX31328.cpp:184-200 | CONTROL holds the encoded record, or nothing changes |
| Max31328.Rtc.SetTime | src/MAX31328/MAX31328.cpp:202-254 | years before 2000 give -1 and no write; otherwise the 7 time registers hold the encoded block, or nothing changes |
| Max31328.Rtc.GetTime | src/MAX31328/MAX31328.cpp:396-450 | the decoded time block, or -1 with the caller's time untouched |
| Max31328.Rtc.SetAlarm | src/MAX31328/MAX31328.cpp:256-335 | refused periods give -1 and no write; otherwise the alarm registers hold the encoded bytes, or nothing changes |
| Max31328.Rtc.GetAlarm | src/MAX31328/MAX31328.cpp:337-394 | the decoded alarm time, period and enable flag; a failed first read leaves all three as they were, a failed CONTROL read only the enable flag |
| Max31328.Rtc.IrqEnable | src/MAX31328/MAX31328.cpp:452-472 | CONTROL updated by irq_enable's rule, or nothing changes |
| Max31328.Rtc.IrqDisable | src/MAX31328/MAX31328.cpp:474-495 | CONTROL updated by irq_disable's rule, or nothing changes |
| Max31328.Rtc.IrqClearFlag | src/MAX31328/MAX31328.cpp:497-515 | STATUS updated by irq_clear_flag's rule, or nothing changes |
| Max31328.Rtc.SetSquareWaveFrequency | src/MAX31328/MAX31328.cpp:517-537 | CONTROL updated with the frequency and INTCN cleared, or nothing changes |
| Max31328.Rtc.StartTempConversion | src/MAX31328/MAX31328.cpp:539-564 | a busy chip gives -3 and no write; success means the chip was idle and CONV is now set with every other bit kept |
| Max31328.Rtc.IsTempReady | src/MAX31328/MAX31328.cpp:566-583 | 0 only when CONV is clear, -3 only when it is set, otherwise -1 for a failed read |
| Max31341.SetBitVal | src/MAX31341/MAX31341.cpp:37 | `SET_BIT_VAL` never sets a bit outside the field's mask |
| Max31341.TimeBlockSpan | src/MAX31341/MAX31341.cpp:309-344 | the time block SECONDS..YEAR does not reach CFG2, so the later CFG2 read sees the register as it was |
| Max31341.Layout | src/MAX31341/MAX31341.cpp:43-48 | ALL_IRQ is the six interrupt enables, the trickle codes fit D_TRICKLE, and the NVRAM has 64 bytes |
| Max31341.DecodeStatus | src/MAX31341/MAX31341.cpp:149-168 | each status flag comes from its own bit of INT_STATUS |
| Max31341.EncodeConfig | src/MAX31341/MAX31341.cpp:198-221 | set_configuration writes two bytes and sets no CFG2 bit outside its fields |
| Max31341.ConfigRoundTrip | src/MAX31341/MAX31341.cpp:170-221 | a record set_configuration writes reads back unchanged through get_configuration |
| Max31341.Cfg1Low | src/MAX31341/MAX31341.cpp:203-208 | SWRSTN, RS and OSCONZ set in CFG1 read back |
| Max31341.Cfg1High | src/MAX31341/MAX31341.cpp:203-208 | CLKSEL, INTCN and ECLK set in CFG1 read back |
| Max31341.Cfg2RoundTrip | src/MAX31341/MAX31341.cpp:210-214 | every CFG2 field set_configuration writes reads back |
| Max31341.EncodeTime | src/MAX31341/MAX31341.cpp:265-307 | years before 2000 give -1; otherwise the 7-byte block carries the century bit of the year |
| Max31341.TimeRoundTrip | src/MAX31341/MAX31341.cpp:223-307 | for every in-range time, whatever the local block held, get_time decodes set_time's block to the same time |
| Max31341.PulseBits | src/MAX31341/MAX31341.cpp:321-344 | set_time's three CFG2 writes drive SET_RTC low, high, low and keep every other CFG2 bit as read |
| Max31341.PulseWrites | src/MAX31341/MAX31341.cpp:326-344 | the pulse is three complete one-byte writes |
| Max31341.PulseWriteShape | src/MAX31341/MAX31341.cpp:326-344 | every pulse write is a one-byte write to CFG2 |
| Max31341.PulseStates | src/MAX31341/MAX31341.cpp:326-344 | each intermediate state of the pulse is the effect of the pulse writes made so far |
| Max31341.PulseFinal | src/MAX31341/MAX31341.cpp:326-344 | after the whole pulse only CFG2 has changed, to its last written byte |
| Max31341.SetTimeWrites | src/MAX31341/MAX31341.cpp:309-344 | a successful set_time makes four complete writes |
| Max31341.SetTimeEffect | src/MAX31341/MAX31341.cpp:265-348 | after all of set_time's writes the time registers hold the block, CFG2 holds its old value with SET_RTC cleared, and nothing else changes |
| Max31341.BlockKeepsCfg2 | src/MAX31341/MAX31341.cpp:309-324 | writing the time block leaves CFG2 as it was |
| Max31341.SetTimeSent | src/MAX31341/MAX31341.cpp:309-344 | the block write followed by the first `m` pulse writes is the first `m + 1` writes of set_time, on the log and on the registers |
| Max31341.PeriodMasks | src/MAX31341/MAX31341.cpp:355-402 | unknown periods and a once-per-second alarm 2 are refused; each accepted period clears a longer prefix of the masks, and MONTHLY alone selects the date |
| Max31341.ApplyMasks | src/MAX31341/MAX31341.cpp:365-402 | the masked block is 4 bytes |
| Max31341.AlarmValues | src/MAX31341/MAX31341.cpp:407-417 | the block with time values stored is 4 bytes |
| Max31341.EncodeAlarm | src/MAX31341/MAX31341.cpp:350-421 | -1 for a refused period; then the uninitialised return code, when it is not 0, is returned; otherwise a 4-byte block |
| Max31341.AlarmBytes | src/MAX31341/MAX31341.cpp:428-433 | alarm 1 writes the whole block, alarm 2 all but its seconds byte |
| Max31341.AlarmRead | src/MAX31341/MAX31341.cpp:444-450 | get_alarm decodes a 4-byte block |
| Max31341.ChainPeriod | src/MAX31341/MAX31341.cpp:474-480 | get_alarm's period chain always yields one of the six periods |
| Max31341.ChainRoundTrip | src/MAX31341/MAX31341.cpp:355-480 | for every period set_alarm accepts, get_alarm's chain over its masks gives the period back |
| Max31341.FlagRoundTrip | src/MAX31341/MAX31341.cpp:365-369 | a mask flag at bit 7 or the selector at bit 6 reads back as stored |
| Max31341.MasksApplied | src/MAX31341/MAX31341.cpp:365-402 | the masks set_alarm stores read back as stored |
| Max31341.MasksKept | src/MAX31341/MAX31341.cpp:407-417 | storing the time values leaves every mask and the selector as they were |
| Max31341.AlarmPeriodRoundTrip | src/MAX31341/MAX31341.cpp:350-480 | the period set_alarm encodes is the one get_alarm finds in the same block |
| Max31341.AlarmTimeRoundTrip | src/MAX31341/MAX31341.cpp:350-466 | decoding set_alarm's block gives back the seconds, minutes, hour and the date (MONTHLY) or weekday; the rest of the caller's record is kept |
| Max31341.AlarmRegistersRoundTrip | src/MAX31341/MAX31341.cpp:428-450 | through the registers, get_alarm reads back the written block, with alarm 2's seconds as 0 |
| Max31341.Alarm2IgnoresSeconds | src/MAX31341/MAX31341.cpp:444-480 | alarm 2's period and time do not depend on the seconds byte it has no register for |
| Max31341.IsEnabledBits | src/MAX31341/MAX31341.cpp:494-498 | get_alarm tests INT_EN bit 1 for alarm 1 and bit 2 for alarm 2, because it shifts by the id masks |
| Max31341.EnabledAlarmReportedDisabled | src/MAX31341/MAX31341.cpp:494-498 | enabling only alarm 1's interrupt leaves get_alarm reporting alarm 1 disabled |
| Max31341.IrqMask | src/MAX31341/MAX31341.cpp:856-860 | the INT_EN bits an id names: ALL_IRQ for INTR_ID_ALL, else the id itself |
| Max31341.IrqEnableByte | src/MAX31341/MAX31341.cpp:846-865 | irq_enable sets the id's enables and changes no other bit |
| Max31341.IrqDisableByte | src/MAX31341/MAX31341.cpp:867-886 | irq_disable clears the id's enables and changes no other bit |
| Max31341.PowerModeByte | src/MAX31341/MAX31341.cpp:503-519 | D_MODE takes the mode, nothing else changes |
| Max31341.ComparatorByte | src/MAX31341/MAX31341.cpp:521-537 | because of `val8 &= BREF`, every bit outside BREF is cleared and the old BREF bits stay set under the new ones |
| Max31341.ComparatorCannotLower | src/MAX31341/MAX31341.cpp:531-532 | a lower threshold cannot replace a higher one: 2.2 V stays after asking for 1.3 V |
| Max31341.SupplyByte | src/MAX31341/MAX31341.cpp:539-567 | manual VCC or AIN selection, or automatic selection keeping the backup bit; no other bit changes |
| Max31341.TrickleByte | src/MAX31341/MAX31341.cpp:569-578 | the resistor code in D_TRICKLE and every other bit 0; a listed code is written as is |
| Max31341.SquareWaveByte | src/MAX31341/MAX31341.cpp:591-607 | RS takes the frequency, nothing else changes |
| Max31341.SyncDelayByte | src/MAX31341/MAX31341.cpp:609-625 | SYNC_DELAY takes the delay, nothing else changes |
| Max31341.ClkinByte | src/MAX31341/MAX31341.cpp:627-640 | CLKSEL takes the frequency, nothing else changes |
| Max31341.ClkinSyncDelay | src/MAX31341/MAX31341.cpp:645-649 | a 1 Hz clock input gets the under-1 s delay, any other the under-100 ms delay |
| Max31341.PinSyncDelay | src/MAX31341/MAX31341.cpp:696-702 | the clock-input pin gets the under-1 s delay, the interrupt pin the under-10 ms delay |
| Max31341.TimerInitByte | src/MAX31341/MAX31341.cpp:707-727 | the timer disabled and paused, TRPT and TFS as asked, bits 3, 6 and 7 kept |
| Max31341.TimerControlByte | src/MAX31341/MAX31341.cpp:751-821 | TE and TPAUSE take the given values, every other TIMER_CFG bit is kept |
| Max31341.DataRetentionBytes | src/MAX31341/MAX31341.cpp:823-844 | OSCONZ and DATA_RETEN both follow `enable`, no other CFG1 or CFG2 bit changes |
| Max31341.NvramAddress | src/MAX31341/MAX31341.cpp:987 | an offset inside the NVRAM addresses RAM_START plus the offset |
| Max31341.NvramLength | src/MAX31341/MAX31341.cpp:987 | the length is passed on as a `uint8_t` |
| Max31341.NvramInside | src/MAX31341/MAX31341.cpp:972-1010 | an access that passes the bounds check and has a non-negative offset stays inside RAM_START..RAM_END |
| Max31341.Rtc.constructor | src/MAX31341/MAX31341.cpp:118-127 | a driver over the given registers with an empty write log |
| Max31341.Rtc.ReadRegister | src/MAX31341/MAX31341.cpp:50-92 | a burst read returns the window of registers, or fails with -1 |
| Max31341.Rtc.WriteRegister | src/MAX31341/MAX31341.cpp:94-115 | a burst write stores all bytes and is logged, or fails with 1..4 and changes nothing |
| Max31341.Rtc.ReadOne | src/MAX31341/MAX31341.cpp:50-92 | a one-byte read returns that register, or fails with -1 |
| Max31341.Rtc.WriteOne | src/MAX31341/MAX31341.cpp:94-115 | a one-byte write sets exactly that register and is logged, or changes nothing |
| Max31341.Rtc.Update | src/MAX31341/MAX31341.cpp:503-519 | a read-modify-write: the register takes its update and one write is logged, or a failed read or write leaves everything unchanged |
| Max31341.Rtc.GetVersion | src/MAX31341/MAX31341.cpp:138-147 | REVID of REV_ID, taken from the uninitialised byte when the read fails |
| Max31341.Rtc.GetStatus | src/MAX31341/MAX31341.cpp:149-168 | the decoded INT_STATUS, or -1 with the caller's record untouched |
| Max31341.Rtc.GetConfiguration | src/MAX31341/MAX31341.cpp:170-196 | the decoded CFG1 and CFG2, or -1 with the caller's record untouched |
| Max31341.Rtc.SetConfiguration | src/MAX31341/MAX31341.cpp:198-221 | CFG1 and CFG2 hold the encoded record in one logged write, or nothing changes |
| Max31341.Rtc.GetTime | src/MAX31341/MAX31341.cpp:223-263 | the decoded time block, or -1 with the caller's time untouched |
| Max31341.Rtc.SetTime | src/MAX31341/MAX31341.cpp:265-348 | years before 2000 give -1 and no transfer; otherwise the log gains a prefix of set_time's four writes, the registers hold exactly that prefix's effect, and success means all four went out |
| Max31341.Rtc.LoadTime | src/MAX31341/MAX31341.cpp:309-348 | the block write then the SET_RTC pulse: the writes made are a prefix of the four, success means all four |
| Max31341.Rtc.PulseSetRtc | src/MAX31341/MAX31341.cpp:321-348 | the CFG2 writes made are a prefix of the three pulse writes from the value read, with their effect on the registers; success means all three |
| Max31341.Rtc.WriteNext | src/MAX31341/MAX31341.cpp:326-344 | one more write of a planned sequence: on success the log and registers are those after `k + 1` writes |
| Max31341.Rtc.SetAlarm | src/MAX31341/MAX31341.cpp:350-436 | a refused period gives -1 and no transfer, a nonzero uninitialised return code is returned; otherwise the alarm registers hold the encoded bytes in one logged write, or nothing changes |
| Max31341.Rtc.GetAlarm | src/MAX31341/MAX31341.cpp:438-501 | the decoded time, the chained period and the enable flag; a failed first read leaves all three as they were, a failed INT_EN read only the flag |
| Max31341.Rtc.SetPowerMgmtMode | src/MAX31341/MAX31341.cpp:503-519 | PWR_MGMT updated with the mode, or nothing changes |
| Max31341.Rtc.ComparatorThresholdLevel | src/MAX31341/MAX31341.cpp:521-537 | CFG2 replaced by the comparator byte, or nothing changes |
| Max31341.Rtc.SupplySelect | src/MAX31341/MAX31341.cpp:539-567 | PWR_MGMT updated with the supply selection, or nothing changes |
| Max31341.Rtc.TrickleCharger | src/MAX31341/MAX31341.cpp:569-589 | TRICKLE written without reading: the resistor code to enable, 0 to disable |
| Max31341.Rtc.SetSquareWaveFrequency | src/MAX31341/MAX31341.cpp:591-607 | CFG1 updated with the frequency, or nothing changes |
| Max31341.Rtc.SetClockSyncDelay | src/MAX31341/MAX31341.cpp:609-625 | CLOCK_SYNC updated with the delay, or nothing changes |
| Max31341.Rtc.SetClkinFrequency | src/MAX31341/MAX31341.cpp:627-652 | CLKSEL then the matching sync delay; a failure leaves either nothing or only CFG1 changed |
| Max31341.Rtc.ConfigureIntbClkoutPin | src/MAX31341/MAX31341.cpp:654-673 | INTCN set for the interrupt output, cleared otherwise, nothing else changes |
| Max31341.Rtc.ConfigureIntaClkinPin | src/MAX31341/MAX31341.cpp:675-705 | ECLK set for the clock input, cleared otherwise, then the matching sync delay; a failure leaves either nothing or only CFG1 changed |
| Max31341.Rtc.TimerInit | src/MAX31341/MAX31341.cpp:707-735 | TIMER_CFG updated, then TIMER_INIT written; a failure leaves either nothing or only TIMER_CFG changed |
| Max31341.Rtc.TimerGet | src/MAX31341/MAX31341.cpp:737-749 | TIMER_COUNT, or -1 with the caller's value untouched |
| Max31341.Rtc.TimerControl | src/MAX31341/MAX31341.cpp:751-821 | TIMER_CFG's TE and TPAUSE as timer_start, timer_pause, timer_continue or timer_stop set them, or nothing changes |
| Max31341.Rtc.SetDataRetentionMode | src/MAX31341/MAX31341.cpp:823-844 | CFG1 and CFG2 hold the data-retention bytes in one write, or nothing changes |
| Max31341.Rtc.IrqEnable | src/MAX31341/MAX31341.cpp:846-865 | INT_EN updated by irq_enable's rule, or nothing changes |
| Max31341.Rtc.IrqDisable | src/MAX31341/MAX31341.cpp:867-886 | INT_EN updated by irq_disable's rule, or nothing changes |
| Max31341.Rtc.IrqClearFlag | src/MAX31341/MAX31341.cpp:888-897 | only INT_STATUS is read; the result is 0 or -1 |
| Max31341.Rtc.SwReset | src/MAX31341/MAX31341.cpp:899-932 | SWRSTN cleared to hold the chip in reset, set to release it; nothing else changes |
| Max31341.Rtc.RtcRun | src/MAX31341/MAX31341.cpp:934-965 | OSCONZ cleared to start the oscillator, set to stop it; nothing else changes |
| Max31341.Rtc.NvramWrite | src/MAX31341/MAX31341.cpp:972-990 | -1 and no write past the NVRAM's end, 0 and no transfer for no bytes; on success the registers from RAM_START plus the offset hold the data |
| Max31341.Rtc.NvramRead | src/MAX31341/MAX31341.cpp:992-1010 | the same bounds; a successful read fills the start of the caller's buffer and keeps the rest |
| Max31343.DecodeStatus | src/MAX31343/MAX31343.cpp:139-158 | each status flag from its own bit of STATUS |
| Max31343.EncodeConfig | src/MAX31343/MAX31343.cpp:182-198 | set_configuration sets no CFG1 bit outside its three fields |
| Max31343.ConfigRoundTrip | src/MAX31343/MAX31343.cpp:160-198 | a record set_configuration writes reads back unchanged through get_configuration |
| Max31343.Cfg1RoundTrip | src/MAX31343/MAX31343.cpp:187-189 | ENOSC, I2C_TIMEOUT and DATA_RET read back |
| Max31343.Cfg2RoundTrip | src/MAX31343/MAX31343.cpp:191-193 | SQW_HZ, CLKO_HZ and ENCLKO read back |
| Max31343.EncodeTime | src/MAX31343/MAX31343.cpp:242-288 | years before 2000 give -1; otherwise a 7-byte block with the century bit of the year |
| Max31343.TimeRoundTrip | src/MAX31343/MAX31343.cpp:200-288 | for every in-range time, whatever the local block held, get_time decodes set_time's block to the same time |
| Max31343.PeriodMasks | src/MAX31343/MAX31343.cpp:295-362 | alarm 2 refuses EVERYSECOND, ONETIME and YEARLY, unknown periods are refused; the finer an accepted period, the more masks it sets, and WEEKLY alone selects the weekday |
| Max31343.ApplyMasks | src/MAX31343/MAX31343.cpp:309-362 | the masked block is 6 bytes and keeps the year byte |
| Max31343.AlarmValues | src/MAX31343/MAX31343.cpp:367-387 | the block with time values stored is 6 bytes |
| Max31343.EncodeAlarm | src/MAX31343/MAX31343.cpp:290-387 | -1 exactly for a refused period or a year before 2000; otherwise a 6-byte block |
| Max31343.AlarmBytes | src/MAX31343/MAX31343.cpp:395-400 | alarm 1 writes the whole block; alarm 2 writes minutes, hours and day/date |
| Max31343.AlarmRead | src/MAX31343/MAX31343.cpp:415-421 | get_alarm decodes a 6-byte block |
| Max31343.AlarmKey | src/MAX31343/MAX31343.cpp:446-484 | the packed mask key fits 7 bits for alarm 1 and 4 bits for alarm 2 |
| Max31343.KeyRoundTrip | src/MAX31343/MAX31343.cpp:295-504 | for every accepted period, get_alarm's switch over the key of its masks gives the period back |
| Max31343.FlagRoundTrip | src/MAX31343/MAX31343.cpp:310-316 | a mask flag at bit 7 or the selector at bit 6 reads back as stored |
| Max31343.MasksApplied | src/MAX31343/MAX31343.cpp:309-362 | the masks set_alarm stores read back as stored |
| Max31343.MasksKept | src/MAX31343/MAX31343.cpp:367-387 | storing the time values leaves every mask as it was |
| Max31343.AlarmPeriodRoundTrip | src/MAX31343/MAX31343.cpp:290-504 | the period set_alarm encodes is the one get_alarm's switch finds in the same block |
| Max31343.AlarmFieldsRead | src/MAX31343/MAX31343.cpp:367-440 | every field set_alarm stores reads back through get_alarm's BCD decoding: the month one higher, the year without its century |
| Max31343.AlarmTimeRoundTrip | src/MAX31343/MAX31343.cpp:290-440 | decoding set_alarm's block gives back every field, but a year 2100..2199 comes back a century early because get_alarm always adds 100 |
| Max31343.Alarm2ReadBack | src/MAX31343/MAX31343.cpp:395-421 | for alarm 2, get_alarm decodes a zero seconds byte, the three bytes set_alarm wrote at ALM2_MIN, the TIMER_COUNT register that follows them, and the uninitialised year byte |
| Max31343.Alarm2TimeReadBack | src/MAX31343/MAX31343.cpp:395-440 | set_alarm then get_alarm for alarm 2 through the registers returns the minutes, hour and date or weekday with seconds 0, but takes the month from TIMER_COUNT and the year from the uninitialised byte |
| Max31343.IsEnabledBits | src/MAX31343/MAX31343.cpp:515-519 | get_alarm tests INT_EN bit 1 for alarm 1 and bit 2 for alarm 2, because it shifts by the id masks |
| Max31343.EnabledAlarmReportedDisabled | src/MAX31343/MAX31343.cpp:515-519 | enabling only alarm 1's interrupt leaves get_alarm reporting alarm 1 disabled |
| Max31343.IrqMask | src/MAX31343/MAX31343.cpp:871-890 | the INT_EN bits an id names: ALL_IRQ for INTR_ID_ALL, else the id itself |
| Max31343.IrqEnableByte | src/MAX31343/MAX31343.cpp:871-890 | irq_enable sets the id's enables and changes no other bit |
| Max31343.IrqDisableByte | src/MAX31343/MAX31343.cpp:892-911 | irq_disable clears the id's enables and changes no other bit |
| Max31343.ThresholdByte | src/MAX31343/MAX31343.cpp:524-540 | PFVT takes the threshold, nothing else changes |
| Max31343.SupplyByte | src/MAX31343/MAX31343.cpp:542-570 | manual VCC or backup selection, or automatic selection keeping the backup bit; no other bit changes |
| Max31343.TrickleByte | src/MAX31343/MAX31343.cpp:572-584 | the enable code 5 in TCHE and the path in D_TRICKLE |
| Max31343.SquareWaveByte | src/MAX31343/MAX31343.cpp:602-618 | SQW_HZ takes the frequency, nothing else changes |
| Max31343.ClkoEnableByte | src/MAX31343/MAX31343.cpp:620-638 | ENCLKO set, CLKO_HZ takes the frequency, the square-wave field kept |
| Max31343.TimerInitByte | src/MAX31343/MAX31343.cpp:656-685 | the timer reset and paused, TRPT and TFS as asked, the top three bits kept |
| Max31343.TimerControlByte | src/MAX31343/MAX31343.cpp:701-771 | TE and TPAUSE take the given values, every other TIMER_CONFIG bit is kept |
| Max31343.DataRetentionByte | src/MAX31343/MAX31343.cpp:773-794 | data retention on stops the oscillator, off restarts it; nothing else changes |
| Max31343.TempConversionByte | src/MAX31343/MAX31343.cpp:796-819 | automatic mode with the given interval, or a one-shot conversion with automatic mode off |
| Max31343.TempQuarters | src/MAX31343/MAX31343.cpp:841-869 | the temperature count in quarter degrees lies in -512..511 |
| Max31343.TempTwosComplement | src/MAX31343/MAX31343.cpp:855-866 | get_temp's own negation reads the 10-bit count as a two's-complement number |
| Max31343.NvramAddress | src/MAX31343/MAX31343.cpp:987-1005 | an offset inside the NVRAM addresses RAM_REG_START plus the offset |
| Max31343.NvramLength | src/MAX31343/MAX31343.cpp:987-1005 | the length is passed on as a `uint8_t` |
| Max31343.OrElse | src/MAX31343/MAX31343.cpp:452-504 | an optional value, or the default when there is none |
| Max31343.Rtc.constructor | src/MAX31343/MAX31343.cpp:120-128 | a driver over the given registers |
| Max31343.Rtc.ReadRegister | src/MAX31343/MAX31343.cpp:52-94 | a burst read returns the window of registers, or fails with -1 |
| Max31343.Rtc.WriteRegister | src/MAX31343/MAX31343.cpp:96-117 | a burst write stores all bytes, or fails with 1..4 and stores nothing |
| Max31343.Rtc.ReadOne | src/MAX31343/MAX31343.cpp:52-94 | a one-byte read returns that register, or fails with -1 |
| Max31343.Rtc.WriteOne | src/MAX31343/MAX31343.cpp:96-117 | a one-byte write sets exactly that register, or changes nothing |
| Max31343.Rtc.Update | src/MAX31343/MAX31343.cpp:524-540 | a read-modify-write: the register takes its update, or a failed read or write leaves everything unchanged |
| Max31343.Rtc.GetStatus | src/MAX31343/MAX31343.cpp:139-158 | the decoded STATUS, or -1 with the caller's record untouched |
| Max31343.Rtc.GetConfiguration | src/MAX31343/MAX31343.cpp:160-180 | the decoded CFG1 and CFG2, or -1 with the caller's record untouched |
| Max31343.Rtc.SetConfiguration | src/MAX31343/MAX31343.cpp:182-198 | CFG1 and CFG2 hold the encoded record, or nothing changes |
| Max31343.Rtc.SetTime | src/MAX31343/MAX31343.cpp:242-288 | years before 2000 give -1 and no write; otherwise the time registers hold the encoded block, or nothing changes |
| Max31343.Rtc.GetTime | src/MAX31343/MAX31343.cpp:200-240 | the decoded time block, or -1 with the caller's time untouched |
| Max31343.Rtc.SetAlarm | src/MAX31343/MAX31343.cpp:290-403 | refused periods and early years give -1 and no write; otherwise the alarm registers hold the encoded bytes, or nothing changes |
| Max31343.Rtc.GetAlarm | src/MAX31343/MAX31343.cpp:405-522 | the decoded time, the switched period and the enable flag; a failed first read leaves all three as they were, a failed INT_EN read only the flag |
| Max31343.Rtc.PowerfailThresholdLevel | src/MAX31343/MAX31343.cpp:524-540 | PWR_MGMT updated with the threshold, or nothing changes |
| Max31343.Rtc.SupplySelect | src/MAX31343/MAX31343.cpp:542-570 | PWR_MGMT updated with the supply selection, or nothing changes |
| Max31343.Rtc.TrickleChargerEnable | src/MAX31343/MAX31343.cpp:572-584 | TRICKLE written without reading, or nothing changes |
| Max31343.Rtc.TrickleChargerDisable | src/MAX31343/MAX31343.cpp:586-600 | TCHE cleared and the path kept, or nothing changes |
| Max31343.Rtc.SetSquareWaveFrequency | src/MAX31343/MAX31343.cpp:602-618 | CFG2 updated with the frequency, or nothing changes |
| Max31343.Rtc.ClkoEnable | src/MAX31343/MAX31343.cpp:620-638 | CFG2 updated with ENCLKO and the frequency, or nothing changes |
| Max31343.Rtc.ClkoDisable | src/MAX31343/MAX31343.cpp:640-654 | ENCLKO cleared and the rest of CFG2 kept, or nothing changes |
| Max31343.Rtc.TimerInit | src/MAX31343/MAX31343.cpp:656-685 | TIMER_CONFIG updated, then TIMER_INIT written; a failure leaves either nothing or only TIMER_CONFIG changed |
| Max31343.Rtc.TimerGet | src/MAX31343/MAX31343.cpp:687-699 | TIMER_COUNT, or -1 with the caller's value untouched |
| Max31343.Rtc.TimerControl | src/MAX31343/MAX31343.cpp:701-771 | TE and TPAUSE as timer_start, timer_pause, timer_continue or timer_stop set them, or nothing changes |
| Max31343.Rtc.SetDataRetentionMode | src/MAX31343/MAX31343.cpp:773-794 | CFG1 updated by the data-retention rule, or nothing changes |
| Max31343.Rtc.StartTempConversion | src/MAX31343/MAX31343.cpp:796-819 | TS_CONFIG updated by the conversion rule, or nothing changes |
| Max31343.Rtc.IsTempReady | src/MAX31343/MAX31343.cpp:821-839 | 0 only when ONESHOT is clear, -3 only when it is set, otherwise -1 for a failed read |
| Max31343.Rtc.GetTemp | src/MAX31343/MAX31343.cpp:841-869 | the temperature count in quarter degrees, or -1 with the caller's value untouched |
| Max31343.Rtc.IrqEnable | src/MAX31343/MAX31343.cpp:871-890 | INT_EN updated by irq_enable's rule, or nothing changes |
| Max31343.Rtc.IrqDisable | src/MAX31343/MAX31343.cpp:892-911 | INT_EN updated by irq_disable's rule, or nothing changes |
| Max31343.Rtc.IrqClearFlag | src/MAX31343/MAX31343.cpp:913-922 | only STATUS is read; the result is 0 or -1 |
| Max31343.Rtc.SwReset | src/MAX31343/MAX31343.cpp:924-945 | RTC_RESET written 1 to hold the chip in reset, 0 to release it |
| Max31343.Rtc.RtcRun | src/MAX31343/MAX31343.cpp:947-980 | ENOSC set to start the oscillator, cleared to stop it; nothing else changes |
| Max31343.Rtc.NvramWrite | src/MAX31343/MAX31343.cpp:987-1005 | -1 and no write past the NVRAM's end, 0 and no write for no bytes; on success the registers from RAM_REG_START plus the offset hold the data |
| Max31343.Rtc.NvramRead | src/MAX31343/MAX31343.cpp:1007-1025 | the same bounds; a successful read fills the start of the caller's buffer and keeps the rest |
| Max3133xCodec.ErrorCodes | src/MAX3133X/MAX3133X.h:42-55 | the error codes are distinct and negative, and success is 0 |
| Max3133xCodec.MaskBits | src/MAX3133X/MAX3133X.h:181-188 | the interrupt masks are bits 0..6 and INT_ALL is their union; the wakeup and timestamp record masks are their own bits |
| Max3133xCodec.HoursLayout | src/MAX3133X/MAX3133X_registers.h:220-247 | the 24-hour and 12-hour views of the hours register and its format flag do not overlap, and the flag is always HOUR24 or HOUR12 |
| Max3133xCodec.To12Hr | src/MAX3133X/MAX3133X.cpp:1012-1026 | every hour of the day becomes 1..12 with PM exactly from noon on, and converts back |
| Max3133xCodec.To12HrValue | src/MAX3133X/MAX3133X.cpp:1012-1026 | midnight is 12 AM, noon 12 PM, afternoon hours lose 12 |
| Max3133xCodec.Hours24RoundTrip | src/MAX3133X/MAX3133X.cpp:144-258 | every hour written in 24-hour form reads back |
| Max3133xCodec.Hours12Fields | src/MAX3133X/MAX3133X.cpp:203-258 | in 12-hour form the register holds the BCD 12-hour value and the PM flag |
| Max3133xCodec.Hours12Kept | src/MAX3133X/MAX3133X.cpp:203-258 | setting the format flag and PM keeps the 12-hour value |
| Max3133xCodec.HoursFormat | src/MAX3133X/MAX3133X.cpp:203-258 | the format flag written is the format given |
| Max3133xCodec.Code12 | src/MAX3133X/MAX3133X.cpp:36 | the BCD codes of 10, 11 and 12 read as numbers are 16, 17 and 18 |
| Max3133xCodec.Hour12Code | src/MAX3133X/MAX3133X.cpp:144-158 | the raw 12-hour code is below 12 with PM set exactly for 1 PM .. 9 PM, and is never 12 |
| Max3133xCodec.Hours12Decode | src/MAX3133X/MAX3133X.cpp:144-158 | in 12-hour form hours_reg_to_hour returns an hour only for 1 PM .. 9 PM, because it compares the raw BCD value with 12 |
| Max3133xCodec.TimeToRtcRegs | src/MAX3133X/MAX3133X.cpp:203-258 | -4 exactly for an unknown format, else -5 exactly for a year before 2000; otherwise an 8-byte block whose sub-second byte is left as it was |
| Max3133xCodec.TimeRegisters | src/MAX3133X/MAX3133X.cpp:160-201 | rtc_regs_to_time ignores the sub-second byte |
| Max3133xCodec.TimeDecode | src/MAX3133X/MAX3133X.cpp:160-197 | rtc_regs_to_time gives the time whose values the fields hold, the year from the century bit plus the BCD year, and the hour hours_reg_to_hour reports |
| Max3133xCodec.YearBytes | src/MAX3133X/MAX3133X.cpp:160-258 | a century flag and a BCD year byte built from a year read back as that year |
| Max3133xCodec.TimeRoundTrip24 | src/MAX3133X/MAX3133X.cpp:160-258 | in 24-hour form rtc_regs_to_time decodes time_to_rtc_regs's block to the same time, whatever the uninitialised bytes held |
| Max3133xCodec.TimeRoundTrip12 | src/MAX3133X/MAX3133X.cpp:144-258 | in 12-hour form every field but the hour reads back; the hour only for 1 PM .. 9 PM |
| Max3133xCodec.SwitchFrom | src/MAX3133X/MAX3133X.cpp:1028-1076 | the fall-through switch from case `c` clears every mask at or below `c`, and refuses alarm 2 with the code of the first refusing case |
| Max3133xCodec.PeriodMasks | src/MAX3133X/MAX3133X.cpp:1028-1076 | -7 for unknown periods; alarm 2 refuses ONETIME, YEARLY, EVERYMINUTE and EVERYSECOND with -8..-11; otherwise each period clears a longer prefix of the masks |
| Max3133xCodec.ApplyMasks | src/MAX3133X/MAX3133X.cpp:1028-1076 | the masked block is 6 bytes and keeps the year byte |
| Max3133xCodec.TimeToAlarmRegs | src/MAX3133X/MAX3133X.cpp:1078-1112 | -4 exactly for an unknown format, else -5 exactly before 2000; otherwise a 6-byte block |
| Max3133xCodec.EncodeAlarm | src/MAX3133X/MAX3133X.cpp:1137-1157 | a refused period's code, or the time values stored into the masked block |
| Max3133xCodec.AlarmPeriodRoundTrip | src/MAX3133X/MAX3133X.cpp:1028-1232 | for every accepted period, get_alarm's chain gives the period back |
| Max3133xCodec.AlarmHoursFlag | src/MAX3133X/MAX3133X.cpp:1078-1112 | writing the alarm hour keeps the hours register's mask flag |
| Max3133xCodec.AlarmFlagsKept | src/MAX3133X/MAX3133X.cpp:1078-1112 | writing the time values keeps every mask and the day/date selector |
| Max3133xCodec.AlarmStored24 | src/MAX3133X/MAX3133X.cpp:1078-1189 | a block into which a time was stored in 24-hour form decodes through alarm_regs_to_time to that time, the year a century early from 2100 on, the unselected day field cleared |
| Max3133xCodec.AlarmRoundTrip24 | src/MAX3133X/MAX3133X.cpp:1137-1232 | set_alarm's block in 24-hour form decodes to the period, minutes, hour and selected date or weekday, and for alarm 1 also seconds, month and year; a year 2100..2199 comes back a century early |
| Max3133xCodec.AlarmPeriodKept24 | src/MAX3133X/MAX3133X.cpp:1137-1232 | the period set_alarm encodes in 24-hour form is the one get_alarm finds |
| Max3133xCodec.AlarmTime24 | src/MAX3133X/MAX3133X.cpp:1137-1189 | the time set_alarm encodes in 24-hour form decodes to the fields it holds |
| Max3133xCodec.AlarmDecode24 | src/MAX3133X/MAX3133X.cpp:1159-1189 | a block whose fields hold a time's values decodes in 24-hour form to that time |
| Max3133xCodec.AlarmHour12Fields | src/MAX3133X/MAX3133X.cpp:1078-1112 | in 12-hour form the alarm hours register holds the BCD 12-hour value and PM |
| Max3133xCodec.PmBit | src/MAX3133X/MAX3133X.cpp:1078-1112 | setting PM keeps the 12-hour value and reads back as set |
| Max3133xCodec.AlarmHour12 | src/MAX3133X/MAX3133X.cpp:1159-1189 | in 12-hour form the alarm hour reads back only for midnight and 1 PM .. 11 PM; otherwise the caller's hour is kept |
| Max3133xCodec.IsEnabledBit0 | src/MAX3133X/MAX3133X.cpp:1239-1242 | because `==` binds tighter than `&`, both alarms are reported enabled exactly when bit 0 (A1IE) is set |
| Max3133xCodec.TimerControlBits | src/MAX3133X/MAX3133X.cpp:783-841 | TE and TPAUSE take the given values, no other TIMER_CONFIG bit changes |
| Max3133xCodec.TimerInitBits | src/MAX3133X/MAX3133X.cpp:715-757 | TE 0, TPAUSE 1, TRPT the repeat flag, TFS the frequency, the top bits kept |
| Max3133xCodec.SupplyBits | src/MAX3133X/MAX3133X.cpp:920-945 | only the two selection bits change, the backup one only under manual selection |
| Max3133xCodec.TrickleBits | src/MAX3133X/MAX3133X.cpp:947-958 | the charger enabled with the resistor and diode code; bits 4..7 are whatever the local held |
| Max3133xCodec.SwapBytes | src/MAX3133X/MAX3133X.cpp:37 | `SWAPBYTES` maps 16-bit values to 16-bit values |
| Max3133xCodec.TimerCountRoundTrip | src/MAX3133X/MAX3133X.cpp:736-781 | a 16-bit count goes out most significant byte first and reads back unchanged |
| Max3133xCodec.TimerInitWire | src/MAX3133X/MAX3133X.cpp:736-757 | timer_init's swapped value is sent high byte first |
| Max3133xCodec.TimerCountBytes | src/MAX3133X/MAX3133X.cpp:771-781 | timer_get reads the first byte as the high byte |
| Max3133xCodec.TimerCountValue | src/MAX3133X/MAX3133X.cpp:771-781 | the count timer_get returns from its two bytes |
| Max3133xCodec.RecordMasks | src/MAX3133X/MAX3133X.cpp:683-713 | every combination of the three record masks is accepted, and so is any value up to 0x38, even one with other bits |
| Max3133xCodec.Config1RoundTrip | src/MAX3133X/MAX3133X.cpp:398-467 | every RTC_CONFIG1 field rtc_config writes reads back through get_rtc_config |
| Max3133xCodec.Config2RoundTrip | src/MAX3133X/MAX3133X.cpp:420-495 | every RTC_CONFIG2 field the chip has reads back |
| Max3133xCodec.BankAddress | src/MAX3133X/MAX3133X.cpp:967-992 | a bank address computed in `uint8_t` wraps at 256 and is exact when it fits |
| Max3133xCodec.TimestampIsTime | src/MAX3133X/MAX3133X.cpp:298-335 | a timestamp bank decodes as the time block without its day register, the weekday left as it was |
| Max3133xCodec.Alarm2Registers | src/MAX3133X/MAX3133X.cpp:1191-1232 | alarm 2's period and time depend only on its minutes, hours and day/date registers |
| Max3133xCodec.Trigger | src/MAX3133X/MAX3133X.cpp:967-992 | the trigger is the low four flag bits, 0 exactly when none is set |
| Max3133x.ChipLayouts | src/MAX3133X/MAX3133X.cpp:1247-1384 | both chips' address tables put SECONDS right after SECONDS_1_128, and keep the alarm and timestamp blocks apart |
| Max3133x.Rtc.constructor | src/MAX3133X/MAX3133X.cpp:41-49 | a driver for one chip, with that chip's address table, the given registers and an empty write log |
| Max3133x.Rtc.ReadRegister | src/MAX3133X/MAX3133X.cpp:70-104 | a burst read returns the window of registers, or a read error code |
| Max3133x.Rtc.WriteRegister | src/MAX3133X/MAX3133X.cpp:106-129 | a burst write stores all bytes and is logged, or a write error code and nothing changes |
| Max3133x.Rtc.ReadOne | src/MAX3133X/MAX3133X.cpp:70-104 | a one-byte read returns that register, or a read error code |
| Max3133x.Rtc.WriteOne | src/MAX3133X/MAX3133X.cpp:106-129 | a one-byte write sets exactly that register and is logged, or changes nothing |
| Max3133x.Rtc.SetBitField | src/MAX3133X/MAX3133X.cpp:131-142 | on success the field holds the value and nothing else changes; the write is skipped exactly when the field already held it |
| Max3133x.Rtc.SwResetAssert | src/MAX3133X/MAX3133X.cpp:373-378 | SWRST set, or nothing changes |
| Max3133x.Rtc.SwResetRelease | src/MAX3133X/MAX3133X.cpp:380-385 | SWRST cleared, or nothing changes |
| Max3133x.Rtc.SwReset | src/MAX3133X/MAX3133X.cpp:387-396 | assert then release: SWRST ends cleared; a failure leaves it as it was or set |
| Max3133x.Rtc.SetAlarm1AutoClear | src/MAX3133X/MAX3133X.cpp:497-502 | A1AC takes the value, or nothing changes |
| Max3133x.Rtc.SetDinPolarity | src/MAX3133X/MAX3133X.cpp:504-509 | DIP takes the value, or nothing changes |
| Max3133x.Rtc.DataRetentionModeConfig | src/MAX3133X/MAX3133X.cpp:511-526 | DATA_RET follows `enable`, or nothing changes |
| Max3133x.Rtc.I2cTimeoutConfig | src/MAX3133X/MAX3133X.cpp:528-543 | I2C_TIMEOUT follows `enable`, or nothing changes |
| Max3133x.Rtc.OscillatorConfig | src/MAX3133X/MAX3133X.cpp:545-560 | EN_OSC follows `enable`, or nothing changes |
| Max3133x.Rtc.DinSleepEntryConfig | src/MAX3133X/MAX3133X.cpp:574-589 | DSE follows `enable` on a MAX31334, or nothing changes |
| Max3133x.Rtc.DinPinDebounceConfig | src/MAX3133X/MAX3133X.cpp:591-606 | DDB follows `enable` on a MAX31334, or nothing changes |
| Max3133x.Rtc.ClkoutConfig | src/MAX3133X/MAX3133X.cpp:608-623 | ENCLKO follows `enable`, or nothing changes |
| Max3133x.Rtc.SetClkoFreq | src/MAX3133X/MAX3133X.cpp:625-630 | CLKO_HZ takes the value, or nothing changes |
| Max3133x.Rtc.TimestampFunctionEnable | src/MAX3133X/MAX3133X.cpp:645-650 | TSE set, or nothing changes |
| Max3133x.Rtc.TimestampFunctionDisable | src/MAX3133X/MAX3133X.cpp:652-657 | TSE cleared, or nothing changes |
| Max3133x.Rtc.TimestampRegistersReset | src/MAX3133X/MAX3133X.cpp:659-664 | TSR set, or nothing changes |
| Max3133x.Rtc.TimestampOverwriteConfig | src/MAX3133X/MAX3133X.cpp:666-681 | TSOW follows `enable`, or nothing changes |
| Max3133x.Rtc.SleepConfig | src/MAX3133X/MAX3133X.cpp:843-855 | SLP set to enter sleep, cleared to exit, or nothing changes |
| Max3133x.Rtc.SetWaitStateTimeout | src/MAX3133X/MAX3133X.cpp:857-862 | WSTO takes the value, or nothing changes |
| Max3133x.Rtc.BatteryVoltageDetectorConfig | src/MAX3133X/MAX3133X.cpp:903-918 | EN_VBAT_DETECT follows `enable`, or nothing changes |
| Max3133x.Rtc.TrickleChargerDisable | src/MAX3133X/MAX3133X.cpp:960-965 | EN_TRICKLE cleared, or nothing changes |
| Max3133x.Rtc.OscillatorFlagConfig | src/MAX3133X/MAX3133X.cpp:1004-1010 | DOSF is set to the negation of `enable`, because the bit disables the flag; a failed step changes nothing |
| Max3133x.Rtc.GetReg | src/MAX3133X/MAX3133X.cpp:337-345 | the raw STATUS or INT_EN register, or a read error with the caller's value untouched |
| Max3133x.Rtc.GetClkoFreq | src/MAX3133X/MAX3133X.cpp:632-643 | CLKO_HZ in 0..3, or a read error with the caller's value untouched |
| Max3133x.Rtc.GetSleepState | src/MAX3133X/MAX3133X.cpp:562-572 | the SLST bit, 0 or 1, or a read error |
| Max3133x.Rtc.GetWaitStateTimeout | src/MAX3133X/MAX3133X.cpp:864-875 | WSTO in 0..7, or a read error with the caller's value untouched |
| Max3133x.Rtc.GetRtcTimeFormat | src/MAX3133X/MAX3133X.cpp:1124-1135 | the hours register's format flag, always HOUR24 or HOUR12, or a read error |
| Max3133x.Rtc.InterruptEnable | src/MAX3133X/MAX3133X.cpp:347-358 | INT_EN gains the mask's bits, or nothing changes |
| Max3133x.Rtc.InterruptDisable | src/MAX3133X/MAX3133X.cpp:360-371 | INT_EN loses the mask's bits, or nothing changes |
| Max3133x.Rtc.TimestampRecordEnable | src/MAX3133X/MAX3133X.cpp:683-697 | a mask above 0x38 gives -6 and no transfer; otherwise TIMESTAMP_CONFIG gains the mask's bits, or a bus error changes nothing |
| Max3133x.Rtc.TimestampRecordDisable | src/MAX3133X/MAX3133X.cpp:699-713 | a mask above 0x38 gives -6 and no transfer; otherwise TIMESTAMP_CONFIG loses the mask's bits, or a bus error changes nothing |
| Max3133x.Rtc.WakeupEnable | src/MAX3133X/MAX3133X.cpp:877-888 | SLEEP_CONFIG gains the mask's bits, or nothing changes |
| Max3133x.Rtc.WakeupDisable | src/MAX3133X/MAX3133X.cpp:890-901 | SLEEP_CONFIG loses the mask's bits, or nothing changes |
| Max3133x.Rtc.TimerInit | src/MAX3133X/MAX3133X.cpp:715-757 | TIMER_CONFIG updated, then the initial count written (one byte on MAX31331, two high-first on MAX31334); a failure leaves either nothing or only TIMER_CONFIG changed |
| Max3133x.Rtc.TimerGet | src/MAX3133X/MAX3133X.cpp:759-781 | the count (one byte, or two high-first), or a read error |
| Max3133x.Rtc.TimerControlSet | src/MAX3133X/MAX3133X.cpp:783-841 | TE and TPAUSE take the given values, or nothing changes |
| Max3133x.Rtc.TimerStart | src/MAX3133X/MAX3133X.cpp:783-796 | the timer enabled and running, or nothing changes |
| Max3133x.Rtc.TimerPause | src/MAX3133X/MAX3133X.cpp:798-811 | the timer enabled and paused, or nothing changes |
| Max3133x.Rtc.TimerContinue | src/MAX3133X/MAX3133X.cpp:813-826 | the timer enabled and running, or nothing changes |
| Max3133x.Rtc.TimerStop | src/MAX3133X/MAX3133X.cpp:828-841 | the timer disabled and paused, or nothing changes |
| Max3133x.Rtc.SupplySelect | src/MAX3133X/MAX3133X.cpp:920-945 | PWR_MGMT's selection bits updated, or nothing changes |
| Max3133x.Rtc.TrickleChargerEnable | src/MAX3133X/MAX3133X.cpp:947-958 | TRICKLE_REG written without reading, or nothing changes |
| Max3133x.Rtc.RtcConfigSet | src/MAX3133X/MAX3133X.cpp:398-442 | RTC_CONFIG1 then RTC_CONFIG2 written whole; a failure leaves either nothing or only RTC_CONFIG1 changed |
| Max3133x.Rtc.GetRtcConfig | src/MAX3133X/MAX3133X.cpp:444-495 | both registers' fields decoded into the caller's record; a failure leaves the record as it was or with only RTC_CONFIG1's fields |
| Max3133x.Rtc.SetTime | src/MAX3133X/MAX3133X.cpp:281-296 | an encoding error's code and no write; otherwise the 7 registers from SECONDS hold the block without its sub-second byte, or nothing changes |
| Max3133x.Rtc.GetTime | src/MAX3133X/MAX3133X.cpp:260-279 | the 8-byte block from SECONDS_1_128 decoded, or a read error with the caller's time untouched |
| Max3133x.Rtc.SetAlarm | src/MAX3133X/MAX3133X.cpp:1137-1157 | a refused period's code before any transfer; on success the alarm registers hold the block encoded in the chip's hour format; every failure leaves the registers unchanged |
| Max3133x.Rtc.GetAlarm | src/MAX3133X/MAX3133X.cpp:1191-1245 | the decoded time and period in the chip's hour format and the enable flag; a failure keeps the enable flag, and the time and period either keep their values or are decoded |
| Max3133x.Rtc.GetTimestamp | src/MAX3133X/MAX3133X.cpp:967-992 | the bank's trigger, and its decoded time when any flag is set; a failure leaves the record as it was or with only the number and trigger |
| Max3133x.TimeReadBack | src/MAX3133X/MAX3133X.cpp:260-296 | a block written by set_time and read back by get_time decodes as the block itself |
| Max3133x.TimeWindow | src/MAX3133X/MAX3133X.cpp:260-296 | get_time's 8-byte read sees set_time's 7 bytes after its first byte |
| Max3133x.SetThenGetTime | src/MAX3133X/MAX3133X.cpp:203-296 | in 24-hour form get_time after set_time gives back the time that was set |
| Max3133x.Alarm2ReadBack | src/MAX3133X/MAX3133X.cpp:1137-1245 | alarm 2's written bytes, read back into any uninitialised block, decode to the same period and time |

## Left out

- The I²C transport is left out: Wire's transactions, restarts, the slave address and `begin()`. A transfer either succeeds whole or fails with the status the driver returns.
- A burst read that fails part way may leave the caller's buffer partly filled. The model treats a failed read as returning nothing.
- The constructors' checks of a NULL `TwoWire` argument are left out, and so are the NULL checks on `struct tm` arguments. The model has no null references.
- Floating point is left out: MAX31328's `get_temp` and MAX3133X's `offset_configuration` compute with `float` and `double`. MAX31343's `get_temp` is modelled up to its integer count in quarter degrees.
- Delays are left out: `sw_reset` waits between its two steps.
- The MAX3133X sub-second fields are left out: get_time and get_timestamp turn them into a `float` fraction of a second.
- The MAX3133X address tables keep only the registers the modelled operations use, with each chip's address by name. The positional initialisers do not line up with the order of `reg_addr_t`, which lists registers such as STATUS2, INT_EN2 and the temperature registers that the initialisers omit. That misalignment is not modelled.
- The MAX3133X interrupt handler list and the MAX31335 and MAX31329 drivers are declared without implementations and are not part of this model.
- The chip's own behaviour is left out: the clock ticking, the alarms firing, flags cleared on read, and the SET_RTC pulse loading the time. Only register contents are modelled.
- MAX31343.h is not part of this model. The MAX31343 register layouts are taken from the identical MAX31329 bit-field unions in MAX31329.h.
- Max31341.Rtc.NvramWrite, Max31341.Rtc.NvramRead, Max31343.Rtc.NvramWrite and Max31343.Rtc.NvramRead: a negative length is not modelled, because the buffer is a sequence and the length is its size. In the drivers a length of -1 passes the `offset + length > totlen` check and the `length == 0` check, and the `uint8_t` length of the register transfer turns it into a 255-byte read or write.
- Max3133x.Rtc: apart from WriteRegister, WriteOne, SetBitField, TimestampRecordEnable and TimestampRecordDisable, these methods state the registers they leave but not the log of writes.
- Max31341.Rtc: apart from WriteRegister, WriteOne, Update, SetConfiguration, SetTime, SetAlarm and NvramWrite's refusals, these methods state the registers they leave but not the log of writes.
- Max31343.Rtc.IrqClearFlag and Max31341.Rtc.IrqClearFlag: the chip clears its flags on the read; the model does not, so only the result code is stated.
- Max31341.Rtc.SetTime: a failure is not tied to the step that failed. The contract gives the possible codes (-1 for the CFG2 read, 1..4 for a write) and says that the writes made are a prefix of the four.
- The 12-hour MAX31328 hours register is modelled as the chip writes it (`TwelveHourRegister`), not through any driver call: the driver never sets 12-hour mode.
