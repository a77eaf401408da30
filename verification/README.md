# PCA9685 driver model

A Dafny model of `PCA9685_Driver`, an Arduino driver for the NXP PCA9685
16-channel PWM controller. The driver talks to the controller over I²C. The model covers:

- how a target address type is resolved to a bus address (`getAddress`);
- the register reads and writes each public operation issues, in order:
  `restart`, `sleep`, `wakeUp`, `setPWMFrequency`, `getPWMFrequency`,
  `setExtClock`, `setOutputType`, `setPWMOutput`, `setAllPWMOutputs`,
  `setOscillFrequency` and `getOscillFrequency`;
- how a requested PWM frequency becomes the prescale value and the
  frequency that is returned;
- how on/off tick counts are encoded into the channel registers.

The bus is abstract. It is a register file keyed by (bus address, register
number) together with an append-only log of transactions: `Write`,
`WriteBlock` (a register pointer followed by a burst of bytes), `Read` and
`Delay`. The register file is always the replay of the log over the file the
bus started from (`I2cBus.Consistent`), and every operation keeps that
invariant. Each bus address has its own registers: a write to an all-call
or sub-call address changes the registers kept under that address and not
those under the primary address, although a real device also answers its
all-call and sub-call addresses.

A driver instance is the record `Pca9685.Driver`. It holds the five stored
addresses, the oscillator frequency and the bus. Each public operation is a
pure function from the state before the call to the state after it.

Modules, one per file:

- `registers.dfy`: `ByteConversion` and `Registers`, the register map,
  MODE1/MODE2 masks, channel block layout, 16-bit tick encoding.
- `bus.dfy`: `I2cBus`, the register file, transaction log and replay.
- `addressing.dfy`: `Addressing`, address types and resolution.
- `prescale.dfy`: `Prescale`, the frequency clamp, prescale rounding and
  achieved frequency.
- `driver.dfy`: `Pca9685`, the driver's public operations.
- `properties.dfy`: `Pca9685Properties`, properties that relate operations
  to each other and to the register protocol.

Frequencies are whole hertz and the arithmetic is exact. The driver computes the
prescale as `float(osc / (4096·f) + 0.5) − 1` and then truncates it to
`uint8_t`. The model states this as round-half-up of `osc / (4096·f)`
(`Prescale.IsRoundHalfUp`) minus one, clamped to [3, 255]. Both values
returned to the caller use integer division in the source
(`osc / (4096·(p+1))` with `uint32_t` and `int` operands), and the model
uses integer division as well.

Facts about the code that the model makes explicit:

- At the 25 MHz oscillator `setPWMFrequency(1000)` writes prescale 5 and
  returns 25 000 000 div (4096·6) = 1017 Hz
  (`Prescale.InternalOscillatorExamples`).
- `getAddress` sends every address-type value outside the enumeration to
  the primary address; `Addressing.ResolveCode` models it over the
  enumerator's integer value.
- The final MODE1 write of `setPWMFrequency` is the MODE1 value read with
  RESTART and AI added, so it restores the SLEEP bit as read: the device
  ends awake exactly when it was awake before the call
  (`Pca9685Properties.FrequencySequence`).
- `restart` writes 0x80, which has EXTCLK and AI clear; keeping the
  external clock after a restart rests on the device treating EXTCLK as
  sticky (`Pca9685Properties.ExtClockBitAcrossOperations`).
- Below a 16384 Hz oscillator the limit `osc / 16384` is 0, every request
  of 1 Hz or more is clamped to 0, the `float` quotient is +infinity and the
  prescale clamps to 255 (`Prescale.SlowOscillatorPrescale`). Only 0/0 — a
  zero oscillator with a request of at least 1 Hz — is excluded
  (`Prescale.QuotientDefined`).
- The divisor `4096 * (p + 1)` of the returned frequency is an `int`
  product. The model computes it exactly (`Prescale.AchievedFrequency`), as
  on boards with a 32-bit `int`; on boards with a 16-bit `int` it overflows
  for every prescale of 7 or more, which `Prescale.AchievedFrequency16`
  models and the Findings table records.

## Model

| member | source | states |
|---|---|---|
| Registers.Mode1MasksAreSingleBits | src/PCA9685_Driver.h:47-54 | The eight MODE1 masks are the single bits 0..7, so they are pairwise distinct. |
| Registers.SetMaskOnlyTouchesItsBit | src/PCA9685_Driver.h:47-54 | OR-ing in a MODE1 mask sets its bit and leaves the other seven bits as they were. |
| Registers.ClearMaskOnlyTouchesItsBit | src/PCA9685_Driver.h:47-54 | AND-ing with a MODE1 mask's complement clears its bit and leaves the other seven bits as they were. |
| Registers.OutdrvIsBitTwo | src/PCA9685_Driver.h:59 | MODE2_OUTDRV is bit 2 and no other bit. |
| Registers.ChannelBase | src/PCA9685_Driver.cpp:287 | The start register of channel `output` is 6 + 4·output truncated to 8 bits. For outputs 0..15 the block of four ends at or before 0x45. |
| Registers.ChannelBlocksDisjoint | src/PCA9685_Driver.h:27-43 | The blocks of the sixteen channels lie in 0x06..0x45 and are pairwise disjoint. They avoid MODE1, MODE2, the ALL_LED registers and PRESCALE. |
| Registers.OutOfRangeChannelsAlias | src/PCA9685_Driver.cpp:287 | With no range check, channel 61 starts at ALL_LED_ON_L and channel 62 at PRESCALE. |
| Registers.LowByte | src/PCA9685_Driver.cpp:288-291 | The low byte sent for a tick count is the byte congruent to it modulo 256. |
| Registers.HighByte | src/PCA9685_Driver.cpp:288-291 | The high byte sent for a tick count is the number of whole multiples of 256 it holds. |
| Registers.TickBytes | src/PCA9685_Driver.cpp:288-291 | The four bytes after the start register are on low, on high, off low, off high: read back as little-endian pairs they give `on` and `off`. |
| Registers.SplitThenJoin | src/PCA9685_Driver.cpp:288-291 | For every 16-bit tick count v, `low + 256·high` of its two bytes gives v back. |
| Registers.JoinThenSplit | src/PCA9685_Driver.cpp:288-291 | Splitting the joined value gives the two bytes back, so the byte encoding is a bijection. |
| Registers.NextDistances | src/PCA9685_Driver.cpp:287-291 | The three registers after a burst's start register lie at distances 1, 2 and 3, modulo 256. |
| I2cBus.StoreBlockEffect | src/PCA9685_Driver.cpp:286-292 | A burst stores byte i at distance i from the start register. No other register of any device changes. |
| I2cBus.ReplayAppend | src/PCA9685_Driver.cpp:392-397 | Replaying a log extended by one transaction applies that transaction last. |
| I2cBus.Issue | src/PCA9685_Driver.cpp:392-397 | Issuing a transaction appends exactly it to the log and keeps the register file equal to the replay of the log. |
| I2cBus.WriteReg | src/PCA9685_Driver.cpp:392-397 | A single-register write logs one `Write` and sets exactly that register of that device. |
| I2cBus.WriteRegs | src/PCA9685_Driver.cpp:286-292 | A burst logs one `WriteBlock` and lands its bytes at consecutive registers. Every register outside the burst is unchanged. |
| I2cBus.ReadReg | src/PCA9685_Driver.cpp:376-383 | A read returns the register's byte, logs one `Read` and changes no register. |
| I2cBus.Wait | src/PCA9685_Driver.cpp:61 | A delay is logged and changes no register. |
| Addressing.CodeInjective | src/PCA9685_Driver.h:63-69 | The five enumerators have distinct underlying values. |
| Addressing.DefaultAddresses | src/PCA9685_Driver.h:110-113 | A new instance stores 0x70, 0x71, 0x72 and 0x73 as its all-call and sub-call addresses, plus its own address (default 0x40). |
| Addressing.DefaultAddressesDistinct | src/PCA9685_Driver.h:20-24 | The default addresses are pairwise distinct, whenever the device's own address is outside 0x70..0x73. |
| Addressing.ResolveCode | src/PCA9685_Driver.cpp:346-368 | Values 1..4 select the all-call and sub-call addresses. `Normal` and every value outside the enumeration give the primary address. |
| Addressing.Resolve | src/PCA9685_Driver.cpp:346-368 | Each address type maps to its stored address, so the lookup is total over the five. |
| Addressing.ResolveInjective | src/PCA9685_Driver.cpp:346-368 | With distinct stored addresses, distinct address types reach distinct devices, and only `Normal` reaches the primary one. |
| Prescale.UpperLimit | src/PCA9685_Driver.cpp:201 | The limit is the largest whole frequency h with 16384·h ≤ osc. It is at least 1 exactly when osc ≥ 16384, and fits a 16-bit signed `int` exactly when osc < 2^29. |
| Prescale.ClampFrequency | src/PCA9685_Driver.cpp:201-202 | A request below 1 Hz becomes 1 Hz. Any other request is capped at osc div 16384. With osc ≥ 16384 the result lies in [1, osc div 16384]. |
| Prescale.RoundedDivider | src/PCA9685_Driver.cpp:204 | The divider is osc/(4096·f) rounded to nearest with ties up, which is what adding 0.5 and truncating computes. |
| Prescale.RoundHalfUpUnique | src/PCA9685_Driver.cpp:204 | There is at most one such rounding, so the characterisation determines the divider. |
| Prescale.RoundedDividerAtLeastFour | src/PCA9685_Driver.cpp:201-207 | Inside the clamped range the rounded divider is at least 4. |
| Prescale.PrescaleFor | src/PCA9685_Driver.cpp:201-207 | The prescale always lies in [3, 255]. It is the rounded divider minus one, clamped at both ends. A clamped frequency of 0 gives 255. |
| Prescale.PrescaleInRange | src/PCA9685_Driver.cpp:204-207 | For osc ≥ 16384 and a request in range, the lower clamp never fires, and the prescale is the rounded divider minus one, capped at 255. |
| Prescale.SlowOscillatorPrescale | src/PCA9685_Driver.cpp:201-207 | With 0 < osc < 16384, every request of at least 1 Hz gives prescale 255 and a 0 Hz request gives 3. |
| Prescale.AchievedFrequency | src/PCA9685_Driver.cpp:231 | The returned frequency is the largest whole number of hertz h with h·4096·(p+1) ≤ osc. |
| Prescale.Divisor16 | src/PCA9685_Driver.cpp:231 | With a 16-bit `int`, the divisor 4096·(p+1) is exact below prescale 7 and wraps to 0 exactly when p+1 is a multiple of 16. |
| Prescale.AchievedFrequency16 | src/PCA9685_Driver.cpp:231 | With a 16-bit `int`, the return is the unsigned quotient by the wrapped divisor, and it is undefined exactly when that divisor wrapped to 0. |
| Prescale.Divide | src/PCA9685_Driver.cpp:231 | Unsigned division returns the largest h with d·h ≤ n. |
| Prescale.SmallPrescaleExact | src/PCA9685_Driver.cpp:231 | Below prescale 7 the 16-bit divisor is nonzero and dividing by it gives the exact achieved frequency. |
| Prescale.SixteenBitAgreesBelowSeven | src/PCA9685_Driver.cpp:231 | Below prescale 7 the 16-bit return value equals the intended one. |
| Prescale.SixteenBitIntOverflow | src/PCA9685_Driver.cpp:231 | At 25 MHz a 50 Hz request writes prescale 121 and should return 50 Hz, but returns 0 Hz with a 16-bit `int`; a 23 Hz request writes prescale 255, whose divisor wraps to 0. |
| Prescale.AchievedWithinRange | src/PCA9685_Driver.cpp:231 | For a prescale in [3, 255], the achieved frequency lies between osc div (4096·256) and osc div 16384. |
| Prescale.ClampIdempotent | src/PCA9685_Driver.cpp:201-207 | For osc ≥ 16384, a request above the limit gives the same prescale as the limit, and a 0 Hz request the same prescale as 1 Hz. |
| Prescale.FloatRoundingExample | src/PCA9685_Driver.cpp:204-207 | With oscillator 22 527 999 and 1000 Hz the exact computation gives prescale 4 and 1099 Hz; the oscillator value 22 528 000 that a `float` holds gives prescale 5, and prescale 5 returns 916 Hz. |
| Prescale.InternalOscillatorExamples | src/PCA9685_Driver.cpp:201-231 | At 25 MHz: 1000 Hz gives prescale 5 and returns 1017 Hz; 2000 Hz and 1526 Hz give prescale 3 and 1525 Hz; 1 Hz gives prescale 255 and 23 Hz. |
| Pca9685.ReadByte | src/PCA9685_Driver.cpp:376-383 | A read always goes to the primary address, returns that register's byte and changes nothing else. |
| Pca9685.WriteByte | src/PCA9685_Driver.cpp:392-397 | A write goes to the address the address type resolves to and changes exactly that one register. |
| Pca9685.Restart | src/PCA9685_Driver.cpp:59-62 | MODE1 receives exactly 0x80 (RESTART alone), followed by a 10 ms delay. No other register changes. |
| Pca9685.Sleep | src/PCA9685_Driver.cpp:69-71 | The MODE1 value read from the primary address is written to the target with SLEEP set and every other bit as read. |
| Pca9685.WakeUp | src/PCA9685_Driver.cpp:78-80 | The MODE1 value read from the primary address is written to the target with SLEEP cleared and every other bit as read. |
| Pca9685.SetOscillFrequency | src/PCA9685_Driver.cpp:331-333 | Only the oscillator frequency changes. No bus traffic. |
| Pca9685.GetOscillFrequency | src/PCA9685_Driver.cpp:322-324 | The value returned is the oscillator frequency the driver holds: setting it again leaves the driver unchanged. |
| Pca9685.OscillatorRoundTrip | src/PCA9685_Driver.cpp:322-333 | Reading the oscillator frequency after setting it returns the value set. Setting it to the value read changes nothing. |
| Pca9685.WritePrescale | src/PCA9685_Driver.cpp:220-225 | The four writes and the delay: PRESCALE ends holding p, and MODE1 ends as read with RESTART and AI added. Nothing else changes. |
| Pca9685.SetPWMFrequency | src/PCA9685_Driver.cpp:194-232 | PRESCALE at the target holds the quantised prescale. The return value is the frequency that prescale achieves. The log holds the read of MODE1 followed by the sleep-bracket writes. Only MODE1 and PRESCALE change. |
| Pca9685.GetPWMFrequency | src/PCA9685_Driver.cpp:239-241 | The return value is the frequency achieved by the prescale read from the primary address. No register changes. |
| Pca9685.ExtClockFinalMode | src/PCA9685_Driver.cpp:155-179 | The last MODE1 byte setExtClock writes has EXTCLK, RESTART and AI set, SLEEP clear, and every other bit as read. |
| Pca9685.WriteExtClock | src/PCA9685_Driver.cpp:155-179 | The four MODE1/PRESCALE writes of setExtClock. PRESCALE ends holding p, MODE1 ends running on the external clock with every other bit as read, and only MODE1 and PRESCALE change. |
| Pca9685.SetExtClock | src/PCA9685_Driver.cpp:149-185 | The input frequency becomes the oscillator frequency, and the prescale is quantised against it. MODE1 ends with EXTCLK, RESTART and AI set, SLEEP clear, and every other bit as read. The log holds the five transactions in order. Only MODE1 and PRESCALE change. |
| Pca9685.SetOutputTypeAsWritten | src/PCA9685_Driver.cpp:249-271 | As written, MODE2 is read and written back unchanged, whatever the output type. |
| Pca9685.SetOutputType | src/PCA9685_Driver.cpp:249-271 | MODE2 is written with OUTDRV set exactly for totem pole and cleared exactly for open drain. Every other bit is as read. |
| Pca9685.WriteTicks | src/PCA9685_Driver.cpp:286-292 | One burst from `base`: the first register pair reads back `on`, the second `off`, and nothing outside the four registers changes. |
| Pca9685.TicksDecode | src/PCA9685_Driver.cpp:288-291 | After the burst, the two register pairs decode to `on` and `off`. |
| Pca9685.Reg16OfBytes | src/PCA9685_Driver.cpp:288-291 | A register pair holding the low and high byte of v reads back as v. |
| Pca9685.SetPWMOutput | src/PCA9685_Driver.cpp:281-293 | One burst at 6 + 4·output (mod 256) after which the channel's on and off pairs read back `on` and `off`. Nothing outside those four registers changes. |
| Pca9685.SetAllPWMOutputs | src/PCA9685_Driver.cpp:302-314 | One burst at 0xFA after which the ALL_LED on and off pairs read back `on` and `off`. Nothing outside 0xFA..0xFD changes. |
| Pca9685Properties.FrequencyRoundTrip | src/PCA9685_Driver.cpp:231-240 | If the writes went to the primary address, getPWMFrequency after setPWMFrequency returns what setPWMFrequency returned. Otherwise it returns what it returned before. |
| Pca9685Properties.FrequencyClampIdempotent | src/PCA9685_Driver.cpp:201-202 | For osc ≥ 16384, a request above the limit gives the same return value and the same state as the limit, and a 0 Hz request the same as 1 Hz. |
| Pca9685Properties.PrescaleEventsFollowProtocol | src/PCA9685_Driver.cpp:215-225 | The setPWMFrequency transactions satisfy the sleep-bracket protocol. |
| Pca9685Properties.FrequencySequence | src/PCA9685_Driver.cpp:215-225 | MODE1 is read from the primary address, then written to the target: SLEEP set and RESTART clear, then PRESCALE = p, then MODE1 as read, a delay, and MODE1 with RESTART and AI added. |
| Pca9685Properties.ExtClockEventsFollowProtocol | src/PCA9685_Driver.cpp:155-179 | The setExtClock transactions satisfy the external-clock protocol. |
| Pca9685Properties.ExtClockSequence | src/PCA9685_Driver.cpp:155-179 | MODE1 read from the primary address; then to the target: SLEEP set and RESTART cleared with every other bit as read, the same byte with EXTCLK added, the prescale from the new oscillator, and SLEEP cleared with RESTART, AI and EXTCLK set and every other bit as read. EXTCLK is set in every MODE1 write after the first. |
| Pca9685Properties.ExtClockDefaultFrequency | src/PCA9685_Driver.h:95 | For osc ≥ 16384, the default pwmFrequency of 0 behaves exactly like a request of 1 Hz. |
| Pca9685Properties.ExtClockBitAcrossOperations | src/PCA9685_Driver.cpp:59-80 | sleep, wakeUp and every MODE1 write of setPWMFrequency keep a set EXTCLK bit. restart clears it in the byte it sends. |
| Pca9685Properties.OutputTypeIgnored | src/PCA9685_Driver.cpp:255-265 | As written, both output types produce the same state. |
| Pca9685Properties.OutputTypeCounterexample | src/PCA9685_Driver.cpp:257-265 | With MODE2 reading 0x00, a totem-pole request leaves OUTDRV clear as written. The corrected version sets it. |
| Pca9685Properties.ChannelWriteIsolated | src/PCA9685_Driver.cpp:286-292 | Writing one of channels 0..15 leaves MODE1, MODE2, PRESCALE, the ALL_LED block and every other channel's registers unchanged. |
| Pca9685Properties.DefaultTargetIsNormal | src/PCA9685_Driver.h:86-101 | Leaving out the address type targets the primary address for restart, sleep, wakeUp, setPWMFrequency, setExtClock (with or without pwmFrequency), setOutputType as written and corrected, setPWMOutput and setAllPWMOutputs. |

## Left out

- The Wire transport is not modelled (`beginTransmission`, `write`, `endTransmission`, `requestFrom`, `read`, `_i2c->begin`). The abstract register file and transaction log stand in for it. Bus failures are not modelled: every transaction succeeds.
- The constructors and `begin` are left out; they only wire a transport and call `restart`, `setOscillFrequency` and `setPWMFrequency` in sequence. `Addressing.DefaultAddresses` models the stored addresses a constructor leaves.
- `setMode1`, `setMode2`, `readRegister` and `writeRegister` are left out. Each is a single `writeByte` or `readByte`, both of which are modelled.
- Debug output is left out: the `Serial` printing and the extra `readByte` calls under `ENABLE_DEBUG_OUTPUT` (src/PCA9685_Driver.cpp:15). They issue extra reads of MODE1/MODE2 that change no register, and the modelled logs omit them.
- Delays are `Delay` events in the log; time is not modelled.
- `float` rounding is not modelled. Frequencies are whole hertz and the arithmetic is exact, so requests with a fractional part are outside the model.
- PrescaleFor (Prescale.PrescaleFor): computes with the oscillator frequency exactly, while the source converts it to `float` first (src/PCA9685_Driver.cpp:165 and 204). A `float` holds every integer only up to 2^24 = 16 777 216, so for an oscillator above that which `float` cannot hold (for example any odd value) the model and the source may write different prescales. With oscillator 22 527 999 and a 1000 Hz request the model writes prescale 4 and returns 1099 Hz; the source sees 22 528 000, computes exactly 5.5, writes prescale 5 and returns 916 Hz (`Prescale.FloatRoundingExample`). The 25 MHz default and every whole kilohertz up to 50 MHz are held exactly by `float`.
- SetPWMFrequency (Pca9685.SetPWMFrequency): inherits PrescaleFor's exact use of the oscillator frequency above 2^24, and so does its return value.
- SetExtClock (Pca9685.SetExtClock): inherits PrescaleFor's exact use of the input frequency above 2^24.
- SetExtClock: takes the external frequency as a `uint32_t` value. The `float` to `uint32_t` conversion on the way into `setOscillFrequency` is not modelled.
- PrescaleFor: excludes a zero oscillator with a request of at least 1 Hz, because there the source computes 0/0 in `float` and converts NaN to `uint8_t`.
- SetPWMFrequency: has the same exclusion as PrescaleFor, for the same reason.
- SetExtClock: has the same exclusion as PrescaleFor, applied to the input frequency.
- Device behaviour that the driver relies on but does not implement is not modelled: EXTCLK staying set, RESTART clearing itself, PRESCALE being latched only while asleep, the register pointer advancing only while AI is set, the device's own auto-increment wrap-around, and a device answering its all-call and sub-call addresses. Every register is a plain byte store, and a burst wraps modulo 256.
- AchievedFrequency (Prescale.AchievedFrequency): computes the divisor 4096·(p+1) exactly, which is what the source computes where `int` is at least 32 bits wide. With a 16-bit `int` the product overflows for every prescale of 7 or more; that behaviour is `Prescale.AchievedFrequency16` and is listed under Findings.
- ClampFrequency (Prescale.ClampFrequency): the limit is osc div 16384 computed exactly, which is what `(int)(_osillator_freq / 16384)` gives wherever `int` holds it. With a 16-bit `int` that holds only for osc < 2^29 (`Prescale.UpperLimit` states the bound); above it the cast wraps, far beyond the chip's 50 MHz external-clock limit. PrescaleFor, SetPWMFrequency and SetExtClock inherit this assumption in the prescale they write.
- SetPWMFrequency (Pca9685.SetPWMFrequency): its return value assumes an `int` of at least 32 bits, as AchievedFrequency does.
- GetPWMFrequency (Pca9685.GetPWMFrequency): its return value assumes an `int` of at least 32 bits, as AchievedFrequency does.
- WriteRegs (I2cBus.WriteRegs): a burst always lands at consecutive registers. On the device the register pointer advances only while MODE1.AI is set, and the driver's own `restart` writes 0x80, which clears AI, so a burst after `restart` alone would put all four bytes into its first register.
- SetPWMOutput (Pca9685.SetPWMOutput): promises the on/off read-back with auto-increment assumed, as WriteRegs does, whatever MODE1.AI holds.
- SetAllPWMOutputs (Pca9685.SetAllPWMOutputs): promises the on/off read-back with auto-increment assumed, as WriteRegs does, whatever MODE1.AI holds.
- FrequencyRoundTrip (Pca9685Properties.FrequencyRoundTrip): its second clause, that a write to another address leaves the prescale getPWMFrequency reads unchanged, rests on the registers under each bus address being separate. A device that answers its all-call or sub-call address (MODE1.ALLCALL is set on power-up) would take such a write into its own PRESCALE register.
- A register nothing has written reads as 0. Power-on register values are not modelled.
- The `default:` branch of setOutputType's switch is not modelled separately, because `Pca9685.OutputType` has only its two enumerators.

## Findings

| source | as written | input that shows it | evidently intended | confidence | as-written member | corrected member |
|---|---|---|---|---|---|---|
| src/PCA9685_Driver.cpp:257-265 | `mode \| MODE2_OUTDRV;` and `mode & ~MODE2_OUTDRV;` are expression statements whose values are discarded, so MODE2 is written back as read | MODE2 reads 0x00 and `setOutputType(TotemPole)` is called: 0x00 is written and OUTDRV stays clear | `mode \|= MODE2_OUTDRV` and `mode &= ~MODE2_OUTDRV`, so OUTDRV is set for totem pole and cleared for open drain | high; not executed | Pca9685.SetOutputTypeAsWritten (Pca9685Properties.OutputTypeCounterexample, Pca9685Properties.OutputTypeIgnored) | Pca9685.SetOutputType |
| src/PCA9685_Driver.cpp:231-240 | `4096 * ((uint8_t)prescale_value + 1)` and `4096 * (readByte(PCA9685_PRESCALE) + 1)` are `int` products, which overflow where `int` is 16 bits | 25 MHz oscillator, `setPWMFrequency(50)`: prescale 121, 4096·122 wraps to −24576, converts to 4294942720, and 0 Hz is returned instead of 50 Hz; prescale 255 (any request of 23 Hz or less) makes the divisor 0 | an unsigned 32-bit product such as `4096UL * (p + 1)`, returning osc div (4096·(p+1)) | medium: only on boards with a 16-bit `int`; not executed | Prescale.AchievedFrequency16 (Prescale.SixteenBitIntOverflow) | Prescale.AchievedFrequency |
