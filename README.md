# APDS-9960 driver model

A Dafny model of gobot's driver for the Broadcom APDS-9960 ambient light, colour,
proximity and gesture sensor (`drivers/i2c/apds9960_driver.go`), with proofs about it.

The chip is modelled as a bank of 256 eight-bit registers (`Bus.RegisterBank`). The
bank has a connection flag, and sets of registers whose every read or whose every
write fails. The driver (`Apds.Driver`) is a class that owns the bank and the gesture
sampling state: four 32-entry sample arrays, `index`, `totalGestures` and the
auxiliary classifier record. Its methods have the source's form: straight-line
register transfers with early returns, and loops over the FIFO data and the sample
arrays. Each method is proved against a specification function:

- `Registers`: register addresses, defaults, and the bit fields with their masks.
  `Insert`/`Extract` are the read-modify-write and extraction every accessor pair
  performs, and `ModeByte` is setMode's update of ENABLE.
- `Bus`: the transport outcomes for one register read or write.
- `Config`: every configuration operation as a list of register steps.
  - `Exec` runs one step; `Run` runs a list and stops at the first failure.
  - The driver's `Start`, `Enable*`, `Disable*` and 16-bit threshold setters each
    return exactly what `Run` gives for their list. The field and whole-register
    setters and setMode return exactly what `Exec` gives for their one step.
  - Lemmas per sensor say what a successful enable or disable leaves in
    ENABLE, CONTROL and GCONF4.
  - Lemmas about `Run` cover success if and only if no register faults, the frame,
    and the round trips.
- `Gesture`: `Process` specifies processGestureData and `Decode` specifies
  decodeGesture, with the ratio computed as truncating integer division.
- `Fifo`: the chunked FIFO block read, specified by `ReadBlock`.
- `Apds`: the driver class; one iteration of ReadGesture's polling loop
  (`FetchKind`, `PollStep`); and `Session`, which specifies the whole loop over
  the polls.

Long operations are split into helper methods, so each proof stays small:
- `Start` and `EnableGestureSensor` into their phases;
- processGestureData into the two searches (`FindFirst`, `FindLast`) and the
  accumulation (`Accumulate`, `CountDeltas`, `TrackNearFar`);
- one drain into `StoreGroups` and `StoreGroup`.

The helpers perform the same transfers in the same order as the Go functions.

Two details of the code that the model keeps:
- A 16-bit getter or colour reader whose high-byte read fails returns the low byte
  read so far, together with the error (drivers/i2c/apds9960_driver.go:626-647).
- The first up/down ratio of the reading (100, 20) is `int(80*100/120) = 66`
  (drivers/i2c/apds9960_driver.go:1608-1611). `Gesture.UpwardSwipeDecodesUp` uses
  this value.

## Model

| member | source | states |
|---|---|---|
| Registers.Insert | drivers/i2c/apds9960_driver.go:483-486 | the byte a field setter writes back (clear mask, then the masked value shifted in); its meaning is stated by FieldRoundTrip and FieldSetKeepsRest |
| Registers.Extract | drivers/i2c/apds9960_driver.go:466 | the value a field getter returns for the byte read (shift, then mask); its meaning is stated by FieldGetAfterSet and ExtractWithinMask |
| Registers.ModeByte | drivers/i2c/apds9960_driver.go:438-451 | the ENABLE byte setMode writes; its meaning is stated by ModeByteSingleBit and ModeByteAll |
| Registers.BigEndianFirst | drivers/i2c/apds9960_driver.go:651-652 | the first byte PutUint16 stores, the high byte; written to the L register (see ThresholdReadBack) |
| Registers.BigEndianSecond | drivers/i2c/apds9960_driver.go:651-652 | the second byte PutUint16 stores, the low byte; written to the H register (see ThresholdReadBack) |
| Registers.FieldRoundTrip | drivers/i2c/apds9960_driver.go:459-489 | for an exact field, getting after setting v gives v masked to the field's width, and the setter keeps every bit the clear mask keeps |
| Registers.FieldGetAfterSet | drivers/i2c/apds9960_driver.go:459-489 | the getter's shift-and-mask recovers the masked value that the setter shifted in |
| Registers.FieldSetKeepsRest | drivers/i2c/apds9960_driver.go:471-489 | the setter's clear-and-or leaves every bit outside the field as it was |
| Registers.PlacedReadsBack | drivers/i2c/apds9960_driver.go:459-489 | on plain bytes: a masked value shifted into a byte cleared by the complement mask shifts back out unchanged |
| Registers.PlacedKeepsRest | drivers/i2c/apds9960_driver.go:471-489 | on plain bytes: placing the shifted value keeps every bit the clear mask keeps |
| Registers.ExtractWithinMask | drivers/i2c/apds9960_driver.go:459-469 | a getter's result has no bit outside the field mask |
| Registers.FieldTable | drivers/i2c/apds9960_driver.go:459-584 | every accessor pair's clear mask is the exact complement of its field (CONTROL 7-6/3-2/1-0, GCONF2 6-5/4-3/2-0 and 5-4, GCONF4 bits 1/0, ENABLE bits 5/4, CONFIG3 3-0), except the gain compensation pair |
| Registers.LedBoostOverlapsGestureFields | drivers/i2c/apds9960_driver.go:1343-1373 | setLEDBoost writes GCONF2 bits 5-4: it overwrites the low bit of the gesture gain and the high bit of the gesture LED drive, and leaves the wait time alone |
| Registers.ProxGainCompClearsBit4 | drivers/i2c/apds9960_driver.go:1375-1405 | the gain compensation setter reads back as v & 1, always clears GCONF3 bit 4 (mask 0xCF), and keeps every other bit |
| Registers.ModeByteSingleBit | drivers/i2c/apds9960_driver.go:438-444 | setMode with a mode of at most 6 sets bit `mode` of ENABLE to enable & 1 and changes no other bit |
| Registers.ModeByteAll | drivers/i2c/apds9960_driver.go:445-451 | setMode(ALL, e) writes 0x7F or 0x00 whatever the old byte |
| Registers.Combine | drivers/i2c/apds9960_driver.go:1407-1428 | `low + (high << 8)` holds the low byte in bits 7-0 and the high byte in bits 15-8 |
| Registers.ThresholdReadBack | drivers/i2c/apds9960_driver.go:626-706 | writing x big-endian to the L/H pair and reading it back as L + (H << 8) yields x byte-swapped; swapping is an involution; x is a fixed point exactly when its two bytes are equal (0x0000, 0xFFFF, ...) |
| Bus.Read | drivers/i2c/apds9960_driver.go:418-426 | a register read succeeds exactly with a connection and a readable register, and delivers the register's byte then and 0 otherwise |
| Bus.RegisterBank.constructor | drivers/i2c/apds9960_driver.go:241-255 | a bank holding the given 256 register bytes, with the given connection flag and failing registers |
| Bus.RegisterBank.ReadByteData | drivers/i2c/apds9960_driver.go:424 | a transport read returns the register's byte, or 0 and a read error |
| Bus.RegisterBank.WriteByteData | drivers/i2c/apds9960_driver.go:456 | a transport write changes exactly the one register, or nothing and reports a write error |
| Config.Exec | drivers/i2c/apds9960_driver.go:428-489 | one step fails exactly without a connection, on a faulty register, or (setMode) when ENABLE reads 0xFF; a failed step writes nothing, a successful one changes only its target register |
| Config.ExecSetBits | drivers/i2c/apds9960_driver.go:471-489 | a field setter's outcomes: no connection, a failed read (control register unreadable, no write), a failed write, or the field inserted into the byte read |
| Config.Run | drivers/i2c/apds9960_driver.go:267-405 | a step list keeps the bank at 256 registers; its stop-at-the-first-failure meaning is stated by RunOkStep, Then/RunConcat and RunSucceedsIffNoFault |
| Config.RunOkStep | drivers/i2c/apds9960_driver.go:267-405 | a run that succeeds had its next step succeed and continued from the bank that step left |
| Config.ModeOn | drivers/i2c/apds9960_driver.go:438-441 | a successful setMode(m, 1) with m of at most 6 ORs bit m into ENABLE |
| Config.SetBitsThenGet | drivers/i2c/apds9960_driver.go:459-584 | after a successful exact field setter, the register reads back, its field is v masked, its other bits are unchanged, and no other register changed |
| Config.RunAppend | drivers/i2c/apds9960_driver.go:267-405 | running two lists back to back runs the second only if the first succeeded, from where the first left the bank |
| Config.RunShift | drivers/i2c/apds9960_driver.go:267-405 | running a concatenation past its first part is running the second part |
| Config.RunFrame | drivers/i2c/apds9960_driver.go:267-405 | a register no remaining step targets keeps its value, whatever the outcome |
| Config.RunSucceedsIffNoFault | drivers/i2c/apds9960_driver.go:267-405 | a list without setMode steps succeeds if and only if the connection exists and no step meets an unreadable or unwritable register |
| Config.Then | drivers/i2c/apds9960_driver.go:267-405 | continuing a run that already failed keeps its bank and error |
| Config.RunConcat | drivers/i2c/apds9960_driver.go:267-405 | running a concatenation is running its first part then, on success, its second |
| Config.StartInPhases | drivers/i2c/apds9960_driver.go:283-403 | Start's 32 programming steps are its four phases run in order |
| Config.StartSensingThresholds | drivers/i2c/apds9960_driver.go:332-339 | from its sixth step on, the sensing phase runs the low then the high ambient threshold writes |
| Config.StartSpec | drivers/i2c/apds9960_driver.go:267-405 | Start keeps the bank at 256 registers in every outcome; its outcomes are stated by StartRejectsForeignDevice and StartOutcome |
| Config.StartRejectsForeignDevice | drivers/i2c/apds9960_driver.go:276-281 | an unreadable ID register or an ID other than 0xAB/0x9C gives the not-an-APDS9960 error with no register written |
| Config.StartOutcome | drivers/i2c/apds9960_driver.go:283-405 | with an accepted ID, Start succeeds if and only if ENABLE does not read 0xFF and no register of the sequence faults; registers outside the sequence are never changed |
| Config.PairRead | drivers/i2c/apds9960_driver.go:626-647 | a 16-bit read succeeds exactly when both registers are readable, and then holds L in bits 7-0 and H in bits 15-8; on failure it returns the partial value: 0, or the low byte when only the high read fails |
| Config.ThresholdSteps | drivers/i2c/apds9960_driver.go:649-665 | the two writes of a light threshold setter, big-endian bytes to L then H; their effect is stated by ThresholdRoundTrip |
| Config.ThresholdRoundTrip | drivers/i2c/apds9960_driver.go:626-706 | reading a light threshold back after setting it to x yields x byte-swapped |
| Config.ModeOff | drivers/i2c/apds9960_driver.go:442-444 | a successful setMode(m, 0) with m of at most 6 clears bit m of ENABLE |
| Config.EnableLightOutcome | drivers/i2c/apds9960_driver.go:843-874 | a successful EnableLightSensor leaves CONTROL bits 1-0 at the default ambient gain and ENABLE as (old & 0xEF), plus 0x10 when interrupts are requested, with power and ALS (0x03) set |
| Config.DisableLightOutcome | drivers/i2c/apds9960_driver.go:876-893 | a successful disableLightSensor leaves ENABLE as old & 0xED: ambient interrupt and ALS off, every other bit kept |
| Config.EnableProximityOutcome | drivers/i2c/apds9960_driver.go:895-931 | a successful EnableProximitySensor leaves CONTROL bits 3-2 at the default proximity gain and bits 7-6 at the default LED drive, and ENABLE as (old & 0xDF), plus 0x20 when interrupts are requested, with power and proximity (0x05) set |
| Config.DisableProximityOutcome | drivers/i2c/apds9960_driver.go:933-950 | a successful disableProximitySensor leaves ENABLE as old & 0xDB: proximity interrupt and proximity off, every other bit kept |
| Config.DisableGestureOutcome | drivers/i2c/apds9960_driver.go:1011-1033 | a successful disableGestureSensor clears GCONF4 bits 1-0 and keeps its other bits, and leaves ENABLE as old & 0xBF |
| Config.EnableGestureOutcome | drivers/i2c/apds9960_driver.go:952-1009 | a successful EnableGestureSensor leaves WTIME at 0xFF, PPULSE at the default gesture pulse count, GCONF2 bits 5-4 at the 300% LED boost, GCONF4 bit 1 as the interrupt request and bit 0 (gesture mode) set, and ENABLE as the old byte with power, wait, proximity and gesture (0x4D) set |
| Gesture.Abs | drivers/i2c/apds9960_driver.go:1638 | the magnitude is non-negative and equals x or -x |
| Gesture.TruncDiv | drivers/i2c/apds9960_driver.go:1608-1611 | the quotient truncated toward zero: for a non-negative dividend q·d ≤ n < q·d + d, for a negative one q·d − d < n ≤ q·d |
| Gesture.TruncDivOdd | drivers/i2c/apds9960_driver.go:1608-1611 | truncating division is odd in the dividend (unlike Euclidean division) |
| Gesture.TruncDivBound | drivers/i2c/apds9960_driver.go:1608-1611 | a dividend below k times the divisor in magnitude gives a quotient below k in magnitude |
| Gesture.TruncDivSign | drivers/i2c/apds9960_driver.go:1608-1611 | the truncated quotient has the sign of the dividend, or is 0 |
| Gesture.Ratio | drivers/i2c/apds9960_driver.go:1608-1611 | the ratio (a − b)·100/(a + b) of two readings above 10 lies strictly between −100 and 100 and has the sign of a − b |
| Gesture.RatioAntisymmetric | drivers/i2c/apds9960_driver.go:1608-1611 | swapping the readings negates the ratio |
| Gesture.First | drivers/i2c/apds9960_driver.go:1577-1588 | the group found is usable and every earlier group is not; None means no group is usable |
| Gesture.Last | drivers/i2c/apds9960_driver.go:1594-1605 | the group found is usable and every later group is not; None means no group is usable |
| Gesture.FirstLastAgree | drivers/i2c/apds9960_driver.go:1577-1605 | the upward and downward searches agree on whether a usable group exists, and the first never lies after the last |
| Gesture.Discretise | drivers/i2c/apds9960_driver.go:1621-1635 | the count is 1 exactly when the sum is at least 50, −1 exactly when it is at most −50, 0 otherwise |
| Gesture.Counted | drivers/i2c/apds9960_driver.go:1618-1635 | the sums grow by this drain's changes, the counts are the new sums discretised, and nothing else changes |
| Gesture.Deltas | drivers/i2c/apds9960_driver.go:1615-1616 | the ratio changes lie strictly within ±200 and are (0, 0) when the first and last group coincide |
| Gesture.Process | drivers/i2c/apds9960_driver.go:1554-1668 | processing never changes the motion |
| Gesture.ProcessFound | drivers/i2c/apds9960_driver.go:1594-1666 | with first and last usable groups found, processing is the accumulation of their ratio changes followed by the near/far rules |
| Gesture.ProcessIgnoresUnusableBlock | drivers/i2c/apds9960_driver.go:1571-1592 | four groups or fewer, or no group with all four samples above 10, leave the state unchanged |
| Gesture.ProcessAccumulates | drivers/i2c/apds9960_driver.go:1608-1663 | the sums grow by last minus first ratio and each count is its sum discretised at ±50, unless the near counter has just reset counts and sums to zero |
| Gesture.ProcessKeepsAuxOk | drivers/i2c/apds9960_driver.go:1554-1668 | the counts stay within −1..1 and the state within NA..FAR |
| Gesture.NearFar | drivers/i2c/apds9960_driver.go:1637-1666 | the near/far bookkeeping of one drain, from the counts just derived and the drain's own ratio changes; its branches are stated by NearFarRules |
| Gesture.NearFarRules | drivers/i2c/apds9960_driver.go:1637-1666 | the near/far bookkeeping uses this drain's changes: near or far counting when both counts are 0 and the hand is still (sums and counts untouched), NEAR/FAR state once near ≥ 10 and far ≥ 2, and reset of counts and sums after ten near drains with a count set; the motion never changes |
| Gesture.Decode | drivers/i2c/apds9960_driver.go:1509-1552 | decoding changes only the motion |
| Gesture.DecodeTable | drivers/i2c/apds9960_driver.go:1509-1552 | NEAR/FAR force the motion; (−1,0) UP, (1,0) DOWN, (0,1) RIGHT, (0,−1) LEFT; every diagonal resolves to RIGHT or LEFT; (0,0) keeps the motion |
| Gesture.DecodeIdempotent | drivers/i2c/apds9960_driver.go:1509-1552 | decoding twice is decoding once |
| Gesture.UpwardSwipeDecodesUp | drivers/i2c/apds9960_driver.go:1554-1668 | a ten-group block whose first usable group reads (100, 20) and whose last reads (20, 100) on up/down, with left and right level, moves the ratio from 66 to −66, sums to −132, counts (−1, 0) and decodes as UP from the reset state |
| Fifo.Min | drivers/i2c/apds9960_driver.go:1682 | the minimum is at most both arguments and equals one of them |
| Fifo.Overwrite | drivers/i2c/apds9960_driver.go:1688-1690 | the buffer has src at offsets off.. and is unchanged elsewhere |
| Fifo.Fill | drivers/i2c/apds9960_driver.go:1681-1695 | the transfer loop keeps the buffer at the requested length |
| Fifo.ReadBlock | drivers/i2c/apds9960_driver.go:1670-1697 | the block read's buffer has the requested length |
| Fifo.CopyInto | drivers/i2c/apds9960_driver.go:1688-1690 | the copy loop overwrites the buffer from offset k with the transfer's bytes and nothing else |
| Fifo.WireReadBlock | drivers/i2c/apds9960_driver.go:1670-1697 | the block read, transfer by transfer with offset k advancing by one, returns exactly ReadBlock |
| Fifo.FillComplete | drivers/i2c/apds9960_driver.go:1681-1695 | the transfer loop counts the full length without error if and only if every remaining transfer is accepted, and never counts more than the length |
| Fifo.ReadBlockComplete | drivers/i2c/apds9960_driver.go:1670-1697 | bytesRead equals the length without error if and only if selecting the register and every one of the ceil(length/32) transfers succeed |
| Fifo.ReadBlockSingleTransfer | drivers/i2c/apds9960_driver.go:1670-1697 | a block of at most 32 bytes is exactly the first transfer's bytes |
| Fifo.ReadBlockTwoTransfers | drivers/i2c/apds9960_driver.go:1688-1692 | a 64-byte block keeps only the first byte of the first transfer: the second is copied from offset 1 and the last 31 bytes stay zero |
| Apds.Classify | drivers/i2c/apds9960_driver.go:1066-1129 | a drain always carries between 1 and 32 groups and 4 bytes per group |
| Apds.ClassifyDrain | drivers/i2c/apds9960_driver.go:1066-1098 | an iteration drains the FIFO if and only if GVALID is set, the level is 1..32, and selecting the FIFO and every transfer succeed |
| Apds.FetchKind | drivers/i2c/apds9960_driver.go:1069-1098 | the reads of one iteration (GSTATUS, GFLVL, the block) give the kind Classify specifies |
| Apds.FindFirst | drivers/i2c/apds9960_driver.go:1577-1588 | the search loop delivers the first usable group's samples, or zeros when there is none |
| Apds.FindLast | drivers/i2c/apds9960_driver.go:1594-1605 | the downward loop delivers the last usable group's samples, or zeros when there is none |
| Apds.Spread | drivers/i2c/apds9960_driver.go:1101-1111 | lane entry k is data[4k + lane] for the first n groups and the old entry beyond |
| Apds.SpreadStep | drivers/i2c/apds9960_driver.go:1101-1111 | storing group k extends the spread by exactly entry k |
| Apds.Session | drivers/i2c/apds9960_driver.go:1066-1126 | every session returns 0xFF, or NONE with the classifier state reset, and keeps 32 samples per lane |
| Apds.SessionFails | drivers/i2c/apds9960_driver.go:1066-1126 | a session returns 0xFF if and only if some poll fails while every earlier poll was a skip or a drain |
| Apds.SessionEndsAtOnce | drivers/i2c/apds9960_driver.go:1066-1126 | without polls, or when the first poll has GVALID clear, the session returns NONE with the state reset and the samples untouched |
| Apds.Driver.constructor | drivers/i2c/apds9960_driver.go:241-255 | a driver over the given bank with fresh 32-entry sample arrays, zero counters and a zero classifier state |
| Apds.Driver.ReadRegister | drivers/i2c/apds9960_driver.go:586-595 | a whole-register getter returns exactly the bus read |
| Apds.Driver.WriteRegister | drivers/i2c/apds9960_driver.go:597-604 | a whole-register setter is exactly one Put step |
| Apds.Driver.GetField | drivers/i2c/apds9960_driver.go:459-469 | a field getter returns the read's status and the field of the byte read (0 on failure), with no bit outside the mask |
| Apds.Driver.SetField | drivers/i2c/apds9960_driver.go:471-489 | a field setter is exactly one SetBits step |
| Apds.Driver.ReadPair | drivers/i2c/apds9960_driver.go:626-647 | a 16-bit getter returns exactly PairRead |
| Apds.Driver.WritePair | drivers/i2c/apds9960_driver.go:649-665 | a 16-bit setter writes the big-endian bytes of x to L then H, stopping at the first failure |
| Apds.Driver.GetMode | drivers/i2c/apds9960_driver.go:418-426 | getMode returns the ENABLE read |
| Apds.Driver.SetMode | drivers/i2c/apds9960_driver.go:428-457 | setMode is exactly one Mode step |
| Apds.Driver.EnablePower | drivers/i2c/apds9960_driver.go:1131-1134 | EnablePower is setMode(POWER, 1) |
| Apds.Driver.DisablePower | drivers/i2c/apds9960_driver.go:1136-1139 | disablePower is setMode(POWER, 0) |
| Apds.Driver.GetLedDrive | drivers/i2c/apds9960_driver.go:459-469 | returns CONTROL bits 7-6 of the byte read |
| Apds.Driver.SetLedDrive | drivers/i2c/apds9960_driver.go:471-489 | writes CONTROL bits 7-6 by read-modify-write |
| Apds.Driver.GetGestureIntEnable | drivers/i2c/apds9960_driver.go:491-501 | returns GCONF4 bit 1 |
| Apds.Driver.SetGestureIntEnable | drivers/i2c/apds9960_driver.go:503-521 | writes GCONF4 bit 1 |
| Apds.Driver.GetProximityGain | drivers/i2c/apds9960_driver.go:523-533 | returns CONTROL bits 3-2 |
| Apds.Driver.SetProximityGain | drivers/i2c/apds9960_driver.go:535-553 | writes CONTROL bits 3-2 |
| Apds.Driver.GetAmbientLightGain | drivers/i2c/apds9960_driver.go:555-565 | returns CONTROL bits 1-0 |
| Apds.Driver.SetAmbientLightGain | drivers/i2c/apds9960_driver.go:567-584 | writes CONTROL bits 1-0 |
| Apds.Driver.GetGestureGain | drivers/i2c/apds9960_driver.go:748-758 | returns GCONF2 bits 6-5 |
| Apds.Driver.SetGestureGain | drivers/i2c/apds9960_driver.go:760-778 | writes GCONF2 bits 6-5 |
| Apds.Driver.GetGestureLedDrive | drivers/i2c/apds9960_driver.go:780-790 | returns GCONF2 bits 4-3 |
| Apds.Driver.SetGestureLedDrive | drivers/i2c/apds9960_driver.go:792-810 | writes GCONF2 bits 4-3 |
| Apds.Driver.GetGestureWaitTime | drivers/i2c/apds9960_driver.go:812-822 | returns GCONF2 bits 2-0 |
| Apds.Driver.SetGestureWaitTime | drivers/i2c/apds9960_driver.go:824-841 | writes GCONF2 bits 2-0 |
| Apds.Driver.GetGestureMode | drivers/i2c/apds9960_driver.go:1141-1151 | returns GCONF4 bit 0 |
| Apds.Driver.SetGestureMode | drivers/i2c/apds9960_driver.go:1153-1170 | writes GCONF4 bit 0 |
| Apds.Driver.GetProximityIntEnable | drivers/i2c/apds9960_driver.go:1200-1210 | returns ENABLE bit 5 |
| Apds.Driver.SetProximityIntEnable | drivers/i2c/apds9960_driver.go:1212-1230 | writes ENABLE bit 5 |
| Apds.Driver.GetAmbientLightIntEnable | drivers/i2c/apds9960_driver.go:1232-1242 | returns ENABLE bit 4 |
| Apds.Driver.SetAmbientLightIntEnable | drivers/i2c/apds9960_driver.go:1244-1262 | writes ENABLE bit 4 |
| Apds.Driver.GetProxPhotoMask | drivers/i2c/apds9960_driver.go:1300-1314 | returns CONFIG3 bits 3-0, but 0xFF when the read fails and 0 without a connection |
| Apds.Driver.SetProxPhotoMask | drivers/i2c/apds9960_driver.go:1316-1333 | writes CONFIG3 bits 3-0 |
| Apds.Driver.GetLedBoost | drivers/i2c/apds9960_driver.go:1343-1353 | returns GCONF2 bits 5-4 |
| Apds.Driver.SetLedBoost | drivers/i2c/apds9960_driver.go:1355-1373 | writes GCONF2 bits 5-4 (see LedBoostOverlapsGestureFields) |
| Apds.Driver.GetProxGainCompEnable | drivers/i2c/apds9960_driver.go:1375-1385 | returns GCONF3 bit 5 |
| Apds.Driver.SetProxGainCompEnable | drivers/i2c/apds9960_driver.go:1387-1405 | writes GCONF3 bit 5 with the 0xCF clear mask (see ProxGainCompClearsBit4) |
| Apds.Driver.GetProxIntLowThresh | drivers/i2c/apds9960_driver.go:586-595 | returns the PILT read |
| Apds.Driver.SetProxIntLowThresh | drivers/i2c/apds9960_driver.go:597-604 | writes PILT |
| Apds.Driver.GetProxIntHighThresh | drivers/i2c/apds9960_driver.go:606-615 | returns the PIHT read |
| Apds.Driver.SetProxIntHighThresh | drivers/i2c/apds9960_driver.go:617-624 | writes PIHT |
| Apds.Driver.GetProximityIntHighThreshold | drivers/i2c/apds9960_driver.go:1264-1271 | returns the PIHT read |
| Apds.Driver.SetProximityIntHighThreshold | drivers/i2c/apds9960_driver.go:1273-1280 | writes PIHT |
| Apds.Driver.GetProximityIntLowThreshold | drivers/i2c/apds9960_driver.go:1282-1289 | returns the PILT read |
| Apds.Driver.SetProximityIntLowThreshold | drivers/i2c/apds9960_driver.go:1291-1298 | writes PILT |
| Apds.Driver.GetGestureEnterThresh | drivers/i2c/apds9960_driver.go:708-717 | returns the GPENTH read |
| Apds.Driver.SetGestureEnterThresh | drivers/i2c/apds9960_driver.go:719-726 | writes GPENTH |
| Apds.Driver.GetGestureExitThresh | drivers/i2c/apds9960_driver.go:728-737 | returns the GEXTH read |
| Apds.Driver.SetGestureExitThresh | drivers/i2c/apds9960_driver.go:739-746 | writes GEXTH |
| Apds.Driver.GetLightIntLowThreshold | drivers/i2c/apds9960_driver.go:626-647 | returns AILTL + (AILTH << 8), or the partial value on failure |
| Apds.Driver.SetLightIntLowThreshold | drivers/i2c/apds9960_driver.go:649-665 | writes x's high byte to AILTL and its low byte to AILTH |
| Apds.Driver.GetLightIntHighThreshold | drivers/i2c/apds9960_driver.go:667-688 | returns AIHTL + (AIHTH << 8), or the partial value on failure |
| Apds.Driver.SetLightIntHighThreshold | drivers/i2c/apds9960_driver.go:690-706 | writes x's high byte to AIHTL and its low byte to AIHTH |
| Apds.Driver.ClearProximityInt | drivers/i2c/apds9960_driver.go:1172-1184 | fails without a connection or with PICLEAR unreadable (control register error), succeeds otherwise |
| Apds.Driver.ClearAmbientLightInt | drivers/i2c/apds9960_driver.go:1186-1198 | fails without a connection or with AICLEAR unreadable (control register error), succeeds otherwise |
| Apds.Driver.ReadAmbientLight | drivers/i2c/apds9960_driver.go:1407-1428 | returns CDATAL + (CDATAH << 8), or the partial value on failure |
| Apds.Driver.ReadRedLight | drivers/i2c/apds9960_driver.go:1430-1451 | returns RDATAL + (RDATAH << 8), or the partial value on failure |
| Apds.Driver.ReadGreenLight | drivers/i2c/apds9960_driver.go:1453-1474 | returns GDATAL + (GDATAH << 8), or the partial value on failure |
| Apds.Driver.ReadBlueLight | drivers/i2c/apds9960_driver.go:1476-1497 | returns BDATAL + (BDATAH << 8), or the partial value on failure |
| Apds.Driver.ReadProximity | drivers/i2c/apds9960_driver.go:1499-1507 | returns the PDATA read |
| Apds.Driver.Start | drivers/i2c/apds9960_driver.go:267-405 | Start's new bank and status are exactly StartSpec: the ID check, then the 32 steps stopping at the first failure |
| Apds.Driver.ApplyStartTimings | drivers/i2c/apds9960_driver.go:283-311 | all functions off, then the timing, pulse, offset and CONFIG1 writes, stopping at the first failure |
| Apds.Driver.ApplyStartSensing | drivers/i2c/apds9960_driver.go:312-339 | LED drive, gains, proximity thresholds and the two light thresholds, stopping at the first failure |
| Apds.Driver.ApplyStartControls | drivers/i2c/apds9960_driver.go:340-363 | PERS, CONFIG2, CONFIG3, the gesture enter and exit thresholds and CONFIG1, stopping at the first failure |
| Apds.Driver.ApplyStartGestureSetup | drivers/i2c/apds9960_driver.go:364-403 | the gesture gain, drive, wait time, offsets, pulses, GCONF3 and interrupt enable, stopping at the first failure |
| Apds.Driver.EnableLightSensor | drivers/i2c/apds9960_driver.go:843-874 | ambient gain, ambient interrupt enable, power and ALS on, stopping at the first failure |
| Apds.Driver.DisableLightSensor | drivers/i2c/apds9960_driver.go:876-893 | ambient interrupt off, then ALS off |
| Apds.Driver.EnableProximitySensor | drivers/i2c/apds9960_driver.go:895-931 | proximity gain, LED drive, proximity interrupt enable, power and proximity on, stopping at the first failure |
| Apds.Driver.DisableProximitySensor | drivers/i2c/apds9960_driver.go:933-950 | proximity interrupt off, then proximity off |
| Apds.Driver.EnableGestureSensor | drivers/i2c/apds9960_driver.go:952-1009 | with a connection, the gesture state is reset and the nine gesture steps run, stopping at the first failure; without one nothing changes |
| Apds.Driver.ApplyGestureSteps | drivers/i2c/apds9960_driver.go:958-1009 | EnableGestureSensor's writes are its two phases in order |
| Apds.Driver.ApplyGesturePrep | drivers/i2c/apds9960_driver.go:958-989 | WTIME 0xFF, the gesture pulse count, LED boost 300%, the gesture interrupt enable and gesture mode, stopping at the first failure |
| Apds.Driver.ApplyGestureModesOn | drivers/i2c/apds9960_driver.go:990-1009 | power, wait, proximity and gesture bits on, stopping at the first failure |
| Apds.Driver.DisableGestureSensor | drivers/i2c/apds9960_driver.go:1011-1033 | gesture interrupt off, gesture mode off, gesture bit off |
| Apds.Driver.ResetGestureParameters | drivers/i2c/apds9960_driver.go:1335-1341 | index, totalGestures and the whole classifier state become zero |
| Apds.Driver.IsGestureAvailable | drivers/i2c/apds9960_driver.go:1035-1048 | true exactly when the connection exists, GSTATUS is readable and its GVALID bit is set |
| Apds.Driver.ProcessGestureData | drivers/i2c/apds9960_driver.go:1554-1668 | the new classifier state is exactly Process of the old state and the stored groups |
| Apds.Driver.Accumulate | drivers/i2c/apds9960_driver.go:1608-1666 | the ratio changes of the first and last groups are accumulated, then the near/far rules applied |
| Apds.Driver.CountDeltas | drivers/i2c/apds9960_driver.go:1618-1635 | the sums grow by the changes and the counts are discretised from them |
| Apds.Driver.TrackNearFar | drivers/i2c/apds9960_driver.go:1637-1666 | the near/far bookkeeping is exactly NearFar |
| Apds.Driver.DecodeGesture | drivers/i2c/apds9960_driver.go:1509-1552 | the new classifier state is exactly Decode of the old |
| Apds.Driver.PollStep | drivers/i2c/apds9960_driver.go:1069-1126 | a failure returns 0xFF and leaves samples and state untouched; a skip changes nothing; session end decodes, resets, and returns the reset motion 0; a drain stores group k at entry k, then processes, decodes and zeroes index and totalGestures |
| Apds.Driver.StoreGroups | drivers/i2c/apds9960_driver.go:1101-1111 | each sample array's entry k becomes data[4k + lane] for the n groups, and index = totalGestures = n (at most 32) |
| Apds.Driver.StoreGroup | drivers/i2c/apds9960_driver.go:1102-1105 | entry k of each of the four arrays takes one group's sample, and nothing else changes |
| Apds.Driver.ReadGesture | drivers/i2c/apds9960_driver.go:1050-1129 | GVALID clear (or no connection) returns NONE with the classifier state and samples unchanged; an ENABLE read whose power and gesture bits (0x41) are both clear, or which fails, returns the stored motion unchanged; otherwise the result, the classifier state and the four sample arrays are exactly what `Session` gives for the polls |

## Left out

- Lifecycle plumbing is not modelled: `NewAPDS9960Driver`, `Name`, `SetName`, `Connection`, `Stop`, `Halt`, and the bus and address lookup in `Start`. A failed connection lookup appears as the bank's `connected` flag. The driver class's constructor starts from zeroed arrays and state.
- The real I²C transport is not modelled. It becomes a bank of registers with fixed sets of unreadable and unwritable registers, and a failed read delivers 0. Transfers that fail only sometimes, and device-side effects, are not captured. Examples are that reading PICLEAR/AICLEAR clears an interrupt, and that reading the FIFO drains it.
- ReadGesture's GSTATUS and GFLVL reads, and the FIFO block transfers, are not read from the register bank. One `Poll` value per loop iteration supplies them instead. A poll past the given list is taken to report GVALID clear, which bounds the otherwise unbounded polling loop.
- `time.Sleep` and the `fmt.Println` diagnostics are left out: they are timing and logging only.
- IEEE float arithmetic is left out. The `float32` ratios become truncating integer division: the operands exceed 10 and the denominator is at most 510, so the two agree. `math.Abs` and `math.Min` become integer functions.
- setMode's second connection check is not modelled, because the earlier read has already failed without a connection so the check cannot be reached.
- The `inThreshold`/`outThreshold` configuration fields are not modelled, because the code never reads them.
- Apds.Driver.ProcessGestureData: requires `totalGestures <= 32`, which every caller guarantees because the store loop stops at 32. For larger counts the source skips the searches and divides 0 by 0 in `float32`. That path is not modelled.
- Integer widths: the classifier's `int` sums are unbounded here, and 64-bit overflow of the sums is not modelled. Byte and 16-bit arithmetic uses `bv8`/`bv16`, so it wraps as in Go.
- Concurrency: the driver has none.
