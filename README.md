# STUSB4500 I2C high-level analyzer, modelled in Dafny

The analyzer in `HighLevelAnalyzer.py` sits on top of a logic analyser's I2C decoder. It turns bus traffic to and from an STUSB4500 USB-PD sink controller into annotated frames. The I2C layer hands it one input frame at a time: start, address, data, stop or error. Out of these the class `Hla` assembles a working "hi2c" frame with the fields `address`, `description`, `data`, `action` and `count`. At each stop condition it returns one output frame, classified as one of:

- a response to an earlier read request;
- a ping (address only);
- a register read request;
- a write.

The first data byte of a transaction selects the register. Every further byte goes to that register's field decoder, which appends comma-separated clauses naming the bits and fields it finds. The sink PDO registers and `RDO_REG_STATUS_0` are 32-bit values spread over four bytes. They share an accumulator that folds the bytes least-significant first and shows voltage and current when the fourth byte arrives.

The project has six modules, one per file:

- `Wrappers` (`wrappers.dfy`): the `Option` type that stands for Python's `None`.
- `Text` (`text.dfy`): the text primitives.
  - Python's `hex()` and `str()` on non-negative integers, with a parser that proves them injective.
  - The separator rule of `add_action` / `add_description`: `", "` only when the field is already non-empty.
- `Catalog` (`catalog.dfy`): the register catalog.
  - The decoder addresses.
  - The register-name table, including its duplicated names for 0x4b–0x4e.
  - The NVM enumeration tables and the bit-mask constants.
  - Registers are keyed by byte value; `Text.HexInjective` shows this is equivalent to keying by `hex()` text.
- `Fields` (`fields.dfy`): each field decoder as a pure function from the byte to the list of clauses it appends, in order. Lemmas state which bits each clause reports. The source's quirks are kept and proved:
  - the unmasked shift in PORT_STATUS_1;
  - the unreachable branches of TYPEC_STATUS;
  - the missing hard-reset-recovery state of PE_FSM;
  - the `elif` priority of PRT_STATUS;
  - the total opcode table of control 1.
- `Machine` (`machine.dfy`): the frame-assembly state machine of `Hla.decode` as a pure reference model.
  - `DecoderState` holds the eight analyzer fields. `Step` is one call of `decode`; `Run` is a sequence of calls.
  - The register context is `register_type`, `data_byte`, `Maybe_reading` and `request_register_type`; the accumulator is `snk_count` and `snk_data`.
  - Lemmas cover the stop classification, the register selection, the response to a pending read, and the four-byte accumulation.
  - The invariant `Valid` is preserved by every step: fewer than four bytes are pending, they fit in that many bytes, and a pending read names its register.
- `Analyzer` (`analyzer.dfy`): the class `Hla` with the source's mutable fields.
  - Each `add_*` helper and each `decode_*` decoder is a `modifies` method that updates the fields as the source does.
  - Each method is proved to perform exactly its transformer of `Machine`.
  - `Hla.Decode` performs exactly one `Machine.Step`.

Where the intent and the code differ, the model follows the code:

- A transaction with only an address, sent while a read request is pending, is classified as a response rather than a ping (`Machine.AddressOnlyWhilePending`).
- A write whose only data reaches the raw-data path (`add_databyte`) leaves `data_unknown` set. It is therefore classified as a read request, and its data does not appear in the read frame (`Machine.RawWriteBecomesReadRequest`).
- `add_description` puts the separator after the labels it is given. A response's description is therefore `"Responds:, "` followed by the old description. A read request's description is `"Obtain , "` followed by the register name.
- Responses and writes are both emitted as "hi2c" frames. The source declares a "resp" display type but never uses it.

## Model

| member | source | states |
|---|---|---|
| Text.HexRoundTrip | HighLevelAnalyzer.py:331-333 | the `hex()` text (`Hex`) of a number reads back as that number: `0x`, then lowercase digits, with nothing lost |
| Text.HexInjective | HighLevelAnalyzer.py:53-125 | two numbers have the same `hex()` text exactly when they are equal, so keying the tables by byte is equivalent to keying by `hex()` text |
| Text.StrInjective | HighLevelAnalyzer.py:555-581 | two numbers have the same decimal `str()` text exactly when they are equal |
| Text.StrRoundTrip | HighLevelAnalyzer.py:555-581 | the decimal `str()` text (`Str`) reads back as the number it was printed from |
| Text.DigitsRoundTrip | HighLevelAnalyzer.py:331-333 | the digits of n in any base from 2 to 16 parse back to n |
| Text.DigitsNoLeadingZero | HighLevelAnalyzer.py:331-333 | the first digit is '0' only for the number 0 (no padding) |
| Text.JoinShape | HighLevelAnalyzer.py:498-509 | `Join`: a separated append keeps the old field as a prefix and ends with the new text; it adds `", "` between them exactly when the field was non-empty |
| Text.JoinAllFromEmpty | HighLevelAnalyzer.py:498-502 | successive `add_action` calls of non-empty clauses on an empty field give the clauses joined by `", "` |
| Text.JoinedNonEmpty | HighLevelAnalyzer.py:498-502 | a non-empty list of non-empty clauses never joins to the empty text |
| Text.JoinAllAppend | HighLevelAnalyzer.py:498-502 | two runs of `add_action` calls are the run of their concatenation |
| Text.JoinThenAppend | HighLevelAnalyzer.py:696-716 | a plain append after a separated append extends the last clause |
| Text.JoinAllSnoc | HighLevelAnalyzer.py:498-502 | one more `add_action` call extends the run by one clause |
| Text.JoinAllShape | HighLevelAnalyzer.py:498-502 | a run of `add_action` calls (`JoinAll`) keeps the old field as a prefix and ends with the last clause; on a non-empty field each call adds at least its separator |
| Catalog.DuplicateObjectNames | HighLevelAnalyzer.py:107-110 | `Lookup`: 0x4b–0x4e are named, and carry the same names as 0x47–0x4a (RX_DATA_OBJ6_0..3) |
| Catalog.Control0SectorDomain | HighLevelAnalyzer.py:135-142 | the control 0 sector table names exactly the sectors 0..4 |
| Catalog.Control1OpcodeTotal | HighLevelAnalyzer.py:144-153 | the control 1 opcode table names all eight 3-bit opcodes |
| Catalog.Control1SectorDomain | HighLevelAnalyzer.py:155-162 | the control 1 sector table names exactly 0x00, 0x01, 0x02, 0x04, 0x08 and 0x10 |
| Fields.PasswdSetIffUnlock | HighLevelAnalyzer.py:791-800 | `PasswdAction`: the password decoder says "set" exactly when the byte is 0x47 and "clear" otherwise |
| Fields.Control0Clauses | HighLevelAnalyzer.py:585-609 | `Control0Actions`: "Reset" appears iff bit 6 is clear, "FTP_CUST_RST_N" iff bit 6 is set, "FTP_CUST_PWR" iff bit 7, "FTP_CUST_REQ" iff bit 4 |
| Fields.Control0SectorIsName | HighLevelAnalyzer.py:135-142 | no sector name coincides with a flag clause of control 0 |
| Fields.Control0SectorClause | HighLevelAnalyzer.py:601-607 | `Control0Sector`: the last control 0 clause is "Sector?" exactly when the sector field is 5, 6 or 7 |
| Fields.Control1Clauses | HighLevelAnalyzer.py:611-631 | `Control1Actions`: the first clause is the opcode's table name and never "Opcode?"; the second is "Sector?" exactly when bits 7..3 are not a table key |
| Fields.AlertMaskLossless | HighLevelAnalyzer.py:1155-1184 | `AlertMaskActions`: two bytes give the same alert-mask clauses exactly when they agree on bits 6, 5, 4 and 0 |
| Fields.AlertStatus1Clauses | HighLevelAnalyzer.py:1129-1153 | `AlertStatus1Actions`: each alert clause appears exactly when its bit is set; no clause at all iff none of bits 6, 5, 4, 0 is set |
| Fields.TypecMonitoringStatus0Clauses | HighLevelAnalyzer.py:1098-1127 | `TypecMonitoringStatus0Actions`: each transition and error clause appears exactly when its bit is set; there are 2 to 5 clauses |
| Fields.TypecMonitoringStatus1Lossless | HighLevelAnalyzer.py:1070-1096 | `TypecMonitoringStatus1Actions`: two bytes give the same clauses exactly when they agree on bits 3..1 |
| Fields.CcHwFaultStatus0Clauses | HighLevelAnalyzer.py:718-731 | `CcHwFaultStatus0Actions`: "VPU_VALID_TRANS" iff bit 4, "VPU_OVP_FAULT_TRANS" iff bit 5 |
| Fields.CcHwFaultStatus1Lossless | HighLevelAnalyzer.py:733-759 | `CcHwFaultStatus1Actions`: there are always three clauses, and two bytes give the same ones exactly when they agree on bits 7, 6 and 4 |
| Fields.CcHwFaultStatus1Order | HighLevelAnalyzer.py:743-757 | the three clauses come as overvoltage (bit 7), CC valid (bit 6), VBUS discharge (bit 4), each in its set or clear form; 0xd0 gives all three set forms |
| Fields.CcStatusClauses | HighLevelAnalyzer.py:1027-1068 | `CcStatusActions`: "Try connecting" leads iff bit 5; "PRESENT_RD" appears iff bit 4; with bit 4 set, each CC line's "Default", "Power1_5" or "Power3_0" clause appears exactly when its 2-bit field is 1, 2 or 3 (CC2 bits 3..2, CC1 bits 1..0); without bit 4 there is one clause; there are at most four |
| Fields.PdTypecStatusReserved | HighLevelAnalyzer.py:1000-1025 | `PdTypecStatusAction`: the PD/Type-C status is "reserved" exactly when the byte is not 0x00, 0x08, 0x0e or 0x0f |
| Fields.PrtStatusPriority | HighLevelAnalyzer.py:977-998 | `PrtStatusAction`: the protocol status follows the `elif` priority bit 0, then bit 2, then bit 4, else "reserved" |
| Fields.MonitoringCtrl0Lossless | HighLevelAnalyzer.py:854-886 | `MonitoringCtrl0Actions`: two bytes give the same clauses exactly when they agree on bits 3..0 |
| Fields.MonitoringCtrl2Lossless | HighLevelAnalyzer.py:761-773 | `MonitoringCtrl2Actions`: two bytes give the same clauses exactly when they are equal (both nibbles are shown) |
| Fields.DischargeTimeText | HighLevelAnalyzer.py:775-789 | `DischargeTimeAction`: the discharge time actions are each label, `", "`, then that nibble in decimal, low nibble first |
| Fields.VbusDischargeCtrlLossless | HighLevelAnalyzer.py:825-840 | `VbusDischargeCtrlActions`: two bytes give the same clauses exactly when they agree on bits 7 and 6 |
| Fields.SingleBitLossless | HighLevelAnalyzer.py:802-852 | `ResetCtrlAction`, `GpioSwGpioAction`, `VbusCtrlAction`: RESET_CTRL and GPIO_SW_GPIO report exactly bit 0, VBUS_CTRL exactly bit 1 |
| Fields.PortStatus1Device | HighLevelAnalyzer.py:953-962 | `AttachedDevice`: an attached-device name appears exactly when the unmasked `byte >> 5` is 0, 1 or 3 |
| Fields.PortStatus1Clauses | HighLevelAnalyzer.py:938-975 | `PortStatus1Actions`: "Attached"/"Unattached" follow bit 1, "Device sinking power" bit 3, "UFP" bit 2 |
| Fields.AttachedDeviceIsName | HighLevelAnalyzer.py:953-962 | no attached-device name coincides with another PORT_STATUS_1 clause |
| Fields.TypecStatusUnreachable | HighLevelAnalyzer.py:888-936 | `TypecStatusActions`: after the 0x1f mask the 0xc0, 0xd0 and 0xe0 states never appear; a state name is shown exactly for 0x00–0x03 and 0x13 |
| Fields.DescriptionTexts | HighLevelAnalyzer.py:696-716 | `PdCommandText` is "Send command" exactly for 0x26 and `TxHeaderLowText` is "Soft Reset" exactly for 0x0d; both are "Unknown" otherwise |
| Fields.PeFsmReserved | HighLevelAnalyzer.py:638-694 | `PeFsmState`: the policy engine state is "reserved" exactly off its fifteen listed values, including the hard-reset-recovery value 0x1b |
| Fields.VoltageTextOneDecimal | HighLevelAnalyzer.py:1201-1209 | `VoltageText`: `str(x / 20)` samples with one decimal: 100 gives "5.0", 102 gives "5.1" |
| Fields.VoltageTextTwoDecimals | HighLevelAnalyzer.py:1201-1209 | `VoltageText`: `str(x / 20)` samples with two decimals: 101 gives "5.05", 1023 gives "51.15" |
| Fields.CurrentFromBytes | HighLevelAnalyzer.py:1201-1202 | `CurrentField`: the current field of the little-endian word (`LittleEndian32`) is byte 0 plus bits 1..0 of byte 1 |
| Fields.VoltageFromBytes | HighLevelAnalyzer.py:1204-1205 | `VoltageField`: the voltage field is bits 7..2 of byte 1 plus bits 3..0 of byte 2 |
| Fields.RdoFlagsFromBytes | HighLevelAnalyzer.py:555-581 | `ObjectPosition` and `RdoBit`: the word is 32 bits; the object position is bits 6..4 of byte 3, and the five flags are bit 7 of byte 2 and bits 0..3 of byte 3 |
| Fields.UnchunkedFromBytes | HighLevelAnalyzer.py:560-562 | the unchunked-message flag is bit 7 of byte 2 |
| Fields.UsbSuspendFromBytes | HighLevelAnalyzer.py:564-566 | the USB-suspend flag is bit 0 of byte 3 |
| Fields.UsbComCapFromBytes | HighLevelAnalyzer.py:568-570 | the USB-communication flag is bit 1 of byte 3 |
| Fields.CapaMismatchFromBytes | HighLevelAnalyzer.py:572-574 | the capability-mismatch flag is bit 2 of byte 3 |
| Fields.GiveBackFromBytes | HighLevelAnalyzer.py:576-578 | the give-back flag is bit 3 of byte 3 |
| Fields.Pow256IsShift | HighLevelAnalyzer.py:1190-1194 | the accumulator's weight 256^k for byte k is the shift `<< (8 * k)`, i.e. the same powers of two `RdoBit` divides by |
| Machine.DecoderState.AddDescription | HighLevelAnalyzer.py:504-509 | `add_description` keeps a working frame and changes neither the register context nor the accumulator |
| Machine.DecoderState.AddRegister | HighLevelAnalyzer.py:511-517 | `add_register` keeps a working frame and changes neither the register context nor the accumulator |
| Machine.DecoderState.AddActions | HighLevelAnalyzer.py:498-502 | `add_action` calls keep a working frame and change neither the register context nor the accumulator |
| Machine.DecoderState.AppendDescription | HighLevelAnalyzer.py:549-552 | a plain append to the description changes neither the register context nor the accumulator |
| Machine.DecoderState.AppendData | HighLevelAnalyzer.py:554 | a plain append to the data changes neither the register context nor the accumulator |
| Machine.DecoderState.AddCount | HighLevelAnalyzer.py:553 | raising the byte count changes neither the register context nor the accumulator |
| Machine.DecoderState.AddDatabyte | HighLevelAnalyzer.py:490-496 | `add_databyte` changes neither the register context nor the accumulator |
| Machine.DecoderState.SinkShow | HighLevelAnalyzer.py:1196-1209 | showing a completed PDO changes neither the register context nor the accumulator |
| Machine.DecoderState.SinkPdoByte | HighLevelAnalyzer.py:1186-1214 | a sink PDO byte keeps a working frame |
| Machine.DecoderState.RdoByte | HighLevelAnalyzer.py:519-583 | an RDO byte keeps a working frame |
| Machine.DecoderState.ApplyDecoder | HighLevelAnalyzer.py:348-440 | every decoder keeps a working frame; all but the two accumulators change neither the register context nor the accumulator |
| Machine.DecoderState.ActionDecoder | HighLevelAnalyzer.py:585-1184 | a clause decoder changes neither the register context nor the accumulator |
| Machine.DecoderState.PdoNumbDecoder | HighLevelAnalyzer.py:633-636 | the PDO-number decoder changes neither the register context nor the accumulator |
| Machine.DecoderState.DescriptionTextDecoder | HighLevelAnalyzer.py:696-716 | the PD_COMMAND_CTRL and TX_HEADER_LOW decoders change neither the register context nor the accumulator |
| Machine.DecoderState.DischargeTimeDecoder | HighLevelAnalyzer.py:775-789 | the discharge time decoder changes neither the register context nor the accumulator |
| Machine.DecoderState.PeFsmDecoder | HighLevelAnalyzer.py:638-694 | the PE_FSM decoder changes neither the register context nor the accumulator |
| Machine.DecoderState.OnData | HighLevelAnalyzer.py:335-440 | a data byte keeps a working frame |
| Machine.SinkAccumulateBound | HighLevelAnalyzer.py:1188-1194 | `SinkAccumulate`: folding one more byte raises the count by one and keeps the value below 256^count |
| Machine.ApplyDecoderKeeps | HighLevelAnalyzer.py:348-440 | no decoder changes the register, the data byte, the pending-read flag or the requested register; each preserves `Valid` |
| Machine.SinkKeeps | HighLevelAnalyzer.py:519-583 | the accumulators keep the register context and preserve `Valid` |
| Machine.StepPreservesValid | HighLevelAnalyzer.py:311-488 | every input frame preserves `Valid` (accumulator in range, pending read names its register) |
| Machine.OnStopValid | HighLevelAnalyzer.py:442-488 | the stop branch preserves `Valid` |
| Machine.OnDataValid | HighLevelAnalyzer.py:335-440 | the data branch preserves `Valid` |
| Machine.StepOutput | HighLevelAnalyzer.py:311-488 | `Step`: a frame is returned exactly on stop; otherwise a working frame exists; after a stop the state is reset and a read is pending exactly when the output is a read request |
| Machine.RunOutputCount | HighLevelAnalyzer.py:311-488 | `Run`: a sequence of input frames returns exactly one frame per stop |
| Machine.RunPreservesValid | HighLevelAnalyzer.py:311-488 | `Valid` holds after any sequence of input frames |
| Machine.InitialState | HighLevelAnalyzer.py:294-301 | the initial fields are valid and reset, with no read pending |
| Machine.TransactionRun | HighLevelAnalyzer.py:311-488 | start, address, data bytes, stop: one frame, the stop of the frame built from those bytes |
| Machine.TransactionOpens | HighLevelAnalyzer.py:318-333 | `NewFrame`: a start and an address create the frame with that start time and the address in hex |
| Machine.StepErrorMarks | HighLevelAnalyzer.py:318-329 | an error frame returns nothing and sets the description to "error"; an existing frame keeps its other fields, otherwise a fresh frame with address "error" is made; register context and accumulator are kept |
| Machine.PingWhenIdle | HighLevelAnalyzer.py:456-464 | an address-only transaction with no read pending is a ping carrying the address; the accumulator is untouched |
| Machine.AddressOnlyWhilePending | HighLevelAnalyzer.py:446-453 | an address-only transaction while a read is pending is a response `"Responds:, "`, not a ping |
| Machine.ReadRequestWhenIdle | HighLevelAnalyzer.py:466-477 | a one-byte transaction is a read request `"Obtain , "` + register name that arms the pending read for that register |
| Machine.StopResponds | HighLevelAnalyzer.py:446-453 | with a read pending, stop returns the frame prefixed `"Responds:"` and clears the pending read |
| Machine.StopPing | HighLevelAnalyzer.py:456-464 | with no data and no register, stop returns a ping with the frame's start time and address |
| Machine.StopReadRequest | HighLevelAnalyzer.py:466-477 | with no data but a register, stop returns a read request and arms `request_register_type` and `Maybe_reading` |
| Machine.StopWrite | HighLevelAnalyzer.py:478-486 | with data shown, stop returns the frame as written and clears the pending read |
| Machine.StopKeepsAccumulator | HighLevelAnalyzer.py:442-488 | `OnStop` and `EndTransaction`: after every stop the frame and register are cleared and `data_unknown` is set, while `snk_count`, `snk_data` and the data byte are kept; `request_register_type` changes only when a read request is recorded |
| Machine.OnlyDescriptionKnowsData | HighLevelAnalyzer.py:490-517 | only `add_description` and `add_register` clear `data_unknown`; `add_databyte`, `add_action` and the plain appends leave it alone |
| Machine.AddRegisterNames | HighLevelAnalyzer.py:511-517 | `RegisterLabel`: `add_register` appends the catalog name of a known register and "unknown" otherwise, and touches neither action nor data |
| Machine.AddDatabyteShows | HighLevelAnalyzer.py:490-496 | `add_databyte` adds one to the count, the byte's hex text as a separated data clause and "data only" to the description |
| Machine.PdoNumbShows | HighLevelAnalyzer.py:633-636 | `decode_DPM_PDO_NUMB` adds the register label as a description clause and the hex of the 3-bit PDO number (`b & 0x07`) as plain data, clears `data_unknown`, and leaves action, count and address alone |
| Machine.DataNamesRegister | HighLevelAnalyzer.py:343-345 | the first byte with no read pending selects the register and runs no decoder |
| Machine.DataDecoded | HighLevelAnalyzer.py:335-440 | a later byte goes to the decoder of the register, the requested one when a read is pending |
| Machine.ActionDecoderStep | HighLevelAnalyzer.py:348-428 | proof helper: unfolds a clause decoder to the appending of its clause list for the byte |
| Machine.ActionDecoderOnFresh | HighLevelAnalyzer.py:585-1184 | `ActionClauses`: on an empty frame a clause decoder leaves the register name, the byte in hex and its clauses, and clears `data_unknown` |
| Machine.ActionByteOnFresh | HighLevelAnalyzer.py:335-440 | the same through a data byte, with the register restored from the pending read |
| Machine.ResponseUsesRequestedRegister | HighLevelAnalyzer.py:338-341 | a one-byte response to a pending read is decoded as the requested register and returned as `"Responds:, "` + its name |
| Machine.WriteDecoded | HighLevelAnalyzer.py:311-488 | register + byte to a clause register is a write frame with the name, the byte in hex and the clauses |
| Machine.RawWriteBecomesReadRequest | HighLevelAnalyzer.py:490-496 | register + byte to a register with no decoder is classified as a read request `"data only, Obtain , "` + name |
| Machine.RawByte | HighLevelAnalyzer.py:436-440 | a raw byte appends "data only" and leaves `data_unknown` set |
| Machine.SinkByteEarly | HighLevelAnalyzer.py:1188-1194 | bytes 1 to 3 of a PDO or RDO only fold into the accumulator, least significant first |
| Machine.SinkCompleted | HighLevelAnalyzer.py:1196-1214 | `PowerText`: the fourth byte shows name, voltage and current, adds the value in hex and 4 to the count, and resets the accumulator |
| Machine.SinkDecoders | HighLevelAnalyzer.py:360-367 | proof helper: unfolds the routing of a sink PDO or RDO register to its accumulator |
| Machine.SinkRegisters | HighLevelAnalyzer.py:360-433 | `DecoderFor` routes exactly the three sink PDO registers to the PDO accumulator and exactly RDO_REG_STATUS_0 to the RDO accumulator |
| Machine.DecodedRegistersNamed | HighLevelAnalyzer.py:348-433 | every register `DecoderFor` gives a decoder also has a name in the catalog (`Lookup`) |
| Machine.SinkPdoFourth | HighLevelAnalyzer.py:1196-1214 | the fourth sink PDO byte completes the frame and resets the accumulator |
| Machine.RdoFourth | HighLevelAnalyzer.py:538-583 | the fourth RDO byte completes the frame with the RDO clauses (`RdoActions`) in fixed order and resets the accumulator |
| Machine.FirstThree | HighLevelAnalyzer.py:1186-1194 | three bytes leave the frame unchanged and the value b0 + 2^8·b1 + 2^16·b2 pending |
| Machine.PdoAccumulation | HighLevelAnalyzer.py:1186-1214 | `LittleEndian32`: four sink PDO bytes show b0 + 2^8·b1 + 2^16·b2 + 2^24·b3 on the fourth byte only, add 4 to the count and reset the accumulator |
| Machine.RdoAccumulation | HighLevelAnalyzer.py:519-583 | the same for RDO_REG_STATUS_0, with object position and flags 23..27 as actions in this order |
| Analyzer.Hla.constructor | HighLevelAnalyzer.py:294-309 | the fields start at their declared initial values |
| Analyzer.Hla.AddDatabyte | HighLevelAnalyzer.py:490-496 | the fields become those of `Machine.AddDatabyte` |
| Analyzer.Hla.AddAction | HighLevelAnalyzer.py:498-502 | the frame gains one separated action |
| Analyzer.Hla.AddDescription | HighLevelAnalyzer.py:504-509 | the fields become those of `Machine.AddDescription` |
| Analyzer.Hla.AddRegister | HighLevelAnalyzer.py:511-517 | the fields become those of `Machine.AddRegister` |
| Analyzer.Hla.AppendData | HighLevelAnalyzer.py:554 | the frame's data gains the text with no separator; nothing else changes |
| Analyzer.Hla.AppendAction | HighLevelAnalyzer.py:559 | the frame's action gains the text with no separator; nothing else changes |
| Analyzer.Hla.AppendDescription | HighLevelAnalyzer.py:549-552 | the frame's description gains the text with no separator; nothing else changes |
| Analyzer.Hla.ActionNext | HighLevelAnalyzer.py:498-502 | one `add_action` extends the run of clauses appended since the decoder began by exactly that clause |
| Analyzer.Hla.ActionIf | HighLevelAnalyzer.py:718-731 | an `if c: add_action(t)` extends the run by `t` exactly when `c` holds |
| Analyzer.Hla.ActionChoice | HighLevelAnalyzer.py:733-759 | an `if`/`else` pair of `add_action` calls extends the run by the clause of the branch taken |
| Analyzer.Hla.ActionNamed | HighLevelAnalyzer.py:1027-1068 | an `if`/`elif` chain with no `else` extends the run by the name found, or by nothing |
| Analyzer.Hla.ActionValue | HighLevelAnalyzer.py:555-559 | `add_action(name)` then a plain append of the value extends the run by the one clause name + value |
| Analyzer.Hla.PasswdClauses | HighLevelAnalyzer.py:791-800 | the frame gains exactly the clause `Fields.PasswdAction` of the byte |
| Analyzer.Hla.Control0Clauses | HighLevelAnalyzer.py:585-609 | the frame gains exactly the clauses `Fields.Control0Actions` of the byte, in order |
| Analyzer.Hla.Control1Clauses | HighLevelAnalyzer.py:611-631 | the frame gains exactly the clauses `Fields.Control1Actions` of the byte, in order |
| Analyzer.Hla.AlertMaskClauses | HighLevelAnalyzer.py:1155-1184 | the frame gains exactly the clauses `Fields.AlertMaskActions` of the byte, in order |
| Analyzer.Hla.AlertStatus1Clauses | HighLevelAnalyzer.py:1129-1153 | the frame gains exactly the clauses `Fields.AlertStatus1Actions` of the byte, in order |
| Analyzer.Hla.TypecMonitoring0Clauses | HighLevelAnalyzer.py:1098-1127 | the frame gains exactly the clauses `Fields.TypecMonitoringStatus0Actions` of the byte, in order |
| Analyzer.Hla.TypecMonitoring1Clauses | HighLevelAnalyzer.py:1070-1096 | the frame gains exactly the clauses `Fields.TypecMonitoringStatus1Actions` of the byte, in order |
| Analyzer.Hla.CcFault0Clauses | HighLevelAnalyzer.py:718-731 | the frame gains exactly the clauses `Fields.CcHwFaultStatus0Actions` of the byte, in order |
| Analyzer.Hla.CcFault1Clauses | HighLevelAnalyzer.py:733-759 | the frame gains exactly the clauses `Fields.CcHwFaultStatus1Actions` of the byte, in order |
| Analyzer.Hla.CcStatusClauses | HighLevelAnalyzer.py:1027-1068 | the frame gains exactly the clauses `Fields.CcStatusActions` of the byte, in order |
| Analyzer.Hla.PdTypecStatusClauses | HighLevelAnalyzer.py:1000-1025 | the frame gains exactly the clause `Fields.PdTypecStatusAction` of the byte |
| Analyzer.Hla.PrtStatusClauses | HighLevelAnalyzer.py:977-998 | the frame gains exactly the clause `Fields.PrtStatusAction` of the byte |
| Analyzer.Hla.MonitoringCtrl0Clauses | HighLevelAnalyzer.py:854-886 | the frame gains exactly the clauses `Fields.MonitoringCtrl0Actions` of the byte, in order |
| Analyzer.Hla.MonitoringCtrl2Clauses | HighLevelAnalyzer.py:761-773 | the frame gains exactly the clauses `Fields.MonitoringCtrl2Actions` of the byte, in order |
| Analyzer.Hla.ResetCtrlClauses | HighLevelAnalyzer.py:802-811 | the frame gains exactly the clause `Fields.ResetCtrlAction` of the byte |
| Analyzer.Hla.DischargeCtrlClauses | HighLevelAnalyzer.py:825-840 | the frame gains exactly the clauses `Fields.VbusDischargeCtrlActions` of the byte, in order |
| Analyzer.Hla.GpioSwGpioClauses | HighLevelAnalyzer.py:842-852 | the frame gains exactly the clause `Fields.GpioSwGpioAction` of the byte |
| Analyzer.Hla.PortStatus1Clauses | HighLevelAnalyzer.py:938-975 | the frame gains exactly the clauses `Fields.PortStatus1Actions` of the byte, in order |
| Analyzer.Hla.TypecStatusClauses | HighLevelAnalyzer.py:888-936 | the frame gains exactly the clauses `Fields.TypecStatusActions` of the byte, in order |
| Analyzer.Hla.VbusCtrlClauses | HighLevelAnalyzer.py:813-823 | the frame gains exactly the clause `Fields.VbusCtrlAction` of the byte |
| Analyzer.Hla.DecodePasswd | HighLevelAnalyzer.py:791-800 | the password decoder performs its clause decoder |
| Analyzer.Hla.DecodeControl0 | HighLevelAnalyzer.py:585-609 | control 0 performs its clause decoder |
| Analyzer.Hla.DecodeControl1 | HighLevelAnalyzer.py:611-631 | control 1 performs its clause decoder |
| Analyzer.Hla.DecodeDpmPdoNumb | HighLevelAnalyzer.py:633-636 | the PDO-number decoder performs `Machine.PdoNumbDecoder` |
| Analyzer.Hla.DecodePeFsm | HighLevelAnalyzer.py:638-694 | the PE_FSM decoder performs `Machine.PeFsmDecoder` |
| Analyzer.Hla.DecodePdCommandCtrl | HighLevelAnalyzer.py:696-705 | PD_COMMAND_CTRL appends its text to the description without a separator |
| Analyzer.Hla.DecodeTxHeaderLow | HighLevelAnalyzer.py:707-716 | TX_HEADER_LOW appends its text to the description without a separator |
| Analyzer.Hla.DecodeCcHwFaultStatus0 | HighLevelAnalyzer.py:718-731 | CC_HW_FAULT_STATUS_0 performs its clause decoder |
| Analyzer.Hla.DecodeCcHwFaultStatus1 | HighLevelAnalyzer.py:733-759 | CC_HW_FAULT_STATUS_1 performs its clause decoder |
| Analyzer.Hla.DecodeMonitoringCtrl2 | HighLevelAnalyzer.py:761-773 | MONITORING_CTRL_2 performs its clause decoder |
| Analyzer.Hla.DecodeVbusDischargeTimeCtrl | HighLevelAnalyzer.py:775-789 | the discharge time decoder performs `Machine.DischargeTimeDecoder` |
| Analyzer.Hla.DischargeTimeClauses | HighLevelAnalyzer.py:775-789 | the action becomes `Fields.DischargeTimeAction` of the old action and the byte |
| Analyzer.Hla.DecodeResetCtrl | HighLevelAnalyzer.py:802-811 | RESET_CTRL performs its clause decoder |
| Analyzer.Hla.DecodeVbusCtrl | HighLevelAnalyzer.py:813-823 | VBUS_CTRL performs its clause decoder |
| Analyzer.Hla.DecodeVbusDischargeCtrl | HighLevelAnalyzer.py:825-840 | VBUS_DISCHARGE_CTRL performs its clause decoder |
| Analyzer.Hla.DecodeGpioSwGpio | HighLevelAnalyzer.py:842-852 | GPIO_SW_GPIO performs its clause decoder |
| Analyzer.Hla.DecodeMonitoringCtrl0 | HighLevelAnalyzer.py:854-886 | MONITORING_CTRL_0 performs its clause decoder |
| Analyzer.Hla.DecodeTypecStatus | HighLevelAnalyzer.py:888-936 | TYPEC_STATUS performs its clause decoder |
| Analyzer.Hla.DecodePortStatus1 | HighLevelAnalyzer.py:938-975 | PORT_STATUS_1 performs its clause decoder |
| Analyzer.Hla.DecodePrtStatus | HighLevelAnalyzer.py:977-998 | PRT_STATUS performs its clause decoder |
| Analyzer.Hla.DecodePdTypecStatus | HighLevelAnalyzer.py:1000-1025 | PD_TYPEC_STATUS performs its clause decoder |
| Analyzer.Hla.DecodeCcStatus | HighLevelAnalyzer.py:1027-1068 | CC_STATUS performs its clause decoder |
| Analyzer.Hla.DecodeTypecMonitoringStatus1 | HighLevelAnalyzer.py:1070-1096 | TYPEC_MONITORING_STATUS_1 performs its clause decoder |
| Analyzer.Hla.DecodeTypecMonitoringStatus0 | HighLevelAnalyzer.py:1098-1127 | TYPEC_MONITORING_STATUS_0 performs its clause decoder |
| Analyzer.Hla.DecodeAlertStatus1 | HighLevelAnalyzer.py:1129-1153 | ALERT_STATUS_1 performs its clause decoder |
| Analyzer.Hla.DecodeAlertMask | HighLevelAnalyzer.py:1155-1184 | the alert mask performs its clause decoder |
| Analyzer.Hla.Accumulate | HighLevelAnalyzer.py:1188-1194 | while fewer than four bytes are pending, one byte folds into `snk_data` at 256^`snk_count` and the count rises; nothing else changes |
| Analyzer.Hla.DescribePower | HighLevelAnalyzer.py:1206-1209 | the description gains "voltage: ", the voltage text, ", current: " and the current text, with no separator before them |
| Analyzer.Hla.ShowPower | HighLevelAnalyzer.py:1206-1211 | the description gains voltage and current of the accumulated value, the count 4 and the data the value in hex |
| Analyzer.Hla.RdoClauses | HighLevelAnalyzer.py:555-581 | the frame gains exactly the RDO clauses `Fields.RdoActions` of the value, in order |
| Analyzer.Hla.ShowSink | HighLevelAnalyzer.py:1196-1211 | the register name, then power, count and data of the completed value, as `Machine.SinkShow` |
| Analyzer.Hla.ShowRdo | HighLevelAnalyzer.py:539-581 | as `ShowSink`, followed by the RDO clauses of the completed value |
| Analyzer.Hla.DecodeSnk0 | HighLevelAnalyzer.py:1186-1214 | the sink PDO decoder performs `Machine.SinkPdoByte` |
| Analyzer.Hla.DecodeRdoRegStatus0 | HighLevelAnalyzer.py:519-583 | the RDO decoder performs `Machine.RdoByte` |
| Analyzer.Hla.Dispatch | HighLevelAnalyzer.py:348-440 | the decoder selected for the register performs `Machine.ApplyDecoder` |
| Analyzer.Hla.DispatchAccumulated | HighLevelAnalyzer.py:360-367 | the sink PDO registers and RDO_REG_STATUS_0 run their accumulator, as `Machine.ApplyDecoder` |
| Analyzer.Hla.DispatchDescribed | HighLevelAnalyzer.py:369-373 | PD_COMMAND_CTRL and TX_HEADER_LOW run their description decoder, as `Machine.ApplyDecoder` |
| Analyzer.Hla.DispatchClauses | HighLevelAnalyzer.py:348-440 | the discharge time and PE_FSM decoders run as `Machine.ApplyDecoder` |
| Analyzer.Hla.DispatchValue | HighLevelAnalyzer.py:357-440 | the PDO-number decoder and the raw-data fallback run as `Machine.ApplyDecoder` |
| Analyzer.Hla.DispatchActions | HighLevelAnalyzer.py:348-428 | every clause decoder appends its clause list, as `Machine.ActionDecoder` |
| Analyzer.Hla.DispatchStatus | HighLevelAnalyzer.py:348-428 | the clause decoders of the status registers append their clause list, as `Machine.ActionDecoder` |
| Analyzer.Hla.DispatchControl | HighLevelAnalyzer.py:348-428 | the clause decoders of the control registers append their clause list, as `Machine.ActionDecoder` |
| Analyzer.Hla.DecodeData | HighLevelAnalyzer.py:335-440 | the data branch performs `Machine.OnData` |
| Analyzer.Hla.DecodeStop | HighLevelAnalyzer.py:442-488 | the stop branch performs `Machine.OnStop` and returns its frame |
| Analyzer.Hla.Decode | HighLevelAnalyzer.py:311-488 | one call of `decode` performs exactly one `Machine.Step`, with its new state and its returned frame |

## Left out

- The Saleae framework is not modelled: the `HighLevelAnalyzer` base class, the `AnalyzerFrame` constructor and the settings. Output frames are a plain datatype `Output`, and start and end times are integers that are copied, never computed.
- The `result_types` display formats (HighLevelAnalyzer.py:279-292) are presentation only.
- The floating-point text of a PDO or RDO current, `str((v & 0x3ff) * 0.01)`, is not modelled. The class takes it as a parameter `current: nat -> string` applied to the integer 10-bit field.
- Fields.VoltageText: the voltage text `str(x / 20)` is written as exact decimal arithmetic. Its agreement with Python's shortest float rendering is shown only on samples (`Fields.VoltageTextOneDecimal`, `Fields.VoltageTextTwoDecimals`), because floating point is not modelled.
- Object identity is not modelled. The source returns the working `AnalyzerFrame` object itself for responses and writes; the model returns a copy of its value, which is observably the same because the object is dropped right after.
- An input frame type other than start, address, data, stop and error is not modelled. Like start, it would only create the working frame.
- Decoding of USB-PD message payloads is not modelled; the source does not do it either.
- The "MSB first" comments of the accumulator are not modelled. The code folds least-significant first, and the model follows the code.
