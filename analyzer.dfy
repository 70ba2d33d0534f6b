/**
 * The analyzer object itself (HighLevelAnalyzer.py:294-1214): the class
 * `Hla`, whose fields hold the frame being assembled and the register
 * context, and whose `decode` method is called once per input frame.
 * Every method is proved against the reference model of module Machine:
 * `Decode` performs exactly one `Machine.Step`, and each decoder performs
 * exactly its state transformer.
 */
module Analyzer {
  import opened Wrappers
  import opened Text
  import opened Catalog
  import opened Fields
  import opened Machine

  class Hla {
    var tempFrame: Option<Frame>
    var registerType: Option<Byte>
    var dataByte: Byte
    var maybeReading: bool
    var dataUnknown: bool
    var requestRegisterType: Option<Byte>
    var snkCount: nat
    var snkData: nat

    /** How the current of a PDO or RDO (a 10-bit field, in 10 mA units) is shown. */
    const current: nat -> string

    /** The fields as a value of the reference model. */
    function State(): DecoderState
      reads this
    {
      DecoderState(tempFrame, registerType, dataByte, maybeReading, dataUnknown,
                   requestRegisterType, snkCount, snkData)
    }

    constructor (current: nat -> string)
      ensures State() == Initial && this.current == current
    {
      tempFrame := None;
      registerType := None;
      dataByte := 0;
      maybeReading := false;
      dataUnknown := true;
      requestRegisterType := None;
      snkCount := 0;
      snkData := 0;
      this.current := current;
    }

    // ------------------------------------------------------------ add_* helpers

    /** `add_databyte` */
    method AddDatabyte()
      requires tempFrame.Some?
      modifies this
      ensures State() == old(State()).AddDatabyte()
    {
      var f := tempFrame.value;
      f := f.(count := f.count + 1);
      if |f.data| > 0 {
        f := f.(data := f.data + ", ");
      } else {
        assert f.data + Hex(dataByte as nat) == Hex(dataByte as nat);
      }
      f := f.(data := f.data + Hex(dataByte as nat));
      f := f.(description := f.description + "data only");
      tempFrame := Some(f);
    }

    /** `add_action` */
    method AddAction(act: string)
      requires tempFrame.Some?
      modifies this`tempFrame
      ensures tempFrame == Some(old(tempFrame.value).AddAction(act))
    {
      var f := tempFrame.value;
      if |f.action| > 0 {
        f := f.(action := f.action + ", ");
      } else {
        assert f.action + act == act;
      }
      tempFrame := Some(f.(action := f.action + act));
    }

    /** `add_description` */
    method AddDescription(act: string)
      requires tempFrame.Some?
      modifies this
      ensures State() == old(State()).AddDescription(act)
    {
      var f := tempFrame.value;
      if |f.description| > 0 {
        f := f.(description := f.description + ", ");
      } else {
        assert f.description + act == act;
      }
      tempFrame := Some(f.(description := f.description + act));
      dataUnknown := false;
    }

    /** `add_register`: the catalog name, or "unknown". */
    method AddRegister(r: Option<Byte>)
      requires tempFrame.Some?
      modifies this
      ensures State() == old(State()).AddRegister(r)
    {
      if r.Some? && Lookup(r.value).Some? {
        AddDescription(Lookup(r.value).value);
      } else {
        AddDescription("unknown");
      }
    }

    /** The plain (unseparated) append of a decoder's byte to the data field. */
    method AppendData(text: string)
      requires tempFrame.Some?
      modifies this
      ensures State() == old(State()).AppendData(text)
    {
      var f := tempFrame.value;
      tempFrame := Some(f.(data := f.data + text));
    }

    /** `temp_frame.data["action"] += text`: a plain append, no separator. */
    method AppendAction(text: string)
      requires tempFrame.Some?
      modifies this`tempFrame
      ensures tempFrame == Some(old(tempFrame.value).AppendAction(text))
    {
      var f := tempFrame.value;
      tempFrame := Some(f.(action := f.action + text));
    }

    /** `temp_frame.data["description"] += text`: a plain append, no separator. */
    method AppendDescription(text: string)
      requires tempFrame.Some?
      modifies this`tempFrame
      ensures tempFrame == Some(old(tempFrame.value).AppendDescription(text))
    {
      var f := tempFrame.value;
      tempFrame := Some(f.(description := f.description + text));
    }

    // ---------------------------------------- runs of add_action, tracked

    /*
     * The decoders below append their clauses one `add_action` at a time. Each
     * step takes the frame `f0` the run started from and the clauses `done`
     * appended since, as ghost state, and returns the clauses appended after it,
     * so that a whole run is seen to append exactly a list of Module Fields.
     */

    /** `add_action(text)` */
    method ActionNext(text: string, ghost f0: Frame, ghost done: seq<string>) returns (ghost more: seq<string>)
      requires tempFrame == Some(f0.AddActions(done))
      modifies this`tempFrame
      ensures more == done + [text]
      ensures tempFrame == Some(f0.AddActions(more))
    {
      AddAction(text);
      more := done + [text];
      ActionsSnoc(f0, done, text);
    }

    /** `if c: add_action(text)` */
    method ActionIf(c: bool, text: string, ghost f0: Frame, ghost done: seq<string>) returns (ghost more: seq<string>)
      requires tempFrame == Some(f0.AddActions(done))
      modifies this`tempFrame
      ensures more == done + Flag(c, text)
      ensures tempFrame == Some(f0.AddActions(more))
    {
      if c {
        AddAction(text);
      }
      more := done + Flag(c, text);
      ActionsMaybe(f0, done, Flag(c, text));
    }

    /** `if c: add_action(yes) else: add_action(no)` */
    method ActionChoice(c: bool, yes: string, no: string, ghost f0: Frame, ghost done: seq<string>)
      returns (ghost more: seq<string>)
      requires tempFrame == Some(f0.AddActions(done))
      modifies this`tempFrame
      ensures more == done + [Choice(c, yes, no)]
      ensures tempFrame == Some(f0.AddActions(more))
    {
      if c {
        AddAction(yes);
      } else {
        AddAction(no);
      }
      more := done + [Choice(c, yes, no)];
      ActionsSnoc(f0, done, Choice(c, yes, no));
    }

    /** An `if`/`elif` chain over a field with no `else`: the name found, if any. */
    method ActionNamed(name: seq<string>, ghost f0: Frame, ghost done: seq<string>) returns (ghost more: seq<string>)
      requires |name| <= 1
      requires tempFrame == Some(f0.AddActions(done))
      modifies this`tempFrame
      ensures more == done + name
      ensures tempFrame == Some(f0.AddActions(more))
    {
      if |name| == 1 {
        AddAction(name[0]);
      }
      more := done + name;
      ActionsMaybe(f0, done, name);
    }

    /** `add_action(name)`, then `temp_frame.data["action"] += value`. */
    method ActionValue(name: string, value: string, ghost f0: Frame, ghost done: seq<string>)
      returns (ghost more: seq<string>)
      requires tempFrame == Some(f0.AddActions(done))
      modifies this`tempFrame
      ensures more == done + [name + value]
      ensures tempFrame == Some(f0.AddActions(more))
    {
      AddAction(name);
      AppendAction(value);
      more := done + [name + value];
      ActionsLabelled(f0, done, name, value);
    }

    // ------------------------------------------------- the action clauses

    method PasswdClauses(b: Byte)
      requires tempFrame.Some?
      modifies this`tempFrame
      ensures tempFrame == Some(old(tempFrame.value).AddActions([PasswdAction(dataByte)]))
    {
      ghost var f := tempFrame.value;
      ghost var done := [];
      done := ActionChoice(Hex(dataByte as nat) == FTP_CUST_PASSWORD, "set", "clear", f, done);
    }

    method Control0Clauses(b: Byte)
      requires tempFrame.Some?
      modifies this`tempFrame
      ensures tempFrame == Some(old(tempFrame.value).AddActions(Control0Actions(b)))
    {
      ghost var f := tempFrame.value;
      ghost var done := [];
      done := ActionIf(b & 0x40 == 0, "Reset", f, done);
      done := ActionIf((b >> FTP_CUST_PWR) & 0x01 != 0, "FTP_CUST_PWR", f, done);
      done := ActionIf((b >> FTP_CUST_RST_N) & 0x01 != 0, "FTP_CUST_RST_N", f, done);
      done := ActionIf((b >> FTP_CUST_REQ) & 0x01 != 0, "FTP_CUST_REQ", f, done);
      done := ActionNext(Control0Sector(b), f, done);
    }

    method Control1Clauses(b: Byte)
      requires tempFrame.Some?
      modifies this`tempFrame
      ensures tempFrame == Some(old(tempFrame.value).AddActions(Control1Actions(b)))
    {
      ghost var f := tempFrame.value;
      ghost var done := [];
      done := ActionNext(Control1Opcode(b), f, done);
      done := ActionNext(Control1Sector(b), f, done);
    }

    method AlertMaskClauses(b: Byte)
      requires tempFrame.Some?
      modifies this`tempFrame
      ensures tempFrame == Some(old(tempFrame.value).AddActions(AlertMaskActions(b)))
    {
      ghost var f := tempFrame.value;
      ghost var done := [];
      done := ActionChoice(b & PRT_STATUS_AL != 0, "PRT_STATUS_AL: MASKED", "PRT_STATUS_AL: UNMASKED", f, done);
      done := ActionChoice(b & CC_HW_FAULT_STATUS_AL != 0, "CC_HW_FAULT_STATUS_AL: MASKED", "CC_HW_FAULT_STATUS_AL: UNMASKED", f, done);
      done := ActionChoice(b & TYPEC_MONITORING_STATUS_AL != 0, "TYPEC_MONITORING_STATUS_AL: MASKED", "TYPEC_MONITORING_STATUS_AL: UNMASKED", f, done);
      done := ActionChoice(b & PORT_STATUS_AL != 0, "PORT_STATUS_AL: MASKED", "PORT_STATUS_AL: UNMASKED", f, done);
    }

    method AlertStatus1Clauses(b: Byte)
      requires tempFrame.Some?
      modifies this`tempFrame
      ensures tempFrame == Some(old(tempFrame.value).AddActions(AlertStatus1Actions(b)))
    {
      ghost var f := tempFrame.value;
      ghost var done := [];
      done := ActionIf(b & PRT_STATUS_AL != 0, "PRT_STATUS_AL", f, done);
      done := ActionIf(b & CC_HW_FAULT_STATUS_AL != 0, "CC_HW_FAULT_STATUS_AL", f, done);
      done := ActionIf(b & TYPEC_MONITORING_STATUS_AL != 0, "TYPEC_MONITORING_STATUS_AL", f, done);
      done := ActionIf(b & PORT_STATUS_AL != 0, "PORT_STATUS_AL", f, done);
    }

    method TypecMonitoring0Clauses(b: Byte)
      requires tempFrame.Some?
      modifies this`tempFrame
      ensures tempFrame == Some(old(tempFrame.value).AddActions(TypecMonitoringStatus0Actions(b)))
    {
      ghost var f := tempFrame.value;
      ghost var done := [];
      done := ActionIf(b & VBUS_VALID_SNK_TRANS != 0, "VBUS_VALID_SNK_TRANS", f, done);
      done := ActionIf(b & VBUS_VSAFE0V_TRANS != 0, "VBUS_VSAFE0V_TRANS", f, done);
      done := ActionIf(b & VBUS_READY_TRANS != 0, "VBUS_READY_TRANS", f, done);
      done := ActionChoice(b & VBUS_LOW_STATUS != 0, "VBUS_LOW_STATUS: ERR", "VBUS_LOW_STATUS: OK", f, done);
      done := ActionChoice(b & VBUS_HIGH_STATUS != 0, "VBUS_HIGH_STATUS: ERR", "VBUS_HIGH_STATUS: OK", f, done);
    }

    method TypecMonitoring1Clauses(b: Byte)
      requires tempFrame.Some?
      modifies this`tempFrame
      ensures tempFrame == Some(old(tempFrame.value).AddActions(TypecMonitoringStatus1Actions(b)))
    {
      ghost var f := tempFrame.value;
      ghost var done := [];
      done := ActionChoice(b & VBUS_READY != 0, "VBUS Connected", "VBUS Disconnected", f, done);
      done := ActionChoice(b & VBUS_VSAFE0V != 0, "VBUS < 0.8V", "VBUS > 0.8V", f, done);
      done := ActionChoice(b & VBUS_VALID_SNK != 0, "VBUS V > SNK_DISC_THRESHOLD", "VBUS V < SNK_DISC_THRESHOLD", f, done);
    }

    method CcFault0Clauses(b: Byte)
      requires tempFrame.Some?
      modifies this`tempFrame
      ensures tempFrame == Some(old(tempFrame.value).AddActions(CcHwFaultStatus0Actions(b)))
    {
      ghost var f := tempFrame.value;
      ghost var done := [];
      done := ActionIf(b & VPU_VALID_TRANS != 0, "VPU_VALID_TRANS", f, done);
      done := ActionIf(b & VPU_OVP_FAULT_TRANS != 0, "VPU_OVP_FAULT_TRANS", f, done);
    }

    method CcFault1Clauses(b: Byte)
      requires tempFrame.Some?
      modifies this`tempFrame
      ensures tempFrame == Some(old(tempFrame.value).AddActions(CcHwFaultStatus1Actions(b)))
    {
      ghost var f := tempFrame.value;
      ghost var done := [];
      done := ActionChoice(b & VPU_OVP_FAULT != 0, "(FAULT) Overvoltage", "(NO_FAULT) No overvoltage", f, done);
      done := ActionChoice(b & VPU_VALID != 0, "(VALID) CC voltage", "(NO_VALID) CC voltage", f, done);
      done := ActionChoice(b & VBUS_DISCH_FAULT != 0, "VBUS discharge issue", "No VBUS discharge issue", f, done);
    }

    method CcStatusClauses(b: Byte)
      requires tempFrame.Some?
      modifies this`tempFrame
      ensures tempFrame == Some(old(tempFrame.value).AddActions(CcStatusActions(b)))
    {
      ghost var f := tempFrame.value;
      ghost var done := [];
      done := ActionChoice(b & LOOKING_4_CONNECTION != 0, "Try connecting", "Not connecting", f, done);
      if b & CONNECT_RESULT != 0 {
        done := ActionNext("PRESENT_RD", f, done);
        done := ActionNamed(Cc2State(b), f, done);
        done := ActionNamed(Cc1State(b), f, done);
      }
    }

    method PdTypecStatusClauses(b: Byte)
      requires tempFrame.Some?
      modifies this`tempFrame
      ensures tempFrame == Some(old(tempFrame.value).AddActions([PdTypecStatusAction(b)]))
    {
      ghost var f := tempFrame.value;
      ghost var done := [];
      done := ActionNext(PdTypecStatusAction(b), f, done);
    }

    method PrtStatusClauses(b: Byte)
      requires tempFrame.Some?
      modifies this`tempFrame
      ensures tempFrame == Some(old(tempFrame.value).AddActions([PrtStatusAction(b)]))
    {
      ghost var f := tempFrame.value;
      ghost var done := [];
      done := ActionNext(PrtStatusAction(b), f, done);
    }

    method MonitoringCtrl0Clauses(b: Byte)
      requires tempFrame.Some?
      modifies this`tempFrame
      ensures tempFrame == Some(old(tempFrame.value).AddActions(MonitoringCtrl0Actions(b)))
    {
      ghost var f := tempFrame.value;
      ghost var done := [];
      done := ActionChoice(b & VBUS_SNK_DISC_THRESHOLD != 0, "VBUS threshold at 1.9 V", "VBUS threshold at 3.5 V", f, done);
      done := ActionChoice(b & MONITORING_INT_THRES_BYP != 0, "EXT_COMP", "INT_COMP", f, done);
      done := ActionChoice(b & EXT_VBUS_HIGH != 0, "HIGH_VBUS_ABOVE", "HIGH_VBUS_VALID", f, done);
      done := ActionChoice(b & EXT_VBUS_LOW != 0, "LOW_VBUS_BELOW", "LOW_VBUS_VALID)", f, done);
    }

    method MonitoringCtrl2Clauses(b: Byte)
      requires tempFrame.Some?
      modifies this`tempFrame
      ensures tempFrame == Some(old(tempFrame.value).AddActions(MonitoringCtrl2Actions(b)))
    {
      ghost var f := tempFrame.value;
      ghost var done := [];
      var lev := b & 0xf;
      done := ActionNext("OVP level", f, done);
      done := ActionNext(Str(lev as nat), f, done);
      lev := (b >> 4) & 0xf;
      done := ActionNext("UVP level", f, done);
      done := ActionNext(Str(lev as nat), f, done);
    }

    method ResetCtrlClauses(b: Byte)
      requires tempFrame.Some?
      modifies this`tempFrame
      ensures tempFrame == Some(old(tempFrame.value).AddActions([ResetCtrlAction(b)]))
    {
      ghost var f := tempFrame.value;
      ghost var done := [];
      done := ActionChoice(b & 0x01 != 0, "Software reset enabled", "Software reset disabled", f, done);
    }

    method DischargeCtrlClauses(b: Byte)
      requires tempFrame.Some?
      modifies this`tempFrame
      ensures tempFrame == Some(old(tempFrame.value).AddActions(VbusDischargeCtrlActions(b)))
    {
      ghost var f := tempFrame.value;
      ghost var done := [];
      done := ActionChoice(b & 0x80 != 0, "VBUS_DISCHARGE: enabled", "VBUS_DISCHARGE: disabled", f, done);
      done := ActionChoice(b & 0x40 != 0, "VSRC_DISCHARGE: enabled", "VSRC_DISCHARGE: disabled", f, done);
    }

    method GpioSwGpioClauses(b: Byte)
      requires tempFrame.Some?
      modifies this`tempFrame
      ensures tempFrame == Some(old(tempFrame.value).AddActions([GpioSwGpioAction(b)]))
    {
      ghost var f := tempFrame.value;
      ghost var done := [];
      done := ActionChoice(b & 0x01 != 0, "SW_GPIO: enabled", "SW_GPIO: disabled", f, done);
    }

    method PortStatus1Clauses(b: Byte)
      requires tempFrame.Some?
      modifies this`tempFrame
      ensures tempFrame == Some(old(tempFrame.value).AddActions(PortStatus1Actions(b)))
    {
      ghost var f := tempFrame.value;
      ghost var done := [];
      done := ActionNamed(AttachedDevice(b), f, done);
      done := ActionIf(b & POWER_MODE != 0, "Device sinking power", f, done);
      done := ActionIf(b & DATA_MODE != 0, "UFP", f, done);
      done := ActionChoice(b & ATTACH != 0, "Attached", "Unattached", f, done);
    }

    method TypecStatusClauses(b: Byte)
      requires tempFrame.Some?
      modifies this`tempFrame
      ensures tempFrame == Some(old(tempFrame.value).AddActions(TypecStatusActions(b)))
    {
      ghost var f := tempFrame.value;
      ghost var done := [];
      done := ActionChoice(b & REVERSE != 0, "CC2 is attached", "CC1 is attached", f, done);
      done := ActionNamed(TypecFsmState(b), f, done);
    }

    method VbusCtrlClauses(b: Byte)
      requires tempFrame.Some?
      modifies this`tempFrame
      ensures tempFrame == Some(old(tempFrame.value).AddActions([VbusCtrlAction(b)]))
    {
      ghost var f := tempFrame.value;
      ghost var done := [];
      done := ActionChoice(b & 0x02 != 0, "Force the VBUS EN SNK pin", "Disable VBUS_EN_SNK", f, done);
    }

    // ----------------------------------------------------------- the decoders

    /** decode_passwd */
    method DecodePasswd(b: Byte)
      requires tempFrame.Some?
      modifies this
      ensures State() == old(State()).ActionDecoder([PasswdAction(dataByte)], b)
    {
      AddRegister(registerType);
      PasswdClauses(b);
      AppendData(Hex(b as nat));
    }

    /** decode_control0 */
    method DecodeControl0(b: Byte)
      requires tempFrame.Some?
      modifies this
      ensures State() == old(State()).ActionDecoder(Control0Actions(b), b)
    {
      AddRegister(registerType);
      Control0Clauses(b);
      AppendData(Hex(b as nat));
    }

    /** decode_control1 */
    method DecodeControl1(b: Byte)
      requires tempFrame.Some?
      modifies this
      ensures State() == old(State()).ActionDecoder(Control1Actions(b), b)
    {
      AddRegister(registerType);
      Control1Clauses(b);
      AppendData(Hex(b as nat));
    }

    /** decode_alert_mask */
    method DecodeAlertMask(b: Byte)
      requires tempFrame.Some?
      modifies this
      ensures State() == old(State()).ActionDecoder(AlertMaskActions(b), b)
    {
      AddRegister(registerType);
      AlertMaskClauses(b);
      AppendData(Hex(b as nat));
    }

    /** decode_ALERT_STATUS_1 */
    method DecodeAlertStatus1(b: Byte)
      requires tempFrame.Some?
      modifies this
      ensures State() == old(State()).ActionDecoder(AlertStatus1Actions(b), b)
    {
      AddRegister(registerType);
      AlertStatus1Clauses(b);
      AppendData(Hex(b as nat));
    }

    /** decode_TYPEC_MONITORING_STATUS_0 */
    method DecodeTypecMonitoringStatus0(b: Byte)
      requires tempFrame.Some?
      modifies this
      ensures State() == old(State()).ActionDecoder(TypecMonitoringStatus0Actions(b), b)
    {
      AddRegister(registerType);
      TypecMonitoring0Clauses(b);
      AppendData(Hex(b as nat));
    }

    /** decode_TYPEC_MONITORING_STATUS_1 */
    method DecodeTypecMonitoringStatus1(b: Byte)
      requires tempFrame.Some?
      modifies this
      ensures State() == old(State()).ActionDecoder(TypecMonitoringStatus1Actions(b), b)
    {
      AddRegister(registerType);
      TypecMonitoring1Clauses(b);
      AppendData(Hex(b as nat));
    }

    /** decode_CC_HW_FAULT_STATUS_0 */
    method DecodeCcHwFaultStatus0(b: Byte)
      requires tempFrame.Some?
      modifies this
      ensures State() == old(State()).ActionDecoder(CcHwFaultStatus0Actions(b), b)
    {
      AddRegister(registerType);
      CcFault0Clauses(b);
      AppendData(Hex(b as nat));
    }

    /** decode_CC_HW_FAULT_STATUS_1 */
    method DecodeCcHwFaultStatus1(b: Byte)
      requires tempFrame.Some?
      modifies this
      ensures State() == old(State()).ActionDecoder(CcHwFaultStatus1Actions(b), b)
    {
      AddRegister(registerType);
      CcFault1Clauses(b);
      AppendData(Hex(b as nat));
    }

    /** decode_CC_STATUS */
    method DecodeCcStatus(b: Byte)
      requires tempFrame.Some?
      modifies this
      ensures State() == old(State()).ActionDecoder(CcStatusActions(b), b)
    {
      AddRegister(registerType);
      CcStatusClauses(b);
      AppendData(Hex(b as nat));
    }

    /** decode_PD_TYPEC_STATUS */
    method DecodePdTypecStatus(b: Byte)
      requires tempFrame.Some?
      modifies this
      ensures State() == old(State()).ActionDecoder([PdTypecStatusAction(b)], b)
    {
      AddRegister(registerType);
      PdTypecStatusClauses(b);
      AppendData(Hex(b as nat));
    }

    /** decode_PRT_STATUS */
    method DecodePrtStatus(b: Byte)
      requires tempFrame.Some?
      modifies this
      ensures State() == old(State()).ActionDecoder([PrtStatusAction(b)], b)
    {
      AddRegister(registerType);
      PrtStatusClauses(b);
      AppendData(Hex(b as nat));
    }

    /** decode_MONITORING_CTRL_0 */
    method DecodeMonitoringCtrl0(b: Byte)
      requires tempFrame.Some?
      modifies this
      ensures State() == old(State()).ActionDecoder(MonitoringCtrl0Actions(b), b)
    {
      AddRegister(registerType);
      MonitoringCtrl0Clauses(b);
      AppendData(Hex(b as nat));
    }

    /** decode_MONITORING_CTRL_2 */
    method DecodeMonitoringCtrl2(b: Byte)
      requires tempFrame.Some?
      modifies this
      ensures State() == old(State()).ActionDecoder(MonitoringCtrl2Actions(b), b)
    {
      AddRegister(registerType);
      MonitoringCtrl2Clauses(b);
      AppendData(Hex(b as nat));
    }

    /** decode_RESET_CTRL */
    method DecodeResetCtrl(b: Byte)
      requires tempFrame.Some?
      modifies this
      ensures State() == old(State()).ActionDecoder([ResetCtrlAction(b)], b)
    {
      AddRegister(registerType);
      ResetCtrlClauses(b);
      AppendData(Hex(b as nat));
    }

    /** decode_VBUS_DISCHARGE_CTRL */
    method DecodeVbusDischargeCtrl(b: Byte)
      requires tempFrame.Some?
      modifies this
      ensures State() == old(State()).ActionDecoder(VbusDischargeCtrlActions(b), b)
    {
      AddRegister(registerType);
      DischargeCtrlClauses(b);
      AppendData(Hex(b as nat));
    }

    /** decode_GPIO_SW_GPIO */
    method DecodeGpioSwGpio(b: Byte)
      requires tempFrame.Some?
      modifies this
      ensures State() == old(State()).ActionDecoder([GpioSwGpioAction(b)], b)
    {
      AddRegister(registerType);
      GpioSwGpioClauses(b);
      AppendData(Hex(b as nat));
    }

    /** decode_PORT_STATUS_1 */
    method DecodePortStatus1(b: Byte)
      requires tempFrame.Some?
      modifies this
      ensures State() == old(State()).ActionDecoder(PortStatus1Actions(b), b)
    {
      AddRegister(registerType);
      PortStatus1Clauses(b);
      AppendData(Hex(b as nat));
    }

    /** decode_TYPEC_STATUS */
    method DecodeTypecStatus(b: Byte)
      requires tempFrame.Some?
      modifies this
      ensures State() == old(State()).ActionDecoder(TypecStatusActions(b), b)
    {
      AddRegister(registerType);
      TypecStatusClauses(b);
      AppendData(Hex(b as nat));
    }

    /** decode_VBUS_CTRL */
    method DecodeVbusCtrl(b: Byte)
      requires tempFrame.Some?
      modifies this
      ensures State() == old(State()).ActionDecoder([VbusCtrlAction(b)], b)
    {
      AddRegister(registerType);
      VbusCtrlClauses(b);
      AppendData(Hex(b as nat));
    }

    /** decode_DPM_PDO_NUMB */
    method DecodeDpmPdoNumb(b: Byte)
      requires tempFrame.Some?
      modifies this
      ensures State() == old(State()).PdoNumbDecoder(b)
    {
      AddRegister(registerType);
      AppendData(Hex((b & 0x07) as nat));
    }

    /** decode_PD_COMMAND_CTRL */
    method DecodePdCommandCtrl(b: Byte)
      requires tempFrame.Some?
      modifies this
      ensures State() == old(State()).DescriptionTextDecoder(PdCommandText(b), b)
    {
      AddRegister(registerType);
      if b == 0x26 {
        AppendDescription("Send command");
      } else {
        AppendDescription("Unknown");
      }
      AppendData(Hex(b as nat));
    }

    /** decode_TX_HEADER_LOW */
    method DecodeTxHeaderLow(b: Byte)
      requires tempFrame.Some?
      modifies this
      ensures State() == old(State()).DescriptionTextDecoder(TxHeaderLowText(b), b)
    {
      AddRegister(registerType);
      if b == 0x0D {
        AppendDescription("Soft Reset");
      } else {
        AppendDescription("Unknown");
      }
      AppendData(Hex(b as nat));
    }

    /** decode_VBUS_DISCHARGE_TIME_CTRL */
    method DecodeVbusDischargeTimeCtrl(b: Byte)
      requires tempFrame.Some?
      modifies this
      ensures State() == old(State()).DischargeTimeDecoder(b)
    {
      AddRegister(registerType);
      DischargeTimeClauses(b);
      AppendData(Hex(b as nat));
    }

    method DischargeTimeClauses(b: Byte)
      requires tempFrame.Some?
      modifies this`tempFrame
      ensures tempFrame == Some(old(tempFrame.value).(action := DischargeTimeAction(old(tempFrame.value).action, b)))
    {
      var lev := b & 0xf;
      AppendAction("DISCHARGE_TIME_TRANSITION:");
      AddAction(Str(lev as nat));
      lev := (b >> 4) & 0xf;
      AppendAction(", DISCHARGE_TIME_TO_0V:");
      AddAction(Str(lev as nat));
    }

    /** decode_PE_FSM: the state name as a second description clause. */
    method DecodePeFsm(b: Byte)
      requires tempFrame.Some?
      modifies this
      ensures State() == old(State()).PeFsmDecoder(b)
    {
      AddRegister(registerType);
      AddDescription(PeFsmState(b));
      AppendData(Hex(b as nat));
    }

    // ------------------------------------------------------ PDO and RDO values

    /** The shared first step of decode_snk0 and decode_RDO_REG_STATUS_0: byte k lands at 256^k. */
    method Accumulate(b: Byte)
      modifies this`snkCount, this`snkData
      ensures State() == old(State()).SinkAccumulate(b)
    {
      if snkCount < 4 {
        var tmp := b as nat;
        tmp := tmp * Pow256(snkCount);
        snkData := snkData + tmp;
        snkCount := snkCount + 1;
      }
    }

    /** Voltage, then current, into the description. */
    method DescribePower(voltageText: string, currentText: string)
      requires tempFrame.Some?
      modifies this`tempFrame
      ensures tempFrame == Some(old(tempFrame.value).AppendDescription("voltage: " + voltageText + ", current: " + currentText))
    {
      ghost var d := tempFrame.value.description;
      AppendDescription("voltage: ");
      AppendDescription(voltageText);
      AppendDescription(", current: ");
      AppendDescription(currentText);
      assert tempFrame.value.description == d + ("voltage: " + voltageText + ", current: " + currentText);
    }

    /** Voltage and current into the description, four more bytes in the count, the value in hex. */
    method ShowPower()
      requires tempFrame.Some?
      modifies this`tempFrame
      ensures State() == old(State()).AppendDescription(PowerText(current, snkData)).AddCount(4).AppendData(Hex(snkData))
    {
      DescribePower(VoltageText(VoltageField(snkData)), current(CurrentField(snkData)));
      var f := tempFrame.value;
      tempFrame := Some(f.(count := f.count + 4));
      f := tempFrame.value;
      tempFrame := Some(f.(data := f.data + Hex(snkData)));
    }

    /** The RDO fields as actions, each a label and its value. */
    method RdoClauses(v: nat)
      requires tempFrame.Some?
      modifies this`tempFrame
      ensures tempFrame == Some(old(tempFrame.value).AddActions(RdoActions(v)))
    {
      ghost var f := tempFrame.value;
      ghost var done := [];
      var val := ObjectPosition(v);
      done := ActionValue(" Object_Pos: ", Str(val), f, done);
      val := RdoBit(v, RDO_UNCHUNKED_MESS_SUP);
      done := ActionValue("UnchunkedMess_sup: ", Str(val), f, done);
      val := RdoBit(v, RDO_USB_SUSPEND);
      done := ActionValue("UsbSuspend: ", Str(val), f, done);
      val := RdoBit(v, RDO_USB_COM_CAP);
      done := ActionValue("UsbComCap: ", Str(val), f, done);
      val := RdoBit(v, RDO_CAPA_MISMATCH);
      done := ActionValue("CapaMismatch: ", Str(val), f, done);
      val := RdoBit(v, RDO_GIVE_BACK);
      done := ActionValue("GiveBack: ", Str(val), f, done);
    }

    /** The completed value: register name, then voltage, current, count and data. */
    method ShowSink()
      requires tempFrame.Some?
      modifies this
      ensures State() == old(State()).SinkShow(current)
    {
      AddRegister(registerType);
      ShowPower();
    }

    /** decode_snk0 */
    method DecodeSnk0(b: Byte)
      requires tempFrame.Some?
      modifies this
      ensures State() == old(State()).SinkPdoByte(current, b)
    {
      Accumulate(b);
      if snkCount == 4 {
        ShowSink();
        snkCount := 0;
        snkData := 0;
      }
    }

    /** The completed RDO: as a PDO, then its fields as actions. */
    method ShowRdo()
      requires tempFrame.Some?
      modifies this
      ensures State() == old(State()).SinkShow(current).AddActions(RdoActions(snkData))
    {
      ShowSink();
      RdoClauses(snkData);
    }

    /** decode_RDO_REG_STATUS_0 */
    method DecodeRdoRegStatus0(b: Byte)
      requires tempFrame.Some?
      modifies this
      ensures State() == old(State()).RdoByte(current, b)
    {
      Accumulate(b);
      if snkCount == 4 {
        ShowRdo();
        snkCount := 0;
        snkData := 0;
      }
    }

    // ------------------------------------------------------------------ decode

    /** Runs the decoder `d` selected for the register in effect on the data byte. */
    method Dispatch(d: Decoder)
      requires tempFrame.Some?
      modifies this
      ensures State() == old(State()).ApplyDecoder(current, d, old(dataByte))
    {
      if d == SinkPdo || d == RdoStatus {
        DispatchAccumulated(d);
      } else if d == PdCommand || d == TxHeaderLow {
        DispatchDescribed(d);
      } else if d == DischargeTime || d == PeFsm {
        DispatchClauses(d);
      } else if d == PdoNumb || d == RawData {
        DispatchValue(d);
      } else {
        ActionDecoderStep(current, State(), d, dataByte);
        DispatchActions(d);
      }
    }

    /** The two registers that collect four bytes before they show anything. */
    method DispatchAccumulated(d: Decoder)
      requires tempFrame.Some? && (d == SinkPdo || d == RdoStatus)
      modifies this
      ensures State() == old(State()).ApplyDecoder(current, d, old(dataByte))
    {
      ghost var s0 := State();
      if d == SinkPdo {
        assert s0.ApplyDecoder(current, d, dataByte) == s0.SinkPdoByte(current, dataByte);
        DecodeSnk0(dataByte);
      } else {
        assert s0.ApplyDecoder(current, d, dataByte) == s0.RdoByte(current, dataByte);
        DecodeRdoRegStatus0(dataByte);
      }
    }

    /** The decoders that append a text to the register name in the description. */
    method DispatchDescribed(d: Decoder)
      requires tempFrame.Some? && (d == PdCommand || d == TxHeaderLow)
      modifies this
      ensures State() == old(State()).ApplyDecoder(current, d, old(dataByte))
    {
      ghost var s0 := State();
      if d == PdCommand {
        assert s0.ApplyDecoder(current, d, dataByte) == s0.DescriptionTextDecoder(PdCommandText(dataByte), dataByte);
        DecodePdCommandCtrl(dataByte);
      } else {
        assert s0.ApplyDecoder(current, d, dataByte) == s0.DescriptionTextDecoder(TxHeaderLowText(dataByte), dataByte);
        DecodeTxHeaderLow(dataByte);
      }
    }

    /** The decoders that add their text as clauses of their own: the discharge times, the policy engine state. */
    method DispatchClauses(d: Decoder)
      requires tempFrame.Some? && (d == DischargeTime || d == PeFsm)
      modifies this
      ensures State() == old(State()).ApplyDecoder(current, d, old(dataByte))
    {
      ghost var s0 := State();
      if d == DischargeTime {
        assert s0.ApplyDecoder(current, d, dataByte) == s0.DischargeTimeDecoder(dataByte);
        DecodeVbusDischargeTimeCtrl(dataByte);
      } else {
        assert s0.ApplyDecoder(current, d, dataByte) == s0.PeFsmDecoder(dataByte);
        DecodePeFsm(dataByte);
      }
    }

    /** The decoders that show a number as data: the PDO number and raw data. */
    method DispatchValue(d: Decoder)
      requires tempFrame.Some? && (d == PdoNumb || d == RawData)
      modifies this
      ensures State() == old(State()).ApplyDecoder(current, d, old(dataByte))
    {
      ghost var s0 := State();
      if d == PdoNumb {
        assert s0.ApplyDecoder(current, d, dataByte) == s0.PdoNumbDecoder(dataByte);
        DecodeDpmPdoNumb(dataByte);
      } else {
        assert s0.ApplyDecoder(current, d, dataByte) == s0.AddDatabyte();
        AddDatabyte();
      }
    }

    /** The decoders that append a list of action clauses. */
    method DispatchActions(d: Decoder)
      requires tempFrame.Some? && IsActionDecoder(d)
      modifies this
      ensures State() == old(State()).ActionDecoder(ActionClauses(d, old(dataByte), old(dataByte)), old(dataByte))
    {
      if IsStatusDecoder(d) {
        DispatchStatus(d);
      } else {
        DispatchControl(d);
      }
    }

    /** Action-style decoders of the registers the chip reports. */
    method DispatchStatus(d: Decoder)
      requires tempFrame.Some? && IsStatusDecoder(d)
      modifies this
      ensures State() == old(State()).ActionDecoder(ActionClauses(d, old(dataByte), old(dataByte)), old(dataByte))
    {
      match d
      case AlertStatus1 => DecodeAlertStatus1(dataByte);
      case TypecMonitoring0 => DecodeTypecMonitoringStatus0(dataByte);
      case TypecMonitoring1 => DecodeTypecMonitoringStatus1(dataByte);
      case CcFault0 => DecodeCcHwFaultStatus0(dataByte);
      case CcFault1 => DecodeCcHwFaultStatus1(dataByte);
      case CcStatus => DecodeCcStatus(dataByte);
      case PdTypecStatus => DecodePdTypecStatus(dataByte);
      case PrtStatus => DecodePrtStatus(dataByte);
      case PortStatus1 => DecodePortStatus1(dataByte);
      case TypecStatus => DecodeTypecStatus(dataByte);
    }

    /** Action-style decoders of the registers the host writes. */
    method DispatchControl(d: Decoder)
      requires tempFrame.Some? && IsControlDecoder(d)
      modifies this
      ensures State() == old(State()).ActionDecoder(ActionClauses(d, old(dataByte), old(dataByte)), old(dataByte))
    {
      match d
      case Passwd => DecodePasswd(dataByte);
      case Control0 => DecodeControl0(dataByte);
      case Control1 => DecodeControl1(dataByte);
      case AlertMask => DecodeAlertMask(dataByte);
      case MonitoringCtrl0 => DecodeMonitoringCtrl0(dataByte);
      case MonitoringCtrl2 => DecodeMonitoringCtrl2(dataByte);
      case ResetCtrl => DecodeResetCtrl(dataByte);
      case DischargeCtrl => DecodeVbusDischargeCtrl(dataByte);
      case GpioSwGpio => DecodeGpioSwGpio(dataByte);
      case VbusCtrl => DecodeVbusCtrl(dataByte);
    }

    /** The data branch of `decode`. */
    method DecodeData(b: Byte)
      requires tempFrame.Some?
      modifies this
      ensures State() == old(State()).OnData(current, b)
    {
      dataByte := b;
      if maybeReading {
        registerType := requestRegisterType;
      }
      if registerType.None? {
        registerType := Some(dataByte);
      } else {
        Dispatch(DecoderFor(registerType.value));
      }
    }

    /** The stop branch of `decode`: the frame returned, then the reset for the next transaction. */
    method DecodeStop(endTime: int) returns (out: Output)
      requires tempFrame.Some?
      modifies this
      ensures (State(), out) == old(State()).OnStop(endTime)
    {
      tempFrame := Some(tempFrame.value.(endTime := endTime));
      if maybeReading {
        var desc := tempFrame.value.description;
        tempFrame := Some(tempFrame.value.(description := ""));
        AddDescription("Responds:");
        AddDescription(desc);
        maybeReading := false;
        out := Hi2c(tempFrame.value);
      } else if dataUnknown {
        if registerType.None? {
          out := Ping(tempFrame.value.startTime, endTime, tempFrame.value.address);
        } else {
          AddDescription("Obtain ");
          AddRegister(registerType);
          requestRegisterType := registerType;
          maybeReading := true;
          out := Read(tempFrame.value.startTime, endTime, tempFrame.value.address, tempFrame.value.description);
        }
      } else {
        out := Hi2c(tempFrame.value);
        maybeReading := false;
      }
      dataUnknown := true;
      tempFrame := None;
      registerType := None;
    }

    /** `decode`: one input frame; a frame is returned exactly at a stop. */
    method Decode(ev: Event) returns (out: Option<Output>)
      modifies this
      ensures (State(), out) == Step(current, old(State()), ev)
    {
      if tempFrame.None? {
        tempFrame := Some(NewFrame(ev.startTime, ev.endTime));
      }
      out := None;
      match ev.kind
      case Start =>
      case Error =>
        tempFrame := Some(tempFrame.value.(description := "error"));
      case Address(a) =>
        tempFrame := Some(tempFrame.value.(address := Hex(a as nat)));
      case Data(b) =>
        DecodeData(b);
      case Stop =>
        var frame := DecodeStop(ev.endTime);
        out := Some(frame);
    }
  }
}
