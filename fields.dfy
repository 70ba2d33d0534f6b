/**
 * The bit-field extraction and table lookups of the per-register decoders
 * (HighLevelAnalyzer.py:519-1214), as pure functions: for each register, the
 * clauses its decoder appends to the frame, in the order it appends them.
 * The imperative decoders that append these clauses to the in-flight frame
 * are the methods of Analyzer.Hla.
 */
module Fields {
  import opened Wrappers
  import opened Text
  import opened Catalog

  /** A clause that is present only when its condition holds. */
  function Flag(c: bool, clause: string): seq<string>
  {
    if c then [clause] else []
  }

  /** One of two clauses, chosen by a condition. */
  function Choice(c: bool, yes: string, no: string): string
  {
    if c then yes else no
  }

  // ---------------------------------------------------------------- NVM access

  /** decode_passwd: "set" for the unlock value, "clear" for anything else. */
  function PasswdAction(b: Byte): string
  {
    Choice(Hex(b as nat) == FTP_CUST_PASSWORD, "set", "clear")
  }

  /** The control 0 sector field, looked up in its table. */
  function Control0Sector(b: Byte): string
  {
    var sector := (b & 0x7) as int;
    if sector in DEC_CONTROL0_SECT then DEC_CONTROL0_SECT[sector] else "Sector?"
  }

  /** decode_control0: reset, power, request flags, then the sector. */
  function Control0Actions(b: Byte): seq<string>
  {
    Flag(b & 0x40 == 0, "Reset")
    + Flag((b >> FTP_CUST_PWR) & 0x01 != 0, "FTP_CUST_PWR")
    + Flag((b >> FTP_CUST_RST_N) & 0x01 != 0, "FTP_CUST_RST_N")
    + Flag((b >> FTP_CUST_REQ) & 0x01 != 0, "FTP_CUST_REQ")
    + [Control0Sector(b)]
  }

  /** The control 1 opcode field, looked up in its table. */
  function Control1Opcode(b: Byte): string
  {
    var opcode := (b & 0x7) as int;
    if opcode in DEC_CONTROL1_OPCODE then DEC_CONTROL1_OPCODE[opcode] else "Opcode?"
  }

  /** The control 1 sector field, looked up in its table. */
  function Control1Sector(b: Byte): string
  {
    var sector := ((b >> 3) & 0x1f) as int;
    if sector in DEC_CONTROL1_SECT then DEC_CONTROL1_SECT[sector] else "Sector?"
  }

  /** decode_control1: opcode, then sector. */
  function Control1Actions(b: Byte): seq<string>
  {
    [Control1Opcode(b)] + [Control1Sector(b)]
  }

  // ---------------------------------------------------------- single-text fields

  /** decode_PD_COMMAND_CTRL: the text appended (without separator) to the description. */
  function PdCommandText(b: Byte): string
  {
    if b == 0x26 then "Send command" else "Unknown"
  }

  /** decode_TX_HEADER_LOW: the text appended (without separator) to the description. */
  function TxHeaderLowText(b: Byte): string
  {
    if b == 0x0D then "Soft Reset" else "Unknown"
  }

  /** decode_PE_FSM: the policy-engine state name, a description clause. */
  function PeFsmState(b: Byte): string
  {
    if b == PE_INIT then "PE_INIT"
    else if b == PE_SOFT_RESET then "PE_SOFT_RESET"
    else if b == PE_HARD_RESET then "PE_HARD_RESET"
    else if b == PE_SEND_SOFT_RESET then "PE_SEND_SOFT_RESET"
    else if b == PE_C_BIST then "PE_C_BIST"
    else if b == PE_SNK_STARTUP then "PE_SNK_STARTUP"
    else if b == PE_SNK_DISCOVERY then "PE_SNK_DISCOVERY"
    else if b == PE_SNK_WAIT_FOR_CAPABILITIES then "PE_SNK_WAIT_FOR_CAPABILITIES"
    else if b == PE_SNK_EVALUATE_CAPABILITIES then "PE_SNK_EVALUATE_CAPABILITIES"
    else if b == PE_SNK_SELECT_CAPABILITIES then "PE_SNK_SELECT_CAPABILITIES"
    else if b == PE_SNK_TRANSITION_SINK then "PE_SNK_TRANSITION_SINK"
    else if b == PE_SNK_READY then "PE_SNK_READY"
    else if b == PE_SNK_READY_SENDING then "PE_SNK_READY_SENDING"
    else if b == PE_HARD_RESET_SHUTDOWN then "PE_HARD_RESET_SHUTDOWN"
    else if b == PE_ERRORRECOVERY then "PE_ERRORRECOVERY"
    else "reserved"
  }

  // ------------------------------------------------------------- alert registers

  /** decode_alert_mask: each alert source is reported masked or unmasked. */
  function AlertMaskActions(b: Byte): seq<string>
  {
    [Choice(b & PRT_STATUS_AL != 0, "PRT_STATUS_AL: MASKED", "PRT_STATUS_AL: UNMASKED")]
    + [Choice(b & CC_HW_FAULT_STATUS_AL != 0, "CC_HW_FAULT_STATUS_AL: MASKED", "CC_HW_FAULT_STATUS_AL: UNMASKED")]
    + [Choice(b & TYPEC_MONITORING_STATUS_AL != 0, "TYPEC_MONITORING_STATUS_AL: MASKED", "TYPEC_MONITORING_STATUS_AL: UNMASKED")]
    + [Choice(b & PORT_STATUS_AL != 0, "PORT_STATUS_AL: MASKED", "PORT_STATUS_AL: UNMASKED")]
  }

  /** decode_ALERT_STATUS_1: the pending alert sources. */
  function AlertStatus1Actions(b: Byte): seq<string>
  {
    Flag(b & PRT_STATUS_AL != 0, "PRT_STATUS_AL")
    + Flag(b & CC_HW_FAULT_STATUS_AL != 0, "CC_HW_FAULT_STATUS_AL")
    + Flag(b & TYPEC_MONITORING_STATUS_AL != 0, "TYPEC_MONITORING_STATUS_AL")
    + Flag(b & PORT_STATUS_AL != 0, "PORT_STATUS_AL")
  }

  // ---------------------------------------------------------- monitoring status

  /** decode_TYPEC_MONITORING_STATUS_0: transitions seen, then low/high status. */
  function TypecMonitoringStatus0Actions(b: Byte): seq<string>
  {
    Flag(b & VBUS_VALID_SNK_TRANS != 0, "VBUS_VALID_SNK_TRANS")
    + Flag(b & VBUS_VSAFE0V_TRANS != 0, "VBUS_VSAFE0V_TRANS")
    + Flag(b & VBUS_READY_TRANS != 0, "VBUS_READY_TRANS")
    + [Choice(b & VBUS_LOW_STATUS != 0, "VBUS_LOW_STATUS: ERR", "VBUS_LOW_STATUS: OK")]
    + [Choice(b & VBUS_HIGH_STATUS != 0, "VBUS_HIGH_STATUS: ERR", "VBUS_HIGH_STATUS: OK")]
  }

  /** decode_TYPEC_MONITORING_STATUS_1: VBUS connected, below 0.8 V, above threshold. */
  function TypecMonitoringStatus1Actions(b: Byte): seq<string>
  {
    [Choice(b & VBUS_READY != 0, "VBUS Connected", "VBUS Disconnected")]
    + [Choice(b & VBUS_VSAFE0V != 0, "VBUS < 0.8V", "VBUS > 0.8V")]
    + [Choice(b & VBUS_VALID_SNK != 0, "VBUS V > SNK_DISC_THRESHOLD", "VBUS V < SNK_DISC_THRESHOLD")]
  }

  // ------------------------------------------------------------- CC registers

  /** decode_CC_HW_FAULT_STATUS_0: the transitions seen. */
  function CcHwFaultStatus0Actions(b: Byte): seq<string>
  {
    Flag(b & VPU_VALID_TRANS != 0, "VPU_VALID_TRANS")
    + Flag(b & VPU_OVP_FAULT_TRANS != 0, "VPU_OVP_FAULT_TRANS")
  }

  /** decode_CC_HW_FAULT_STATUS_1: overvoltage, CC valid, VBUS discharge, always all three. */
  function CcHwFaultStatus1Actions(b: Byte): seq<string>
  {
    [Choice(b & VPU_OVP_FAULT != 0, "(FAULT) Overvoltage", "(NO_FAULT) No overvoltage")]
    + [Choice(b & VPU_VALID != 0, "(VALID) CC voltage", "(NO_VALID) CC voltage")]
    + [Choice(b & VBUS_DISCH_FAULT != 0, "VBUS discharge issue", "No VBUS discharge issue")]
  }

  /** The CC2 state field (b >> 2) & 0x3; state 0 has no name. */
  function Cc2State(b: Byte): seq<string>
  {
    var cc2 := (b >> 2) & 0x3;
    if cc2 == SNK_CC2_DEFAULT then ["SNK_CC2_Default"]
    else if cc2 == SNK_CC2_POWER1_5 then ["SNK_CC2_Power1_5"]
    else if cc2 == SNK_CC2_POWER3_0 then ["SNK_CC2_Power3_0"]
    else []
  }

  /** The CC1 state field b & 0x3; state 0 has no name. */
  function Cc1State(b: Byte): seq<string>
  {
    var cc1 := b & 0x3;
    if cc1 == SNK_CC1_DEFAULT then ["SNK_CC1_Default"]
    else if cc1 == SNK_CC1_POWER1_5 then ["SNK_CC1_Power1_5"]
    else if cc1 == SNK_CC1_POWER3_0 then ["SNK_CC1_Power3_0"]
    else []
  }

  /** decode_CC_STATUS: looking flag; the CC states only when the connect result is set. */
  function CcStatusActions(b: Byte): seq<string>
  {
    if b & CONNECT_RESULT != 0 then
      [Choice(b & LOOKING_4_CONNECTION != 0, "Try connecting", "Not connecting")] + ["PRESENT_RD"] + Cc2State(b) + Cc1State(b)
    else [Choice(b & LOOKING_4_CONNECTION != 0, "Try connecting", "Not connecting")]
  }

  // ---------------------------------------------------------- protocol status

  /** decode_PD_TYPEC_STATUS: one of four whole-byte codes, else "reserved". */
  function PdTypecStatusAction(b: Byte): string
  {
    if b == PD_CLEAR then "PD_CLEAR"
    else if b == PD_HARD_RESET_COMPLETE_ACK then "PD_HARD_RESET_COMPLETE_ACK"
    else if b == PD_HARD_RESET_RECEIVED_ACK then "PD_HARD_RESET_RECEIVED_ACK"
    else if b == PD_HARD_RESET_SEND_ACK then "PD_HARD_RESET_SEND_ACK"
    else "reserved"
  }

  /** decode_PRT_STATUS: the first set bit of a priority chain, else "reserved". */
  function PrtStatusAction(b: Byte): string
  {
    if b & PRL_HW_RST_RECEIVED != 0 then "PRL_HW_RST_RECEIVED"
    else if b & PRL_MSG_RECEIVED != 0 then "PRL_MSG_RECEIVED"
    else if b & PRL_BIST_RECEIVED != 0 then "PRL_BIST_RECEIVED"
    else "reserved"
  }

  // ---------------------------------------------------------- control registers

  /** decode_MONITORING_CTRL_0: threshold, comparator, high and low VBUS settings. */
  function MonitoringCtrl0Actions(b: Byte): seq<string>
  {
    [Choice(b & VBUS_SNK_DISC_THRESHOLD != 0, "VBUS threshold at 1.9 V", "VBUS threshold at 3.5 V")]
    + [Choice(b & MONITORING_INT_THRES_BYP != 0, "EXT_COMP", "INT_COMP")]
    + [Choice(b & EXT_VBUS_HIGH != 0, "HIGH_VBUS_ABOVE", "HIGH_VBUS_VALID")]
    + [Choice(b & EXT_VBUS_LOW != 0, "LOW_VBUS_BELOW", "LOW_VBUS_VALID)")]
  }

  /** decode_MONITORING_CTRL_2: the low nibble (OVP) and high nibble (UVP) levels in decimal. */
  function MonitoringCtrl2Actions(b: Byte): seq<string>
  {
    ["OVP level"] + [Str((b & 0xf) as nat)] + ["UVP level"] + [Str(((b >> 4) & 0xf) as nat)]
  }

  /** decode_RESET_CTRL */
  function ResetCtrlAction(b: Byte): string
  {
    Choice(b & 0x01 != 0, "Software reset enabled", "Software reset disabled")
  }

  /**
   * decode_VBUS_DISCHARGE_TIME_CTRL: the action field after the decoder, which
   * mixes plain appends of the two labels with separated appends of the two
   * nibbles in decimal.
   */
  function DischargeTimeAction(action: string, b: Byte): string
  {
    Join(Join(action + "DISCHARGE_TIME_TRANSITION:", Str((b & 0xf) as nat)) + ", DISCHARGE_TIME_TO_0V:",
         Str(((b >> 4) & 0xf) as nat))
  }

  /** decode_VBUS_DISCHARGE_CTRL: VBUS and VSRC discharge. */
  function VbusDischargeCtrlActions(b: Byte): seq<string>
  {
    [Choice(b & 0x80 != 0, "VBUS_DISCHARGE: enabled", "VBUS_DISCHARGE: disabled")]
    + [Choice(b & 0x40 != 0, "VSRC_DISCHARGE: enabled", "VSRC_DISCHARGE: disabled")]
  }

  /** decode_VBUS_CTRL */
  function VbusCtrlAction(b: Byte): string
  {
    Choice(b & 0x02 != 0, "Force the VBUS EN SNK pin", "Disable VBUS_EN_SNK")
  }

  /** decode_GPIO_SW_GPIO */
  function GpioSwGpioAction(b: Byte): string
  {
    Choice(b & 0x01 != 0, "SW_GPIO: enabled", "SW_GPIO: disabled")
  }

  // ------------------------------------------------------------- port status

  /** The attached device b >> 5, compared without masking: only 0, 1 and 3 are named. */
  function AttachedDevice(b: Byte): seq<string>
  {
    var dev := b >> 5;
    if dev == NONE_ATT then ["NONE_ATT"]
    else if dev == SNK_ATT then ["SNK_ATT"]
    else if dev == DBG_ATT then ["DBG_ATT"]
    else []
  }

  /** decode_PORT_STATUS_1: attached device, power and data mode, attach flag. */
  function PortStatus1Actions(b: Byte): seq<string>
  {
    AttachedDevice(b)
    + Flag(b & POWER_MODE != 0, "Device sinking power")
    + Flag(b & DATA_MODE != 0, "UFP")
    + [Choice(b & ATTACH != 0, "Attached", "Unattached")]
  }

  /** The Type-C FSM state b & 0x1f, compared against the listed state codes. */
  function TypecFsmState(b: Byte): seq<string>
  {
    var state := b & 0x1f;
    if state == UNATTACHED_SNK then ["UNATTACHED_SNK"]
    else if state == ATTACHWAIT_SNK then ["ATTACHWAIT_SNK"]
    else if state == ATTACHED_SNK then ["ATTACHED_SNK"]
    else if state == DEBUGACCESSORY_SNK then ["DEBUGACCESSORY_SNK"]
    else if state == TRY_SRC then ["TRY_SRC"]
    else if state == UNATTACHED_ACCESSORY then ["UNATTACHED_ACCESSORY"]
    else if state == ATTACHWAIT_ACCESSORY then ["ATTACHWAIT_ACCESSORY"]
    else if state == TYPEC_ERRORRECOVERY then ["TYPEC_ERRORRECOVERY"]
    else []
  }

  /** decode_TYPEC_STATUS: which CC line is attached, then the FSM state. */
  function TypecStatusActions(b: Byte): seq<string>
  {
    [Choice(b & REVERSE != 0, "CC2 is attached", "CC1 is attached")] + TypecFsmState(b)
  }

  // ------------------------------------------------- 4-byte PDO / RDO values

  function Pow256(k: nat): (p: nat)
    ensures p >= 1
  {
    if k == 0 then 1 else 256 * Pow256(k - 1)
  }

  /** (v & 0x3ff): the low 10-bit field, current in register units. */
  function CurrentField(v: nat): nat
  {
    v % 0x400
  }

  /** ((v >> 10) & 0x3ff): the next 10-bit field, voltage in register units. */
  function VoltageField(v: nat): nat
  {
    (v / 0x400) % 0x400
  }

  /** ((v >> 28) & 0x07): the RDO object position. */
  function ObjectPosition(v: nat): nat
  {
    (v / 0x1000_0000) % 8
  }

  function Pow2(k: nat): (p: nat)
    ensures p >= 1
  {
    if k == 0 then 1 else 2 * Pow2(k - 1)
  }

  /** ((v >> k) & 0x01): one bit of the RDO. */
  function RdoBit(v: nat, k: nat): nat
  {
    (v / Pow2(k)) % 2
  }

  /** decode_RDO_REG_STATUS_0: the action clauses, each a label followed by its value in decimal. */
  function RdoActions(v: nat): seq<string>
  {
    [" Object_Pos: " + Str(ObjectPosition(v))]
    + ["UnchunkedMess_sup: " + Str(RdoBit(v, RDO_UNCHUNKED_MESS_SUP))]
    + ["UsbSuspend: " + Str(RdoBit(v, RDO_USB_SUSPEND))]
    + ["UsbComCap: " + Str(RdoBit(v, RDO_USB_COM_CAP))]
    + ["CapaMismatch: " + Str(RdoBit(v, RDO_CAPA_MISMATCH))]
    + ["GiveBack: " + Str(RdoBit(v, RDO_GIVE_BACK))]
  }

  /**
   * Python's str(x / 20) for the 10-bit voltage field: the quotient in its
   * shortest decimal form, which has one or two digits after the point.
   */
  function VoltageText(x: nat): string
  {
    var cents := (x % 20) * 5;
    Str(x / 20) + "." +
    (if cents % 10 == 0 then Str(cents / 10)
     else if cents < 10 then "0" + Str(cents)
     else Str(cents))
  }

  // ================================================================= lemmas

  /** The password decoder reports "set" exactly for the unlock value 0x47. */
  lemma PasswdSetIffUnlock(b: Byte)
    ensures PasswdAction(b) == "set" <==> b == 0x47
    ensures PasswdAction(b) == "clear" <==> b != 0x47
  {
    assert Digits(4, 16) == "4";
    assert Digits(0x47, 16) == "47";
    assert Hex(0x47) == FTP_CUST_PASSWORD;
    HexInjective(b as nat, 0x47);
  }

  /**
   * Control 0: "Reset" and "FTP_CUST_RST_N" are reported for opposite values of
   * bit 6, and the other flags follow their bits.
   */
  lemma Control0Clauses(b: Byte)
    ensures "Reset" in Control0Actions(b) <==> b & 0x40 == 0
    ensures "FTP_CUST_RST_N" in Control0Actions(b) <==> b & 0x40 != 0
    ensures "FTP_CUST_PWR" in Control0Actions(b) <==> b & 0x80 != 0
    ensures "FTP_CUST_REQ" in Control0Actions(b) <==> b & 0x10 != 0
  {
    Control0SectorIsName(b);
    assert (b >> FTP_CUST_PWR) & 0x01 != 0 <==> b & 0x80 != 0;
    assert (b >> FTP_CUST_RST_N) & 0x01 != 0 <==> b & 0x40 != 0;
    assert (b >> FTP_CUST_REQ) & 0x01 != 0 <==> b & 0x10 != 0;
  }

  /** The sector clause is never one of the flag clauses. */
  lemma Control0SectorIsName(b: Byte)
    ensures Control0Sector(b) != "Reset" && Control0Sector(b) != "FTP_CUST_PWR"
    ensures Control0Sector(b) != "FTP_CUST_RST_N" && Control0Sector(b) != "FTP_CUST_REQ"
  {
    var sector := (b & 0x7) as int;
    if sector in DEC_CONTROL0_SECT {
      assert |DEC_CONTROL0_SECT[sector]| == 12;
    }
  }

  /** Control 0: the last clause is the sector, unnamed for 5..7. */
  lemma Control0SectorClause(b: Byte)
    ensures Control0Actions(b)[|Control0Actions(b)| - 1] == "Sector?" <==> b & 0x7 >= 5
  {
    Control0SectorDomain((b & 0x7) as int);
  }

  /** Control 1: every opcode is named; a sector is named only when zero or one-hot. */
  lemma Control1Clauses(b: Byte)
    ensures Control1Actions(b)[0] == DEC_CONTROL1_OPCODE[(b & 0x7) as int]
    ensures Control1Actions(b)[0] != "Opcode?"
    ensures Control1Actions(b)[1] == "Sector?" <==> ((b >> 3) & 0x1f) as int !in {0x00, 0x01, 0x02, 0x04, 0x08, 0x10}
  {
    Control1OpcodeTotal((b & 0x7) as int);
    Control1SectorDomain(((b >> 3) & 0x1f) as int);
  }

  /** Alert mask: the four clauses tell exactly the four mask bits. */
  lemma AlertMaskLossless(b: Byte, c: Byte)
    ensures AlertMaskActions(b) == AlertMaskActions(c) <==> b & 0x71 == c & 0x71
  {
    if AlertMaskActions(b) == AlertMaskActions(c) {
      assert AlertMaskActions(b)[0] == AlertMaskActions(c)[0];
      assert AlertMaskActions(b)[1] == AlertMaskActions(c)[1];
      assert AlertMaskActions(b)[2] == AlertMaskActions(c)[2];
      assert AlertMaskActions(b)[3] == AlertMaskActions(c)[3];
    }
  }

  /** Alert status: each source is listed exactly when its bit is set. */
  lemma AlertStatus1Clauses(b: Byte)
    ensures "PRT_STATUS_AL" in AlertStatus1Actions(b) <==> b & 0x01 != 0
    ensures "CC_HW_FAULT_STATUS_AL" in AlertStatus1Actions(b) <==> b & 0x10 != 0
    ensures "TYPEC_MONITORING_STATUS_AL" in AlertStatus1Actions(b) <==> b & 0x20 != 0
    ensures "PORT_STATUS_AL" in AlertStatus1Actions(b) <==> b & 0x40 != 0
    ensures AlertStatus1Actions(b) == [] <==> b & 0x71 == 0
  {
  }

  /** Monitoring status 0: transitions listed when set; low and high status always reported. */
  lemma TypecMonitoringStatus0Clauses(b: Byte)
    ensures "VBUS_VALID_SNK_TRANS" in TypecMonitoringStatus0Actions(b) <==> b & 0x02 != 0
    ensures "VBUS_VSAFE0V_TRANS" in TypecMonitoringStatus0Actions(b) <==> b & 0x04 != 0
    ensures "VBUS_READY_TRANS" in TypecMonitoringStatus0Actions(b) <==> b & 0x08 != 0
    ensures "VBUS_LOW_STATUS: ERR" in TypecMonitoringStatus0Actions(b) <==> b & 0x10 != 0
    ensures "VBUS_HIGH_STATUS: ERR" in TypecMonitoringStatus0Actions(b) <==> b & 0x20 != 0
    ensures 2 <= |TypecMonitoringStatus0Actions(b)| <= 5
  {
  }

  /** Monitoring status 1: the three clauses tell exactly bits 3..1. */
  lemma TypecMonitoringStatus1Lossless(b: Byte, c: Byte)
    ensures TypecMonitoringStatus1Actions(b) == TypecMonitoringStatus1Actions(c) <==> b & 0x0e == c & 0x0e
  {
    if TypecMonitoringStatus1Actions(b) == TypecMonitoringStatus1Actions(c) {
      assert TypecMonitoringStatus1Actions(b)[0] == TypecMonitoringStatus1Actions(c)[0];
      assert TypecMonitoringStatus1Actions(b)[1] == TypecMonitoringStatus1Actions(c)[1];
      assert TypecMonitoringStatus1Actions(b)[2] == TypecMonitoringStatus1Actions(c)[2];
    }
  }

  /** CC fault status 0: each transition is listed exactly when its bit is set. */
  lemma CcHwFaultStatus0Clauses(b: Byte)
    ensures "VPU_VALID_TRANS" in CcHwFaultStatus0Actions(b) <==> b & 0x10 != 0
    ensures "VPU_OVP_FAULT_TRANS" in CcHwFaultStatus0Actions(b) <==> b & 0x20 != 0
  {
  }

  /** CC fault status 1: always three clauses, telling exactly bits 7, 6 and 4. */
  lemma CcHwFaultStatus1Lossless(b: Byte, c: Byte)
    ensures |CcHwFaultStatus1Actions(b)| == 3
    ensures CcHwFaultStatus1Actions(b) == CcHwFaultStatus1Actions(c) <==> b & 0xd0 == c & 0xd0
  {
    if CcHwFaultStatus1Actions(b) == CcHwFaultStatus1Actions(c) {
      assert CcHwFaultStatus1Actions(b)[0] == CcHwFaultStatus1Actions(c)[0];
      assert CcHwFaultStatus1Actions(b)[1] == CcHwFaultStatus1Actions(c)[1];
      assert CcHwFaultStatus1Actions(b)[2] == CcHwFaultStatus1Actions(c)[2];
    }
  }

  /** CC fault status 1: the clauses come in the order overvoltage, CC valid, VBUS discharge. */
  lemma CcHwFaultStatus1Order(b: Byte)
    ensures CcHwFaultStatus1Actions(b)[0] in {"(FAULT) Overvoltage", "(NO_FAULT) No overvoltage"}
    ensures CcHwFaultStatus1Actions(b)[1] in {"(VALID) CC voltage", "(NO_VALID) CC voltage"}
    ensures CcHwFaultStatus1Actions(b)[2] in {"VBUS discharge issue", "No VBUS discharge issue"}
    ensures CcHwFaultStatus1Actions(b)[0] == "(FAULT) Overvoltage" <==> b & 0x80 != 0
    ensures CcHwFaultStatus1Actions(b)[1] == "(VALID) CC voltage" <==> b & 0x40 != 0
    ensures CcHwFaultStatus1Actions(b)[2] == "VBUS discharge issue" <==> b & 0x10 != 0
    ensures CcHwFaultStatus1Actions(0xd0) == ["(FAULT) Overvoltage", "(VALID) CC voltage", "VBUS discharge issue"]
  {
  }

  /** CC status: the CC line states are reported only with the connect result. */
  lemma CcStatusClauses(b: Byte)
    ensures CcStatusActions(b)[0] == "Try connecting" <==> b & 0x20 != 0
    ensures "PRESENT_RD" in CcStatusActions(b) <==> b & 0x10 != 0
    ensures b & 0x10 == 0 ==> |CcStatusActions(b)| == 1
    ensures "SNK_CC2_Power3_0" in CcStatusActions(b) <==> b & 0x10 != 0 && b & 0x0c == 0x0c
    ensures "SNK_CC1_Power3_0" in CcStatusActions(b) <==> b & 0x10 != 0 && b & 0x03 == 0x03
    ensures "SNK_CC2_Default" in CcStatusActions(b) <==> b & 0x10 != 0 && b & 0x0c == 0x04
    ensures "SNK_CC2_Power1_5" in CcStatusActions(b) <==> b & 0x10 != 0 && b & 0x0c == 0x08
    ensures "SNK_CC1_Default" in CcStatusActions(b) <==> b & 0x10 != 0 && b & 0x03 == 0x01
    ensures "SNK_CC1_Power1_5" in CcStatusActions(b) <==> b & 0x10 != 0 && b & 0x03 == 0x02
    ensures |CcStatusActions(b)| <= 4
  {
  }

  /** PD/Type-C status: only four whole-byte codes are named. */
  lemma PdTypecStatusReserved(b: Byte)
    ensures PdTypecStatusAction(b) == "reserved" <==> b !in {0x00, 0x08, 0x0e, 0x0f}
  {
  }

  /** Protocol status: one clause, the lowest of bits 0, 2 and 4 that is set. */
  lemma PrtStatusPriority(b: Byte)
    ensures PrtStatusAction(b) == "PRL_HW_RST_RECEIVED" <==> b & 0x01 != 0
    ensures PrtStatusAction(b) == "PRL_MSG_RECEIVED" <==> b & 0x01 == 0 && b & 0x04 != 0
    ensures PrtStatusAction(b) == "PRL_BIST_RECEIVED" <==> b & 0x05 == 0 && b & 0x10 != 0
    ensures PrtStatusAction(b) == "reserved" <==> b & 0x15 == 0
  {
  }

  /** Monitoring control 0: the four clauses tell exactly the low nibble. */
  lemma MonitoringCtrl0Lossless(b: Byte, c: Byte)
    ensures MonitoringCtrl0Actions(b) == MonitoringCtrl0Actions(c) <==> b & 0x0f == c & 0x0f
  {
    if MonitoringCtrl0Actions(b) == MonitoringCtrl0Actions(c) {
      assert MonitoringCtrl0Actions(b)[0] == MonitoringCtrl0Actions(c)[0];
      assert MonitoringCtrl0Actions(b)[1] == MonitoringCtrl0Actions(c)[1];
      assert MonitoringCtrl0Actions(b)[2] == MonitoringCtrl0Actions(c)[2];
      assert MonitoringCtrl0Actions(b)[3] == MonitoringCtrl0Actions(c)[3];
    }
  }

  /** A byte is its two nibbles. */
  lemma Nibbles(b: Byte, c: Byte)
    requires b & 0xf == c & 0xf && (b >> 4) & 0xf == (c >> 4) & 0xf
    ensures b == c
  {
  }

  /** Monitoring control 2: the two decimal levels tell the whole byte. */
  lemma MonitoringCtrl2Lossless(b: Byte, c: Byte)
    ensures MonitoringCtrl2Actions(b) == MonitoringCtrl2Actions(c) <==> b == c
  {
    if MonitoringCtrl2Actions(b) == MonitoringCtrl2Actions(c) {
      assert MonitoringCtrl2Actions(b)[1] == MonitoringCtrl2Actions(c)[1];
      StrInjective((b & 0xf) as nat, (c & 0xf) as nat);
      assert MonitoringCtrl2Actions(b)[3] == MonitoringCtrl2Actions(c)[3];
      StrInjective(((b >> 4) & 0xf) as nat, ((c >> 4) & 0xf) as nat);
      Nibbles(b, c);
    }
  }

  /**
   * Discharge time: the labels are appended without a separator but the levels
   * with one, so the separator follows each label whatever the field held.
   */
  lemma DischargeTimeText(action: string, b: Byte)
    ensures DischargeTimeAction(action, b)
         == action + "DISCHARGE_TIME_TRANSITION:, " + Str((b & 0xf) as nat)
            + ", DISCHARGE_TIME_TO_0V:, " + Str(((b >> 4) & 0xf) as nat)
  {
  }

  /** Discharge control: the two clauses tell exactly bits 7 and 6. */
  lemma VbusDischargeCtrlLossless(b: Byte, c: Byte)
    ensures VbusDischargeCtrlActions(b) == VbusDischargeCtrlActions(c) <==> b & 0xc0 == c & 0xc0
  {
    if VbusDischargeCtrlActions(b) == VbusDischargeCtrlActions(c) {
      assert VbusDischargeCtrlActions(b)[0] == VbusDischargeCtrlActions(c)[0];
      assert VbusDischargeCtrlActions(b)[1] == VbusDischargeCtrlActions(c)[1];
    }
  }

  /** The single-bit control registers: the clause tells exactly the decoded bit. */
  lemma SingleBitLossless(b: Byte, c: Byte)
    ensures ResetCtrlAction(b) == ResetCtrlAction(c) <==> b & 0x01 == c & 0x01
    ensures VbusCtrlAction(b) == VbusCtrlAction(c) <==> b & 0x02 == c & 0x02
    ensures GpioSwGpioAction(b) == GpioSwGpioAction(c) <==> b & 0x01 == c & 0x01
  {
  }

  /** Port status 1: the device field is compared without masking, so only 0, 1 and 3 are named. */
  lemma PortStatus1Device(b: Byte)
    ensures AttachedDevice(b) != [] <==> b >> 5 == 0 || b >> 5 == 1 || b >> 5 == 3
  {
  }

  /** Port status 1: power and data mode follow their bits; the attach flag is always reported. */
  lemma PortStatus1Clauses(b: Byte)
    ensures "Attached" in PortStatus1Actions(b) <==> b & 0x02 != 0
    ensures "Unattached" in PortStatus1Actions(b) <==> b & 0x02 == 0
    ensures "Device sinking power" in PortStatus1Actions(b) <==> b & 0x08 != 0
    ensures "UFP" in PortStatus1Actions(b) <==> b & 0x04 != 0
  {
    AttachedDeviceIsName(b);
  }

  /** The device clause is never one of the mode or attach clauses. */
  lemma AttachedDeviceIsName(b: Byte)
    ensures "Attached" !in AttachedDevice(b) && "Unattached" !in AttachedDevice(b)
    ensures "Device sinking power" !in AttachedDevice(b) && "UFP" !in AttachedDevice(b)
  {
    if AttachedDevice(b) != [] {
      var name := AttachedDevice(b)[0];
      assert AttachedDevice(b) == [name];
      assert name[|name| - 3..] == "ATT";
    }
  }

  /**
   * Type-C status: the state is masked to five bits, so the three accessory and
   * try-source codes can never be reported.
   */
  lemma TypecStatusUnreachable(b: Byte)
    ensures "TRY_SRC" !in TypecStatusActions(b)
    ensures "UNATTACHED_ACCESSORY" !in TypecStatusActions(b)
    ensures "ATTACHWAIT_ACCESSORY" !in TypecStatusActions(b)
    ensures |TypecStatusActions(b)| == 2 <==> b & 0x1f in {0x00, 0x01, 0x02, 0x03, 0x13}
  {
  }

  /** PD_COMMAND_CTRL names only the send-command value 0x26, TX_HEADER_LOW only the soft-reset value 0x0d. */
  lemma DescriptionTexts(b: Byte)
    ensures PdCommandText(b) in {"Send command", "Unknown"} && TxHeaderLowText(b) in {"Soft Reset", "Unknown"}
    ensures PdCommandText(b) == "Send command" <==> b == 0x26
    ensures TxHeaderLowText(b) == "Soft Reset" <==> b == 0x0d
  {
  }

  /** Policy engine: 0x1b (hard reset recovery) has a name but no branch. */
  lemma PeFsmReserved(b: Byte)
    ensures PeFsmState(PE_HARD_RESET_RECOVERY) == "reserved"
    ensures PeFsmState(b) == "reserved"
        <==> b !in {0x00, 0x01, 0x02, 0x03, 0x04, 0x12, 0x13, 0x14, 0x15, 0x16, 0x17, 0x18, 0x19, 0x1a, 0x40}
  {
  }

  /** Sample renderings of the voltage field whose decimal part has one digit. */
  lemma VoltageTextOneDecimal()
    ensures VoltageText(100) == "5.0"
    ensures VoltageText(102) == "5.1"
  {
    assert Str(5) == "5" && Str(0) == "0" && Str(1) == "1";
  }

  /** Sample renderings of the voltage field whose decimal part has two digits. */
  lemma VoltageTextTwoDecimals()
    ensures VoltageText(101) == "5.05"
    ensures VoltageText(1023) == "51.15"
  {
    assert Str(5) == "5";
    assert VoltageText(101) == Str(5) + "." + ("0" + Str(5));
    assert Str(51) == "51" by {
      assert Digits(51, 10) == Digits(5, 10) + [DigitChar(1)];
    }
    assert Str(15) == "15" by {
      assert Digits(15, 10) == Digits(1, 10) + [DigitChar(5)];
    }
    assert VoltageText(1023) == Str(51) + "." + Str(15);
  }

  /** The 32-bit value the accumulator assembles from four bytes, least significant first. */
  function LittleEndian32(b0: Byte, b1: Byte, b2: Byte, b3: Byte): nat
  {
    b0 as nat + 0x100 * b1 as nat + 0x1_0000 * b2 as nat + 0x100_0000 * b3 as nat
  }

  /** The bit offsets of the RDO flags, as powers of two. */
  lemma RdoPowers()
    ensures Pow2(RDO_UNCHUNKED_MESS_SUP) == 0x80_0000
    ensures Pow2(RDO_USB_SUSPEND) == 0x100_0000
    ensures Pow2(RDO_USB_COM_CAP) == 0x200_0000
    ensures Pow2(RDO_CAPA_MISMATCH) == 0x400_0000
    ensures Pow2(RDO_GIVE_BACK) == 0x800_0000
  {
    assert Pow2(8) == 0x100;
    assert Pow2(16) == 0x1_0000;
    assert Pow2(23) == 0x80_0000;
    assert Pow2(27) == 0x800_0000;
  }

  /** Current is byte 0 and the low two bits of byte 1. */
  lemma CurrentFromBytes(b0: Byte, b1: Byte, b2: Byte, b3: Byte)
    ensures CurrentField(LittleEndian32(b0, b1, b2, b3)) == b0 as nat + 0x100 * (b1 as nat % 4)
  {
    WordSplit10(b0 as nat, b1 as nat, b2 as nat, b3 as nat);
  }

  /** Voltage is the upper six bits of byte 1 and the low nibble of byte 2. */
  lemma VoltageFromBytes(b0: Byte, b1: Byte, b2: Byte, b3: Byte)
    ensures VoltageField(LittleEndian32(b0, b1, b2, b3)) == b1 as nat / 4 + 0x40 * (b2 as nat % 16)
  {
    WordVoltage(b0 as nat, b1 as nat, b2 as nat, b3 as nat);
  }

  /** The object position is bits 6..4 of byte 3; the flags are bit 7 of byte 2 and bits 0..3 of byte 3. */
  lemma RdoFlagsFromBytes(b0: Byte, b1: Byte, b2: Byte, b3: Byte)
    ensures var v := LittleEndian32(b0, b1, b2, b3);
      && v < 0x1_0000_0000
      && ObjectPosition(v) == (b3 as nat / 16) % 8
      && RdoBit(v, RDO_UNCHUNKED_MESS_SUP) == b2 as nat / 0x80
      && RdoBit(v, RDO_USB_SUSPEND) == b3 as nat % 2
      && RdoBit(v, RDO_USB_COM_CAP) == (b3 as nat / 2) % 2
      && RdoBit(v, RDO_CAPA_MISMATCH) == (b3 as nat / 4) % 2
      && RdoBit(v, RDO_GIVE_BACK) == (b3 as nat / 8) % 2
  {
    WordSplitHigh(b0 as nat, b1 as nat, b2 as nat, b3 as nat);
    UnchunkedFromBytes(b0, b1, b2, b3);
    UsbSuspendFromBytes(b0, b1, b2, b3);
    UsbComCapFromBytes(b0, b1, b2, b3);
    CapaMismatchFromBytes(b0, b1, b2, b3);
    GiveBackFromBytes(b0, b1, b2, b3);
  }

  lemma UnchunkedFromBytes(b0: Byte, b1: Byte, b2: Byte, b3: Byte)
    ensures RdoBit(LittleEndian32(b0, b1, b2, b3), RDO_UNCHUNKED_MESS_SUP) == b2 as nat / 0x80
  {
    RdoPowers();
    WordSplitHigh(b0 as nat, b1 as nat, b2 as nat, b3 as nat);
  }

  lemma UsbSuspendFromBytes(b0: Byte, b1: Byte, b2: Byte, b3: Byte)
    ensures RdoBit(LittleEndian32(b0, b1, b2, b3), RDO_USB_SUSPEND) == b3 as nat % 2
  {
    RdoPowers();
    WordSplitHigh(b0 as nat, b1 as nat, b2 as nat, b3 as nat);
  }

  lemma UsbComCapFromBytes(b0: Byte, b1: Byte, b2: Byte, b3: Byte)
    ensures RdoBit(LittleEndian32(b0, b1, b2, b3), RDO_USB_COM_CAP) == (b3 as nat / 2) % 2
  {
    RdoPowers();
    WordSplitHigh(b0 as nat, b1 as nat, b2 as nat, b3 as nat);
  }

  lemma CapaMismatchFromBytes(b0: Byte, b1: Byte, b2: Byte, b3: Byte)
    ensures RdoBit(LittleEndian32(b0, b1, b2, b3), RDO_CAPA_MISMATCH) == (b3 as nat / 4) % 2
  {
    RdoPowers();
    WordSplitHigh(b0 as nat, b1 as nat, b2 as nat, b3 as nat);
  }

  lemma GiveBackFromBytes(b0: Byte, b1: Byte, b2: Byte, b3: Byte)
    ensures RdoBit(LittleEndian32(b0, b1, b2, b3), RDO_GIVE_BACK) == (b3 as nat / 8) % 2
  {
    RdoPowers();
    WordSplitHigh(b0 as nat, b1 as nat, b2 as nat, b3 as nat);
  }

  lemma WordSplit10(x0: nat, x1: nat, x2: nat, x3: nat)
    requires x0 < 0x100 && x1 < 0x100 && x2 < 0x100 && x3 < 0x100
    ensures var v := x0 + 0x100 * x1 + 0x1_0000 * x2 + 0x100_0000 * x3;
      v % 0x400 == x0 + 0x100 * (x1 % 4) && v / 0x400 == x1 / 4 + 0x40 * x2 + 0x4000 * x3
  {
    var v := x0 + 0x100 * x1 + 0x1_0000 * x2 + 0x100_0000 * x3;
    assert x1 == 4 * (x1 / 4) + x1 % 4;
    SplitAt(v, 0x400, x1 / 4 + 0x40 * x2 + 0x4000 * x3, x0 + 0x100 * (x1 % 4));
  }

  lemma WordSplit20(x1: nat, x2: nat, x3: nat)
    requires x1 < 0x100 && x2 < 0x100 && x3 < 0x100
    ensures (x1 / 4 + 0x40 * x2 + 0x4000 * x3) % 0x400 == x1 / 4 + 0x40 * (x2 % 16)
  {
    assert x2 == 16 * (x2 / 16) + x2 % 16;
    SplitAt(x1 / 4 + 0x40 * x2 + 0x4000 * x3, 0x400, x2 / 16 + 0x10 * x3, x1 / 4 + 0x40 * (x2 % 16));
  }

  lemma WordVoltage(x0: nat, x1: nat, x2: nat, x3: nat)
    requires x0 < 0x100 && x1 < 0x100 && x2 < 0x100 && x3 < 0x100
    ensures VoltageField(x0 + 0x100 * x1 + 0x1_0000 * x2 + 0x100_0000 * x3) == x1 / 4 + 0x40 * (x2 % 16)
  {
    var q := x1 / 4 + 0x40 * x2 + 0x4000 * x3;
    WordSplit10(x0, x1, x2, x3);
    WordSplit20(x1, x2, x3);
    assert q % 0x400 == x1 / 4 + 0x40 * (x2 % 16);
  }

  lemma WordSplitHigh(x0: nat, x1: nat, x2: nat, x3: nat)
    requires x0 < 0x100 && x1 < 0x100 && x2 < 0x100 && x3 < 0x100
    ensures var v := x0 + 0x100 * x1 + 0x1_0000 * x2 + 0x100_0000 * x3;
      && v < 0x1_0000_0000
      && (v / 0x1000_0000) % 8 == (x3 / 16) % 8
      && (v / 0x80_0000) % 2 == x2 / 0x80
      && (v / 0x100_0000) % 2 == x3 % 2
      && (v / 0x200_0000) % 2 == (x3 / 2) % 2
      && (v / 0x400_0000) % 2 == (x3 / 4) % 2
      && (v / 0x800_0000) % 2 == (x3 / 8) % 2
  {
    var v := x0 + 0x100 * x1 + 0x1_0000 * x2 + 0x100_0000 * x3;
    var low := x0 + 0x100 * x1 + 0x1_0000 * x2;
    assert low < 0x100_0000;
    assert x2 == 0x80 * (x2 / 0x80) + x2 % 0x80;
    SplitAt(v, 0x80_0000, x2 / 0x80 + 2 * x3, x0 + 0x100 * x1 + 0x1_0000 * (x2 % 0x80));
    SplitAt(x2 / 0x80 + 2 * x3, 2, x3, x2 / 0x80);
    SplitAt(v, 0x100_0000, x3, low);
    assert x3 == 2 * (x3 / 2) + x3 % 2;
    SplitAt(v, 0x200_0000, x3 / 2, low + 0x100_0000 * (x3 % 2));
    assert x3 == 4 * (x3 / 4) + x3 % 4;
    SplitAt(v, 0x400_0000, x3 / 4, low + 0x100_0000 * (x3 % 4));
    assert x3 == 8 * (x3 / 8) + x3 % 8;
    SplitAt(v, 0x800_0000, x3 / 8, low + 0x100_0000 * (x3 % 8));
    assert x3 == 16 * (x3 / 16) + x3 % 16;
    SplitAt(v, 0x1000_0000, x3 / 16, low + 0x100_0000 * (x3 % 16));
  }

  /** Euclidean division is determined by its quotient and remainder. */
  lemma SplitAt(n: nat, d: nat, q: nat, r: nat)
    requires 0 < d && r < d && n == q * d + r
    ensures n / d == q && n % d == r
  {
    var q0, r0 := n / d, n % d;
    if q0 < q {
      MulMonotone(q0 + 1, q, d);
    } else if q0 > q {
      MulMonotone(q + 1, q0, d);
    }
  }

  /** Powers of two add their exponents. */
  lemma {:induction false} Pow2Add(a: nat, b: nat)
    ensures Pow2(a + b) == Pow2(a) * Pow2(b)
    decreases a
  {
    if a > 0 {
      Pow2Add(a - 1, b);
    }
  }

  /**
   * The accumulator's byte weight 256^k is the shift `<< (8 * k)`, the same
   * powers of two the RDO bit extraction divides by.
   */
  lemma {:induction false} Pow256IsShift(k: nat)
    ensures Pow256(k) == Pow2(8 * k)
    decreases k
  {
    if k > 0 {
      Pow256IsShift(k - 1);
      Pow2Add(8, 8 * (k - 1));
      assert Pow2(8) == 256;
    }
  }

  lemma MulMonotone(a: nat, b: nat, d: nat)
    requires a <= b
    ensures a * d <= b * d
  {
  }
}
