/**
 * The STUSB4500 register catalog: the addresses that have a decoder, the table
 * of register names shown in output, the NVM enumeration tables and the bit
 * masks the field decoders test (HighLevelAnalyzer.py:20-273).
 *
 * The source keys every table by the `hex()` text of the address; this model
 * keys by the byte itself, which is equivalent because `hex()` is injective
 * (Text.HexInjective).
 */
module Catalog {
  import opened Wrappers

  /** One byte on the bus. */
  type Byte = bv8

  // Registers with decoders.
  const ALERT_STATUS_1: Byte := 0x0b              // read/decode only
  const ALERT_STATUS_1_MASK: Byte := 0x0c
  const PORT_STATUS_1: Byte := 0x0e               // read/decode only
  const TYPEC_MONITORING_STATUS_0: Byte := 0x0f   // read and clear
  const TYPEC_MONITORING_STATUS_1: Byte := 0x10   // read/decode only
  const CC_STATUS: Byte := 0x11                   // read/decode only
  const CC_HW_FAULT_STATUS_0: Byte := 0x12        // read and clear
  const CC_HW_FAULT_STATUS_1: Byte := 0x13        // read/decode only
  const PD_TYPEC_STATUS: Byte := 0x14             // read and clear
  const TYPEC_STATUS: Byte := 0x15                // read/decode only
  const PRT_STATUS: Byte := 0x16                  // read and clear
  const PD_COMMAND_CTRL: Byte := 0x1a             // read and clear
  const MONITORING_CTRL_0: Byte := 0x20
  const MONITORING_CTRL_2: Byte := 0x22
  const RESET_CTRL: Byte := 0x23
  const VBUS_DISCHARGE_TIME_CTRL: Byte := 0x25
  const VBUS_DISCHARGE_CTRL: Byte := 0x26
  const VBUS_CTRL: Byte := 0x27                   // read/decode only
  const PE_FSM: Byte := 0x29                      // read/decode only
  const GPIO_SW_GPIO: Byte := 0x2d
  const TX_HEADER_LOW: Byte := 0x51
  const DPM_PDO_NUMB: Byte := 0x70
  const DPM_SNK_PDO1_0: Byte := 0x85              // 4 bytes, up to 0x88
  const DPM_SNK_PDO2_0: Byte := 0x89              // 4 bytes, up to 0x8c
  const DPM_SNK_PDO3_0: Byte := 0x8d              // 4 bytes, up to 0x90
  const RDO_REG_STATUS_0: Byte := 0x91            // read/decode only
  const FTP_CUST_PASSWORD_REG: Byte := 0x95
  const FTP_CTRL_0: Byte := 0x96
  const FTP_CTRL_1: Byte := 0x97

  /**
   * The catalog entry of a register address: the names of all known
   * registers, also those without a decoder, each with its trailing ": "; None
   * for an unmapped address. The four entries 0x4b..0x4e repeat the names of
   * 0x47..0x4a, as the source has them.
   */
  function Lookup(r: Byte): Option<string>
  {
    match r
    case 0x06 => Some("BCD_TYPEC_REV_LOW: ")
    case 0x07 => Some("BCD_TYPEC_REV_HIGH: ")
    case 0x08 => Some("BCD_USPD_REV_LOW: ")
    case 0x09 => Some("BCD_USPD_REV_HIGH: ")
    case 0x0a => Some("DEVICE_CAPAB_HIGH: ")
    case 0x0b => Some("ALERT_STATUS_1: ")
    case 0x0c => Some("ALERT_STATUS_1_MASK: ")
    case 0x0d => Some("PORT_STATUS_0: ")
    case 0x0e => Some("PORT_STATUS_1: ")
    case 0x0f => Some("TYPEC_MONITORING_STATUS_0: ")
    case 0x10 => Some("TYPEC_MONITORING_STATUS_1: ")
    case 0x11 => Some("CC_STATUS: ")
    case 0x12 => Some("CC_HW_FAULT_STATUS_0: ")
    case 0x13 => Some("CC_HW_FAULT_STATUS_1: ")
    case 0x14 => Some("PD_TYPEC_STATUS: ")
    case 0x15 => Some("TYPEC_STATUS: ")
    case 0x16 => Some("PRT_STATUS: ")
    case 0x1a => Some("PD_COMMAND_CTRL: ")
    case 0x20 => Some("MONITORING_CTRL_0: ")
    case 0x22 => Some("MONITORING_CTRL_2: ")
    case 0x23 => Some("RESET_CTRL: ")
    case 0x25 => Some("VBUS_DISCHARGE_TIME_CTRL: ")
    case 0x26 => Some("VBUS_DISCHARGE_CTRL: ")
    case 0x27 => Some("VBUS_CTRL: ")
    case 0x29 => Some("PE_FSM: ")
    case 0x2d => Some("GPIO_SW_GPIO: ")
    case 0x2f => Some("Device_ID: ")
    case 0x31 => Some("RX_HEADER_LOW: ")
    case 0x32 => Some("RX_HEADER_HIGH: ")
    case 0x33 => Some("RX_DATA_OBJ1_0: ")
    case 0x34 => Some("RX_DATA_OBJ1_1: ")
    case 0x35 => Some("RX_DATA_OBJ1_2: ")
    case 0x36 => Some("RX_DATA_OBJ1_3: ")
    case 0x37 => Some("RX_DATA_OBJ2_0: ")
    case 0x38 => Some("RX_DATA_OBJ2_1: ")
    case 0x39 => Some("RX_DATA_OBJ2_2: ")
    case 0x3a => Some("RX_DATA_OBJ2_3: ")
    case 0x3b => Some("RX_DATA_OBJ3_0: ")
    case 0x3c => Some("RX_DATA_OBJ3_1: ")
    case 0x3d => Some("RX_DATA_OBJ3_2: ")
    case 0x3e => Some("RX_DATA_OBJ3_3: ")
    case 0x3f => Some("RX_DATA_OBJ4_0: ")
    case 0x40 => Some("RX_DATA_OBJ4_1: ")
    case 0x41 => Some("RX_DATA_OBJ4_2: ")
    case 0x42 => Some("RX_DATA_OBJ4_3: ")
    case 0x43 => Some("RX_DATA_OBJ5_0: ")
    case 0x44 => Some("RX_DATA_OBJ5_1: ")
    case 0x45 => Some("RX_DATA_OBJ5_2: ")
    case 0x46 => Some("RX_DATA_OBJ5_3: ")
    case 0x47 => Some("RX_DATA_OBJ6_0: ")
    case 0x48 => Some("RX_DATA_OBJ6_1: ")
    case 0x49 => Some("RX_DATA_OBJ6_2: ")
    case 0x4a => Some("RX_DATA_OBJ6_3: ")
    case 0x4b => Some("RX_DATA_OBJ6_0: ")
    case 0x4c => Some("RX_DATA_OBJ6_1: ")
    case 0x4d => Some("RX_DATA_OBJ6_2: ")
    case 0x4e => Some("RX_DATA_OBJ6_3: ")
    case 0x51 => Some("TX_HEADER_LOW: ")
    case 0x52 => Some("TX_HEADER_HIGH: ")
    case 0x53 => Some("RW_BUFFER: ")
    case 0x70 => Some("DPM_PDO_NUMB: ")
    case 0x85 => Some("SNK_PDO1_0: ")
    case 0x89 => Some("SNK_PDO2_0: ")
    case 0x8d => Some("SNK_PDO3_0: ")
    case 0x91 => Some("RDO_REG_STATUS_0: ")
    case 0x92 => Some("RDO_REG_STATUS_1: ")
    case 0x93 => Some("RDO_REG_STATUS_2: ")
    case 0x94 => Some("RDO_REG_STATUS_3: ")
    case 0x95 => Some("PASSWORD_REG: ")
    case 0x96 => Some("CTRL_0: ")
    case 0x97 => Some("CTRL_1: ")
    case _ => None
  }

  /** Password register: the value that enables NVM access, as `hex()` text. */
  const FTP_CUST_PASSWORD: string := "0x47"

  // Control 0 register: bit positions.
  const FTP_CUST_PWR: nat := 7     // 0x80
  const FTP_CUST_RST_N: nat := 6   // 0x40 (1 = no reset)
  const FTP_CUST_REQ: nat := 4     // 0x10 (access request to NVM in customer mode)

  /** Control 0 sector field (3 bits). */
  const DEC_CONTROL0_SECT: map<int, string> := map[
    0x0 := "SECTOR_NVM_0",
    0x1 := "SECTOR_NVM_1",
    0x2 := "SECTOR_NVM_2",
    0x3 := "SECTOR_NVM_3",
    0x4 := "SECTOR_NVM_4"
  ]

  /** Control 1 opcode field (3 bits): every value is named. */
  const DEC_CONTROL1_OPCODE: map<int, string> := map[
    0x0 := "Read",
    0x1 := "Write_to_PL",
    0x2 := "Write_to_Erase",
    0x3 := "Write_out_PL",
    0x4 := "Write_out_Erase",
    0x5 := "Erase_sector",
    0x6 := "Word_to_EEPROM",
    0x7 := "Soft Program"
  ]

  /** Control 1 sector field (5 bits, one-hot). */
  const DEC_CONTROL1_SECT: map<int, string> := map[
    0x00 := "No_Sector",
    0x01 := "SECTOR_NVM_0",
    0x02 := "SECTOR_NVM_1",
    0x04 := "SECTOR_NVM_2",
    0x08 := "SECTOR_NVM_3",
    0x10 := "SECTOR_NVM_4"
  ]

  // Alert register and its mask.
  const PRT_STATUS_AL: Byte := 0x01
  const CC_HW_FAULT_STATUS_AL: Byte := 0x10
  const TYPEC_MONITORING_STATUS_AL: Byte := 0x20
  const PORT_STATUS_AL: Byte := 0x40

  // TYPEC_MONITORING_STATUS_0
  const VBUS_VALID_SNK_TRANS: Byte := 0x02
  const VBUS_VSAFE0V_TRANS: Byte := 0x04
  const VBUS_READY_TRANS: Byte := 0x08
  const VBUS_LOW_STATUS: Byte := 0x10
  const VBUS_HIGH_STATUS: Byte := 0x20

  // TYPEC_MONITORING_STATUS_1
  const VBUS_READY: Byte := 0x08       // 0: VBUS disconnected, 1: connected
  const VBUS_VSAFE0V: Byte := 0x04     // 0: VBUS > 0.8 V, 1: < 0.8 V
  const VBUS_VALID_SNK: Byte := 0x02   // 0: below, 1: above the sink disconnect threshold

  // CC_STATUS
  const LOOKING_4_CONNECTION: Byte := 0x20
  const CONNECT_RESULT: Byte := 0x10
  const SNK_CC2_DEFAULT: Byte := 0x1   // CC2 state: (b >> 2) & 0x3
  const SNK_CC2_POWER1_5: Byte := 0x2
  const SNK_CC2_POWER3_0: Byte := 0x3
  const SNK_CC1_DEFAULT: Byte := 0x1   // CC1 state: b & 0x3
  const SNK_CC1_POWER1_5: Byte := 0x2
  const SNK_CC1_POWER3_0: Byte := 0x3

  // CC_HW_FAULT_STATUS_0
  const VPU_VALID_TRANS: Byte := 0x10
  const VPU_OVP_FAULT_TRANS: Byte := 0x20

  // CC_HW_FAULT_STATUS_1
  const VPU_OVP_FAULT: Byte := 0x80     // overvoltage on CC
  const VPU_VALID: Byte := 0x40         // CC pull-up above the 2.8 V UVLO threshold
  const VBUS_DISCH_FAULT: Byte := 0x10  // VBUS discharge issue

  // PD_TYPEC_STATUS
  const PD_CLEAR: Byte := 0x00
  const PD_HARD_RESET_COMPLETE_ACK: Byte := 0x08
  const PD_HARD_RESET_RECEIVED_ACK: Byte := 0x0e
  const PD_HARD_RESET_SEND_ACK: Byte := 0x0f

  // PRT_STATUS
  const PRL_HW_RST_RECEIVED: Byte := 0x01
  const PRL_MSG_RECEIVED: Byte := 0x04
  const PRL_BIST_RECEIVED: Byte := 0x10

  // PORT_STATUS_1: attached device (b >> 5), and flags.
  const NONE_ATT: Byte := 0x0
  const SNK_ATT: Byte := 0x1
  const DBG_ATT: Byte := 0x3
  const POWER_MODE: Byte := 0x8   // 0: device is sinking power, 1: reserved
  const DATA_MODE: Byte := 0x4    // 0: UFP, 1: reserved
  const ATTACH: Byte := 0x2       // 0: unattached, 1: attached

  // RDO_REG_STATUS_0: bit offsets in the 32-bit requested data object.
  const RDO_MAX_CURRENT: nat := 0          // 10 bits, 9..0
  const RDO_OPERATING_CURRENT: nat := 10   // 10 bits, 19..10
  const RDO_RESERVED_22_20: nat := 20
  const RDO_UNCHUNKED_MESS_SUP: nat := 23
  const RDO_USB_SUSPEND: nat := 24
  const RDO_USB_COM_CAP: nat := 25
  const RDO_CAPA_MISMATCH: nat := 26
  const RDO_GIVE_BACK: nat := 27
  const RDO_OBJECT_POS: nat := 28          // 3 bits, 30..28
  const RDO_RESERVED_31: nat := 31

  // TYPEC_STATUS
  const REVERSE: Byte := 0x80   // 0: CC1 attached, 1: CC2 attached
  const UNATTACHED_SNK: Byte := 0x0
  const ATTACHWAIT_SNK: Byte := 0x1
  const ATTACHED_SNK: Byte := 0x2
  const DEBUGACCESSORY_SNK: Byte := 0x3
  const TRY_SRC: Byte := 0xc0
  const UNATTACHED_ACCESSORY: Byte := 0xd0
  const ATTACHWAIT_ACCESSORY: Byte := 0xe0
  const TYPEC_ERRORRECOVERY: Byte := 0x13

  // MONITORING_CTRL_0
  const VBUS_SNK_DISC_THRESHOLD: Byte := 0x8
  const MONITORING_INT_THRES_BYP: Byte := 0x4
  const EXT_VBUS_HIGH: Byte := 0x2
  const EXT_VBUS_LOW: Byte := 0x1

  // PE_FSM: policy engine states.
  const PE_INIT: Byte := 0x0
  const PE_SOFT_RESET: Byte := 0x1
  const PE_HARD_RESET: Byte := 0x2
  const PE_SEND_SOFT_RESET: Byte := 0x3
  const PE_C_BIST: Byte := 0x4
  const PE_SNK_STARTUP: Byte := 0x12
  const PE_SNK_DISCOVERY: Byte := 0x13
  const PE_SNK_WAIT_FOR_CAPABILITIES: Byte := 0x14
  const PE_SNK_EVALUATE_CAPABILITIES: Byte := 0x15
  const PE_SNK_SELECT_CAPABILITIES: Byte := 0x16
  const PE_SNK_TRANSITION_SINK: Byte := 0x17
  const PE_SNK_READY: Byte := 0x18
  const PE_SNK_READY_SENDING: Byte := 0x19
  const PE_HARD_RESET_SHUTDOWN: Byte := 0x1a
  const PE_HARD_RESET_RECOVERY: Byte := 0x1b
  const PE_ERRORRECOVERY: Byte := 0x40

  /** The duplicated names: 0x4b..0x4e show the same text as the four addresses below them. */
  lemma DuplicateObjectNames(k: Byte)
    requires 0x4b <= k <= 0x4e
    ensures Lookup(k).Some? && Lookup(k) == Lookup(k - 4)
  {
    if k == 0x4b {
      assert Lookup(k - 4) == Some("RX_DATA_OBJ6_0: ");
    } else if k == 0x4c {
      assert Lookup(k - 4) == Some("RX_DATA_OBJ6_1: ");
    } else if k == 0x4d {
      assert Lookup(k - 4) == Some("RX_DATA_OBJ6_2: ");
    } else {
      assert Lookup(k - 4) == Some("RX_DATA_OBJ6_3: ");
    }
  }

  /** The control 0 sector table names the values 0..4 and no other. */
  lemma Control0SectorDomain(k: int)
    ensures k in DEC_CONTROL0_SECT <==> 0 <= k <= 4
  {
  }

  /** The control 1 opcode table is total over the 3-bit field. */
  lemma Control1OpcodeTotal(k: int)
    ensures k in DEC_CONTROL1_OPCODE <==> 0 <= k <= 7
  {
  }

  /** The control 1 sector table names zero and the five one-hot values. */
  lemma Control1SectorDomain(k: int)
    ensures k in DEC_CONTROL1_SECT <==> k in {0x00, 0x01, 0x02, 0x04, 0x08, 0x10}
  {
  }
}
