/**
 * The frame-assembly state machine of `Hla.decode` (HighLevelAnalyzer.py:294-517)
 * as a pure reference model: a decoder state, one step per input frame from
 * the I2C analyzer, and the output frame produced at each stop condition.
 * The class Analyzer.Hla is proved to follow `Step` exactly.
 */
module Machine {
  import opened Wrappers
  import opened Text
  import opened Catalog
  import opened Fields

  /** The working "hi2c" frame: its time span and the data fields it carries. */
  datatype Frame = Frame(startTime: int, endTime: int, address: string,
                         description: string, data: string, action: string, count: nat)
  {
    /** `add_action`: one more comma-separated action. */
    function AddAction(text: string): Frame { this.(action := Join(action, text)) }

    /** A run of `add_action` calls. */
    function AddActions(texts: seq<string>): Frame { this.(action := JoinAll(action, texts)) }

    function AppendAction(text: string): Frame { this.(action := action + text) }

    function AppendDescription(text: string): Frame { this.(description := description + text) }

    function AppendData(text: string): Frame { this.(data := data + text) }
  }

  /** The frame created when the first input frame of a transaction arrives. */
  function NewFrame(startTime: int, endTime: int): Frame
  {
    Frame(startTime, endTime, "error", "", "", "", 0)
  }

  /** The frames the analyzer emits, one per stop condition. */
  datatype Output =
    | Hi2c(frame: Frame)                                              // a write, or the response to a read request
    | Ping(startTime: int, endTime: int, address: string)             // an address-only transaction
    | Read(startTime: int, endTime: int, address: string, description: string)  // a register read request

  /** The input frame types of the I2C analyzer. */
  datatype EventKind = Start | Address(address: Byte) | Data(data: Byte) | Stop | Error

  datatype Event = Event(kind: EventKind, startTime: int, endTime: int)

  /** The name shown for a register: its catalog name, or "unknown". */
  function RegisterLabel(r: Option<Byte>): string
  {
    if r.Some? && Lookup(r.value).Some? then Lookup(r.value).value else "unknown"
  }

  /** The decoders `decode` dispatches to, and raw data for every other register. */
  datatype Decoder =
    | Passwd | Control0 | Control1 | PdoNumb | SinkPdo | PdCommand | TxHeaderLow
    | AlertMask | AlertStatus1 | TypecMonitoring0 | TypecMonitoring1 | CcFault0 | CcFault1
    | CcStatus | PdTypecStatus | PrtStatus | MonitoringCtrl0 | MonitoringCtrl2 | ResetCtrl
    | DischargeTime | DischargeCtrl | GpioSwGpio | PortStatus1 | TypecStatus | VbusCtrl
    | PeFsm | RdoStatus | RawData

  /** The register-to-decoder selection of `decode`, in its order. */
  function DecoderFor(r: Byte): Decoder
  {
    if r == FTP_CUST_PASSWORD_REG then Passwd
    else if r == FTP_CTRL_0 then Control0
    else if r == FTP_CTRL_1 then Control1
    else if r == DPM_PDO_NUMB then PdoNumb
    else if r == DPM_SNK_PDO1_0 then SinkPdo
    else if r == DPM_SNK_PDO2_0 then SinkPdo
    else if r == DPM_SNK_PDO3_0 then SinkPdo
    else if r == PD_COMMAND_CTRL then PdCommand
    else if r == TX_HEADER_LOW then TxHeaderLow
    else if r == ALERT_STATUS_1_MASK then AlertMask
    else if r == ALERT_STATUS_1 then AlertStatus1
    else if r == TYPEC_MONITORING_STATUS_0 then TypecMonitoring0
    else if r == TYPEC_MONITORING_STATUS_1 then TypecMonitoring1
    else if r == CC_HW_FAULT_STATUS_0 then CcFault0
    else if r == CC_HW_FAULT_STATUS_1 then CcFault1
    else if r == CC_STATUS then CcStatus
    else if r == PD_TYPEC_STATUS then PdTypecStatus
    else if r == PRT_STATUS then PrtStatus
    else if r == MONITORING_CTRL_0 then MonitoringCtrl0
    else if r == MONITORING_CTRL_2 then MonitoringCtrl2
    else if r == RESET_CTRL then ResetCtrl
    else if r == VBUS_DISCHARGE_TIME_CTRL then DischargeTime
    else if r == VBUS_DISCHARGE_CTRL then DischargeCtrl
    else if r == GPIO_SW_GPIO then GpioSwGpio
    else if r == PORT_STATUS_1 then PortStatus1
    else if r == TYPEC_STATUS then TypecStatus
    else if r == VBUS_CTRL then VbusCtrl
    else if r == PE_FSM then PeFsm
    else if r == RDO_REG_STATUS_0 then RdoStatus
    else RawData
  }

  /** The decoders that append a fixed list of action clauses for one byte. */
  function ActionClauses(d: Decoder, dataByte: Byte, b: Byte): seq<string>
  {
    match d
    case Passwd => [PasswdAction(dataByte)]
    case Control0 => Control0Actions(b)
    case Control1 => Control1Actions(b)
    case AlertMask => AlertMaskActions(b)
    case AlertStatus1 => AlertStatus1Actions(b)
    case TypecMonitoring0 => TypecMonitoringStatus0Actions(b)
    case TypecMonitoring1 => TypecMonitoringStatus1Actions(b)
    case CcFault0 => CcHwFaultStatus0Actions(b)
    case CcFault1 => CcHwFaultStatus1Actions(b)
    case CcStatus => CcStatusActions(b)
    case PdTypecStatus => [PdTypecStatusAction(b)]
    case PrtStatus => [PrtStatusAction(b)]
    case MonitoringCtrl0 => MonitoringCtrl0Actions(b)
    case MonitoringCtrl2 => MonitoringCtrl2Actions(b)
    case ResetCtrl => [ResetCtrlAction(b)]
    case DischargeCtrl => VbusDischargeCtrlActions(b)
    case GpioSwGpio => [GpioSwGpioAction(b)]
    case PortStatus1 => PortStatus1Actions(b)
    case TypecStatus => TypecStatusActions(b)
    case VbusCtrl => [VbusCtrlAction(b)]
    case _ => []
  }

  predicate IsActionDecoder(d: Decoder)
  {
    IsStatusDecoder(d) || IsControlDecoder(d)
  }

  /** Action-style decoders of registers the chip reports (alerts, status, monitoring). */
  predicate IsStatusDecoder(d: Decoder)
  {
    match d
    case AlertStatus1 | TypecMonitoring0 | TypecMonitoring1 | CcFault0 | CcFault1 | CcStatus
       | PdTypecStatus | PrtStatus | PortStatus1 | TypecStatus => true
    case _ => false
  }

  /** Action-style decoders of registers the host writes (controls, masks, password). */
  predicate IsControlDecoder(d: Decoder)
  {
    match d
    case Passwd | Control0 | Control1 | AlertMask | MonitoringCtrl0 | MonitoringCtrl2
       | ResetCtrl | DischargeCtrl | GpioSwGpio | VbusCtrl => true
    case _ => false
  }

  /** The description text of a completed PDO or RDO: voltage, then current. */
  function PowerText(current: nat -> string, v: nat): string
  {
    "voltage: " + VoltageText(VoltageField(v)) + ", current: " + current(CurrentField(v))
  }

  /** The fields of `Hla` (HighLevelAnalyzer.py:294-301). */
  datatype DecoderState = DecoderState(
    tempFrame: Option<Frame>,
    registerType: Option<Byte>,
    dataByte: Byte,
    maybeReading: bool,
    dataUnknown: bool,
    requestRegisterType: Option<Byte>,
    snkCount: nat,
    snkData: nat)
  {
    /**
     * What every reachable state satisfies: fewer than four bytes are pending
     * in the accumulator and they fit in that many bytes, and a pending read
     * request always names its register.
     */
    predicate Valid()
    {
      snkCount < 4 && snkData < Pow256(snkCount) && (maybeReading ==> requestRegisterType.Some?)
    }

    /** Between transactions: no working frame, no register, no data seen. */
    predicate Quiescent()
    {
      tempFrame.None? && registerType.None? && dataUnknown
    }

    predicate Framed() { tempFrame.Some? }

    /**
     * `r` has a working frame and differs from this state at most in that
     * frame and in `dataUnknown`: what an `add_*` helper may change.
     */
    predicate KeepsControl(r: DecoderState)
    {
      && r.Framed()
      && r.registerType == registerType && r.dataByte == dataByte
      && r.maybeReading == maybeReading && r.requestRegisterType == requestRegisterType
      && r.snkCount == snkCount && r.snkData == snkData
    }

    function Work(): Frame
      requires Framed()
    {
      tempFrame.value
    }

    function WithFrame(f: Frame): (r: DecoderState)
      ensures KeepsControl(r) && r.Work() == f && r.dataUnknown == dataUnknown
    {
      this.(tempFrame := Some(f))
    }

    /** `add_description`: a comma-separated description clause; data is now known. */
    function AddDescription(text: string): (s: DecoderState)
      requires Framed()
      ensures KeepsControl(s)
    {
      WithFrame(Work().(description := Join(Work().description, text))).(dataUnknown := false)
    }

    /** `add_register`: the register's name (or "unknown") as a description clause. */
    function AddRegister(r: Option<Byte>): (s: DecoderState)
      requires Framed()
      ensures KeepsControl(s)
    {
      AddDescription(RegisterLabel(r))
    }

    function AddActions(texts: seq<string>): (s: DecoderState)
      requires Framed()
      ensures KeepsControl(s)
    {
      WithFrame(Work().AddActions(texts))
    }

    function AppendDescription(text: string): (s: DecoderState)
      requires Framed()
      ensures KeepsControl(s)
    {
      WithFrame(Work().AppendDescription(text))
    }

    function AppendData(text: string): (s: DecoderState)
      requires Framed()
      ensures KeepsControl(s)
    {
      WithFrame(Work().AppendData(text))
    }

    function AddCount(n: nat): (s: DecoderState)
      requires Framed()
      ensures KeepsControl(s)
    {
      WithFrame(Work().(count := Work().count + n))
    }

    /** `add_databyte`: the raw byte, comma-separated, one more in the count, and "data only". */
    function AddDatabyte(): (s: DecoderState)
      requires Framed()
      ensures KeepsControl(s)
    {
      WithFrame(Work().(count := Work().count + 1,
                        data := Join(Work().data, Hex(dataByte as nat)),
                        description := Work().description + "data only"))
    }

    /** The accumulator step shared by the PDO and RDO decoders: byte k lands at 256^k. */
    function SinkAccumulate(b: Byte): DecoderState
    {
      if snkCount < 4 then this.(snkData := snkData + b as nat * Pow256(snkCount), snkCount := snkCount + 1)
      else this
    }

    function SinkReset(): DecoderState { this.(snkCount := 0, snkData := 0) }

    /** A completed PDO or RDO: register name, voltage and current, four more bytes, the value in hex. */
    function SinkShow(current: nat -> string): (s: DecoderState)
      requires Framed()
      ensures KeepsControl(s)
    {
      AddRegister(registerType).AppendDescription(PowerText(current, snkData)).AddCount(4).AppendData(Hex(snkData))
    }

    /** `decode_snk0`: accumulate; on the fourth byte show voltage and current. */
    function SinkPdoByte(current: nat -> string, b: Byte): (s: DecoderState)
      requires Framed()
      ensures s.Framed()
    {
      var s := SinkAccumulate(b);
      if s.snkCount == 4 then s.SinkShow(current).SinkReset() else s
    }

    /** `decode_RDO_REG_STATUS_0`: as a PDO, plus the object position and flags as actions. */
    function RdoByte(current: nat -> string, b: Byte): (s: DecoderState)
      requires Framed()
      ensures s.Framed()
    {
      var s := SinkAccumulate(b);
      if s.snkCount == 4 then s.SinkShow(current).AddActions(RdoActions(s.snkData)).SinkReset() else s
    }

    /** One call of the decoder `d` on byte `b`. */
    function ApplyDecoder(current: nat -> string, d: Decoder, b: Byte): (s: DecoderState)
      requires Framed()
      ensures s.Framed()
      ensures d != SinkPdo && d != RdoStatus ==> KeepsControl(s)
    {
      match d
      case SinkPdo => SinkPdoByte(current, b)
      case RdoStatus => RdoByte(current, b)
      case PdoNumb => PdoNumbDecoder(b)
      case PdCommand => DescriptionTextDecoder(PdCommandText(b), b)
      case TxHeaderLow => DescriptionTextDecoder(TxHeaderLowText(b), b)
      case DischargeTime => DischargeTimeDecoder(b)
      case PeFsm => PeFsmDecoder(b)
      case RawData => AddDatabyte()
      case _ => ActionDecoder(ActionClauses(d, dataByte, b), b)
    }

    /** The common decoder shape: register name, action clauses, then the byte in hex. */
    function ActionDecoder(actions: seq<string>, b: Byte): (s: DecoderState)
      requires Framed()
      ensures KeepsControl(s)
    {
      AddRegister(registerType).AddActions(actions).AppendData(Hex(b as nat))
    }

    /** `decode_DPM_PDO_NUMB`: register name, then the 3-bit PDO number in hex. */
    function PdoNumbDecoder(b: Byte): (s: DecoderState)
      requires Framed()
      ensures KeepsControl(s)
    {
      AddRegister(registerType).AppendData(Hex((b & 0x07) as nat))
    }

    /** `decode_PD_COMMAND_CTRL`, `decode_TX_HEADER_LOW`: the text joins the name without a separator. */
    function DescriptionTextDecoder(text: string, b: Byte): (s: DecoderState)
      requires Framed()
      ensures KeepsControl(s)
    {
      AddRegister(registerType).AppendDescription(text).AppendData(Hex(b as nat))
    }

    /** `decode_VBUS_DISCHARGE_TIME_CTRL` */
    function DischargeTimeDecoder(b: Byte): (s: DecoderState)
      requires Framed()
      ensures KeepsControl(s)
    {
      var s := AddRegister(registerType);
      s.WithFrame(s.Work().(action := DischargeTimeAction(s.Work().action, b))).AppendData(Hex(b as nat))
    }

    /** `decode_PE_FSM`: the state is a second description clause. */
    function PeFsmDecoder(b: Byte): (s: DecoderState)
      requires Framed()
      ensures KeepsControl(s)
    {
      AddRegister(registerType).AddDescription(PeFsmState(b)).AppendData(Hex(b as nat))
    }

    /** What the data branch of `decode` does with byte `b`. */
    function OnData(current: nat -> string, b: Byte): (s: DecoderState)
      requires Framed()
      ensures s.Framed()
    {
      var s1 := this.(dataByte := b);
      var s2 := if s1.maybeReading then s1.(registerType := s1.requestRegisterType) else s1;
      if s2.registerType.None? then s2.(registerType := Some(b))
      else s2.ApplyDecoder(current, DecoderFor(s2.registerType.value), b)
    }

    /** The reset at the end of every stop branch. */
    function EndTransaction(): DecoderState
    {
      this.(dataUnknown := true, tempFrame := None, registerType := None)
    }

    /** What the stop branch of `decode` does, and the frame it returns. */
    function OnStop(endTime: int): (DecoderState, Output)
      requires Framed()
    {
      var f := Work().(endTime := endTime);
      if maybeReading then
        var s := WithFrame(f.(description := "")).AddDescription("Responds:").AddDescription(f.description);
        (s.(maybeReading := false).EndTransaction(), Hi2c(s.Work()))
      else if dataUnknown then
        if registerType.None? then
          (WithFrame(f).EndTransaction(), Ping(f.startTime, endTime, f.address))
        else
          var s := WithFrame(f).AddDescription("Obtain ").AddRegister(registerType);
          (s.(requestRegisterType := registerType, maybeReading := true).EndTransaction(),
           Read(f.startTime, endTime, f.address, s.Work().description))
      else
        (WithFrame(f).(maybeReading := false).EndTransaction(), Hi2c(f))
    }
  }

  /** The fields' initial values. */
  const Initial: DecoderState := DecoderState(None, None, 0, false, true, None, 0, 0)

  /** One call of `decode` on an input frame: the new state and the frame returned, if any. */
  function Step(current: nat -> string, s: DecoderState, ev: Event): (DecoderState, Option<Output>)
  {
    var s0 := if s.tempFrame.None? then s.WithFrame(NewFrame(ev.startTime, ev.endTime)) else s;
    match ev.kind
    case Start => (s0, None)
    case Error => (s0.WithFrame(s0.Work().(description := "error")), None)
    case Address(a) => (s0.WithFrame(s0.Work().(address := Hex(a as nat))), None)
    case Data(b) => (s0.OnData(current, b), None)
    case Stop =>
      var (s1, out) := s0.OnStop(ev.endTime);
      (s1, Some(out))
  }

  /** A sequence of `decode` calls: the final state and the frames returned, in order. */
  function Run(current: nat -> string, s: DecoderState, evs: seq<Event>): (DecoderState, seq<Output>)
    decreases |evs|
  {
    if evs == [] then (s, [])
    else
      var (s1, out) := Step(current, s, evs[0]);
      var (s2, outs) := Run(current, s1, evs[1..]);
      (s2, (if out.Some? then [out.value] else []) + outs)
  }

  function CountStops(evs: seq<Event>): nat
    decreases |evs|
  {
    if evs == [] then 0 else (if evs[0].kind.Stop? then 1 else 0) + CountStops(evs[1..])
  }

  // ================================================================= lemmas

  lemma MulMonotone(a: nat, b: nat, p: nat)
    requires a <= b
    ensures a * p <= b * p
  {
  }

  /** An accumulator step on a valid accumulator keeps the value within the bytes received. */
  lemma SinkAccumulateBound(s: DecoderState, b: Byte)
    requires s.snkCount < 4 && s.snkData < Pow256(s.snkCount)
    ensures s.SinkAccumulate(b).snkCount == s.snkCount + 1
    ensures s.SinkAccumulate(b).snkData < Pow256(s.snkCount + 1)
  {
    var p := Pow256(s.snkCount);
    MulMonotone(b as nat, 255, p);
  }

  /** A decoder only touches the working frame and the accumulator, and keeps the accumulator valid. */
  lemma ApplyDecoderKeeps(current: nat -> string, s: DecoderState, d: Decoder, b: Byte)
    requires s.Framed()
    ensures s.ApplyDecoder(current, d, b).Framed()
    ensures s.ApplyDecoder(current, d, b).registerType == s.registerType
    ensures s.ApplyDecoder(current, d, b).dataByte == s.dataByte
    ensures s.ApplyDecoder(current, d, b).maybeReading == s.maybeReading
    ensures s.ApplyDecoder(current, d, b).requestRegisterType == s.requestRegisterType
    ensures s.Valid() ==> s.ApplyDecoder(current, d, b).Valid()
  {
    var t := s.ApplyDecoder(current, d, b);
    if d == SinkPdo {
      SinkKeeps(current, s, b);
      assert t == s.SinkPdoByte(current, b);
    } else if d == RdoStatus {
      SinkKeeps(current, s, b);
      assert t == s.RdoByte(current, b);
    } else {
      assert s.KeepsControl(t);
    }
  }

  lemma SinkKeeps(current: nat -> string, s: DecoderState, b: Byte)
    requires s.Framed()
    ensures s.SinkPdoByte(current, b).Framed() && s.RdoByte(current, b).Framed()
    ensures s.SinkPdoByte(current, b).registerType == s.registerType
    ensures s.RdoByte(current, b).registerType == s.registerType
    ensures s.SinkPdoByte(current, b).dataByte == s.dataByte
    ensures s.RdoByte(current, b).dataByte == s.dataByte
    ensures s.SinkPdoByte(current, b).maybeReading == s.maybeReading
    ensures s.RdoByte(current, b).maybeReading == s.maybeReading
    ensures s.SinkPdoByte(current, b).requestRegisterType == s.requestRegisterType
    ensures s.RdoByte(current, b).requestRegisterType == s.requestRegisterType
    ensures s.Valid() ==> s.SinkPdoByte(current, b).Valid()
    ensures s.Valid() ==> s.RdoByte(current, b).Valid()
  {
    if s.Valid() {
      SinkAccumulateBound(s, b);
    }
  }

  /** Every call of `decode` keeps the state valid. */
  lemma StepPreservesValid(current: nat -> string, s: DecoderState, ev: Event)
    requires s.Valid()
    ensures Step(current, s, ev).0.Valid()
  {
    var s0 := if s.tempFrame.None? then s.WithFrame(NewFrame(ev.startTime, ev.endTime)) else s;
    if ev.kind.Data? {
      OnDataValid(current, s0, ev.kind.data);
      assert Step(current, s, ev).0 == s0.OnData(current, ev.kind.data);
    } else if ev.kind.Stop? {
      OnStopValid(s0, ev.endTime);
      assert Step(current, s, ev).0 == s0.OnStop(ev.endTime).0;
    }
  }

  /** The stop branch keeps the state valid: a pending read always names its register. */
  lemma OnStopValid(s: DecoderState, endTime: int)
    requires s.Framed() && s.Valid()
    ensures s.OnStop(endTime).0.Valid()
  {
  }

  /** The data branch keeps the state valid: the accumulator only grows below its four bytes. */
  lemma OnDataValid(current: nat -> string, s: DecoderState, b: Byte)
    requires s.Framed() && s.Valid()
    ensures s.OnData(current, b).Valid()
  {
    var s1 := s.(dataByte := b);
    var s2 := if s1.maybeReading then s1.(registerType := s1.requestRegisterType) else s1;
    if s2.registerType.Some? {
      ApplyDecoderKeeps(current, s2, DecoderFor(s2.registerType.value), b);
    }
  }

  /**
   * `decode` returns a frame exactly on a stop; after a stop the next
   * transaction starts afresh, and a read request is pending exactly when a
   * read request was returned.
   */
  lemma StepOutput(current: nat -> string, s: DecoderState, ev: Event)
    ensures Step(current, s, ev).1.Some? <==> ev.kind.Stop?
    ensures !ev.kind.Stop? ==> Step(current, s, ev).0.Framed()
    ensures ev.kind.Stop? ==>
      var (t, out) := Step(current, s, ev);
      t.Quiescent() && (t.maybeReading <==> out.value.Read?)
  {
    var s0 := if s.tempFrame.None? then s.WithFrame(NewFrame(ev.startTime, ev.endTime)) else s;
    if ev.kind.Data? {
      var s1 := s0.(dataByte := ev.kind.data);
      var s2 := if s1.maybeReading then s1.(registerType := s1.requestRegisterType) else s1;
      if s2.registerType.Some? {
        ApplyDecoderKeeps(current, s2, DecoderFor(s2.registerType.value), ev.kind.data);
      }
    }
  }

  /** A run returns one frame per stop condition, in order, and nothing else. */
  lemma {:induction false} RunOutputCount(current: nat -> string, s: DecoderState, evs: seq<Event>)
    ensures |Run(current, s, evs).1| == CountStops(evs)
    decreases |evs|
  {
    if evs != [] {
      StepOutput(current, s, evs[0]);
      RunOutputCount(current, Step(current, s, evs[0]).0, evs[1..]);
    }
  }

  /** Starting from the initial fields, every state a run reaches is valid. */
  lemma {:induction false} RunPreservesValid(current: nat -> string, s: DecoderState, evs: seq<Event>)
    requires s.Valid()
    ensures Run(current, s, evs).0.Valid()
    decreases |evs|
  {
    if evs != [] {
      StepPreservesValid(current, s, evs[0]);
      RunPreservesValid(current, Step(current, s, evs[0]).0, evs[1..]);
    }
  }

  lemma InitialState()
    ensures Initial.Valid() && Initial.Quiescent() && !Initial.maybeReading
  {
  }

  // ------------------------------------------------------- whole transactions

  /** The data frames of a transaction. */
  function DataEvents(bytes: seq<Byte>, t0: int, t1: int): seq<Event>
    decreases |bytes|
  {
    if bytes == [] then [] else [Event(Data(bytes[0]), t0, t1)] + DataEvents(bytes[1..], t0, t1)
  }

  /** The input frames of one I2C transaction: start, address, the data bytes, stop. */
  function Transaction(address: Byte, bytes: seq<Byte>, t0: int, t1: int): seq<Event>
  {
    [Event(Start, t0, t0), Event(Address(address), t0, t1)] + DataEvents(bytes, t0, t1) + [Event(Stop, t1, t1)]
  }

  /** The data branch of `decode`, once per byte. */
  function Feed(current: nat -> string, s: DecoderState, bytes: seq<Byte>): (r: DecoderState)
    requires s.Framed()
    ensures r.Framed()
    decreases |bytes|
  {
    if bytes == [] then s else Feed(current, s.OnData(current, bytes[0]), bytes[1..])
  }

  /** The working frame after the start and address frames. */
  function Opened(s: DecoderState, a: Byte, t0: int): DecoderState
  {
    s.WithFrame(Frame(t0, t0, Hex(a as nat), "", "", "", 0))
  }

  /** No transaction in progress and no read request pending. */
  predicate Idle(s: DecoderState)
  {
    s.Quiescent() && !s.maybeReading
  }

  /** The frames a single `decode` call returns, as a sequence. */
  function Returned(out: Option<Output>): seq<Output>
  {
    if out.Some? then [out.value] else []
  }

  lemma RunCons(current: nat -> string, s: DecoderState, e: Event, rest: seq<Event>)
    ensures Run(current, s, [e] + rest)
         == (Run(current, Step(current, s, e).0, rest).0,
             Returned(Step(current, s, e).1) + Run(current, Step(current, s, e).0, rest).1)
  {
    assert ([e] + rest)[1..] == rest;
  }

  /** With a working frame, a data frame goes to the data branch and returns nothing. */
  lemma StepData(current: nat -> string, s: DecoderState, e: Event)
    requires s.Framed() && e.kind.Data?
    ensures Step(current, s, e) == (s.OnData(current, e.kind.data), None)
  {
  }

  /** With a working frame, a stop frame goes to the stop branch and returns its frame. */
  lemma StepStop(current: nat -> string, s: DecoderState, e: Event)
    requires s.Framed() && e.kind.Stop?
    ensures Step(current, s, e) == (s.OnStop(e.endTime).0, Some(s.OnStop(e.endTime).1))
  {
  }

  /** Data frames return nothing and feed their bytes to the data branch. */
  lemma {:induction false} RunData(current: nat -> string, s: DecoderState, bytes: seq<Byte>, t0: int, t1: int, rest: seq<Event>)
    requires s.Framed()
    ensures Run(current, s, DataEvents(bytes, t0, t1) + rest) == Run(current, Feed(current, s, bytes), rest)
    decreases |bytes|
  {
    if bytes == [] {
      assert DataEvents(bytes, t0, t1) + rest == rest;
    } else {
      var e := Event(Data(bytes[0]), t0, t1);
      assert DataEvents(bytes, t0, t1) + rest == [e] + (DataEvents(bytes[1..], t0, t1) + rest);
      RunCons(current, s, e, DataEvents(bytes[1..], t0, t1) + rest);
      StepData(current, s, e);
      var s1 := s.OnData(current, bytes[0]);
      var tail := Run(current, s1, DataEvents(bytes[1..], t0, t1) + rest);
      assert Returned(None) + tail.1 == tail.1;
      RunData(current, s1, bytes[1..], t0, t1, rest);
      assert Feed(current, s, bytes) == Feed(current, s1, bytes[1..]);
    }
  }

  /**
   * A transaction returns exactly one frame, at its stop: the stop branch
   * applied to the working frame after the address and every data byte.
   */
  lemma TransactionRun(current: nat -> string, s: DecoderState, a: Byte, bytes: seq<Byte>, t0: int, t1: int)
    requires s.tempFrame.None?
    ensures Run(current, s, Transaction(a, bytes, t0, t1))
         == (Feed(current, Opened(s, a, t0), bytes).OnStop(t1).0, [Feed(current, Opened(s, a, t0), bytes).OnStop(t1).1])
  {
    var e2 := Event(Stop, t1, t1);
    var data := DataEvents(bytes, t0, t1);
    assert Transaction(a, bytes, t0, t1) == [Event(Start, t0, t0)] + ([Event(Address(a), t0, t1)] + (data + [e2]));
    TransactionOpens(current, s, a, t0, t1, data + [e2]);
    RunData(current, Opened(s, a, t0), bytes, t0, t1, [e2]);
    var f := Feed(current, Opened(s, a, t0), bytes);
    RunCons(current, f, e2, []);
    StepStop(current, f, e2);
    assert Run(current, f.OnStop(t1).0, []) == (f.OnStop(t1).0, []);
    assert Returned(Some(f.OnStop(t1).1)) + [] == [f.OnStop(t1).1];
    assert [e2] + [] == [e2];
  }

  /** The start and address frames of a transaction open the working frame and return nothing. */
  lemma TransactionOpens(current: nat -> string, s: DecoderState, a: Byte, t0: int, t1: int, rest: seq<Event>)
    requires s.tempFrame.None?
    ensures Run(current, s, [Event(Start, t0, t0)] + ([Event(Address(a), t0, t1)] + rest))
         == Run(current, Opened(s, a, t0), rest)
  {
    var e0, e1 := Event(Start, t0, t0), Event(Address(a), t0, t1);
    var s1 := Step(current, s, e0).0;
    RunCons(current, s, e0, [e1] + rest);
    RunCons(current, s1, e1, rest);
    assert Step(current, s1, e1).0 == Opened(s, a, t0);
    assert Step(current, s, e0) == (s.WithFrame(NewFrame(t0, t0)), None);
    assert Returned(None) + Run(current, s1, [e1] + rest).1 == Run(current, s1, [e1] + rest).1;
    assert Returned(None) + Run(current, Opened(s, a, t0), rest).1 == Run(current, Opened(s, a, t0), rest).1;
  }

  /** An address-only transaction after an ordinary one is a ping of that address. */
  lemma PingWhenIdle(current: nat -> string, s: DecoderState, a: Byte, t0: int, t1: int)
    requires Idle(s)
    ensures var (t, outs) := Run(current, s, Transaction(a, [], t0, t1));
      outs == [Ping(t0, t1, Hex(a as nat))] && Idle(t) && t.snkCount == s.snkCount && t.snkData == s.snkData
  {
    TransactionRun(current, s, a, [], t0, t1);
  }

  /**
   * An address-only transaction while a read request is pending is taken as
   * the (empty) response, not as a ping.
   */
  lemma AddressOnlyWhilePending(current: nat -> string, s: DecoderState, a: Byte, t0: int, t1: int)
    requires s.Quiescent() && s.maybeReading
    ensures var (t, outs) := Run(current, s, Transaction(a, [], t0, t1));
      outs == [Hi2c(Frame(t0, t1, Hex(a as nat), "Responds:, ", "", "", 0))] && Idle(t)
  {
    TransactionRun(current, s, a, [], t0, t1);
    assert Join(Join("", "Responds:"), "") == "Responds:, ";
  }

  /** A single byte after the address is a read request for that register, left pending. */
  lemma ReadRequestWhenIdle(current: nat -> string, s: DecoderState, a: Byte, r: Byte, t0: int, t1: int)
    requires Idle(s)
    ensures var (t, outs) := Run(current, s, Transaction(a, [r], t0, t1));
      && outs == [Read(t0, t1, Hex(a as nat), "Obtain , " + RegisterLabel(Some(r)))]
      && t.Quiescent() && t.maybeReading && t.requestRegisterType == Some(r)
  {
    TransactionRun(current, s, a, [r], t0, t1);
    var o := Opened(s, a, t0);
    assert Feed(current, o, [r]) == o.OnData(current, r).(registerType := Some(r)) by {
      assert Feed(current, o, [r]) == Feed(current, o.OnData(current, r), []);
    }
    assert Join(Join("", "Obtain "), RegisterLabel(Some(r))) == "Obtain , " + RegisterLabel(Some(r));
  }

  // --------------------------------------------------------- the stop branch

  /** Stop with a read request pending: the frame is the response, "Responds:" first. */
  lemma StopResponds(s: DecoderState, t1: int)
    requires s.Framed() && s.maybeReading
    ensures var (t, out) := s.OnStop(t1);
      && out == Hi2c(s.Work().(endTime := t1, description := Join("Responds:", s.Work().description)))
      && t.Quiescent() && !t.maybeReading
  {
  }

  /** Stop with no data known and no register: a ping of the address. */
  lemma StopPing(s: DecoderState, t1: int)
    requires s.Framed() && !s.maybeReading && s.dataUnknown && s.registerType.None?
    ensures var (t, out) := s.OnStop(t1);
      && out == Ping(s.Work().startTime, t1, s.Work().address)
      && t.Quiescent() && !t.maybeReading
  {
  }

  /** Stop with a register but no decoded data: a read request, left pending. */
  lemma StopReadRequest(s: DecoderState, t1: int)
    requires s.Framed() && !s.maybeReading && s.dataUnknown && s.registerType.Some?
    ensures var (t, out) := s.OnStop(t1);
      && out == Read(s.Work().startTime, t1, s.Work().address,
                     Join(Join(s.Work().description, "Obtain "), RegisterLabel(s.registerType)))
      && t.Quiescent() && t.maybeReading && t.requestRegisterType == s.registerType
  {
  }

  /** Stop after decoded data: the frame itself, a write. */
  lemma StopWrite(s: DecoderState, t1: int)
    requires s.Framed() && !s.maybeReading && !s.dataUnknown
    ensures var (t, out) := s.OnStop(t1);
      && out == Hi2c(s.Work().(endTime := t1))
      && t.Quiescent() && !t.maybeReading
  {
  }

  /**
   * Every stop leaves the accumulator and the last data byte alone; the
   * requested register changes only when a read request is recorded.
   */
  lemma StopKeepsAccumulator(s: DecoderState, t1: int)
    requires s.Framed()
    ensures var t := s.OnStop(t1).0;
      && t.snkCount == s.snkCount && t.snkData == s.snkData && t.dataByte == s.dataByte
      && t.tempFrame.None? && t.registerType.None? && t.dataUnknown
      && (t.requestRegisterType != s.requestRegisterType ==>
            !s.maybeReading && s.dataUnknown && s.registerType.Some? && t.requestRegisterType == s.registerType)
  {
  }

  /** Only `add_description` (and `add_register`, which calls it) marks the data as known. */
  lemma OnlyDescriptionKnowsData(s: DecoderState, text: string, texts: seq<string>, r: Option<Byte>)
    requires s.Framed()
    ensures !s.AddDescription(text).dataUnknown && !s.AddRegister(r).dataUnknown
    ensures s.AddDatabyte().dataUnknown == s.dataUnknown
    ensures s.AddActions(texts).dataUnknown == s.dataUnknown
    ensures s.AppendDescription(text).dataUnknown == s.dataUnknown
    ensures s.AppendData(text).dataUnknown == s.dataUnknown
  {
  }

  /** `add_register` shows the catalog name of the register, or "unknown" when it has none. */
  lemma AddRegisterNames(s: DecoderState, r: Option<Byte>)
    requires s.Framed()
    ensures r.Some? && Lookup(r.value).Some? ==>
      s.AddRegister(r).Work().description == Join(s.Work().description, Lookup(r.value).value)
    ensures r.None? || Lookup(r.value).None? ==>
      s.AddRegister(r).Work().description == Join(s.Work().description, "unknown")
    ensures s.AddRegister(r).Work().action == s.Work().action && s.AddRegister(r).Work().data == s.Work().data
  {
  }

  /** `add_databyte`: one more byte, its hex text as a data clause, and "data only" in the description. */
  lemma AddDatabyteShows(s: DecoderState)
    requires s.Framed()
    ensures var t := s.AddDatabyte().Work();
      && t.count == s.Work().count + 1
      && t.data == Join(s.Work().data, Hex(s.dataByte as nat))
      && t.description == s.Work().description + "data only"
      && t.action == s.Work().action && t.address == s.Work().address
  {
  }

  /** `decode_DPM_PDO_NUMB`: the register label, then the 3-bit PDO number in hex as data; actions untouched. */
  lemma PdoNumbShows(s: DecoderState, b: Byte)
    requires s.Framed()
    ensures var t := s.PdoNumbDecoder(b).Work();
      && t.description == Join(s.Work().description, RegisterLabel(s.registerType))
      && t.data == s.Work().data + Hex((b & 0x07) as nat)
      && t.action == s.Work().action && t.count == s.Work().count && t.address == s.Work().address
    ensures !s.PdoNumbDecoder(b).dataUnknown
  {
  }

  /**
   * An error frame overwrites the description with "error" and returns nothing;
   * the rest of an existing frame is kept, and without one a fresh frame is made.
   */
  lemma StepErrorMarks(current: nat -> string, s: DecoderState, ev: Event)
    requires ev.kind == Error
    ensures var (s1, out) := Step(current, s, ev);
      && out.None? && s1.Framed() && s1.Work().description == "error"
      && s1.registerType == s.registerType && s1.dataUnknown == s.dataUnknown
      && s1.snkCount == s.snkCount && s1.snkData == s.snkData
    ensures var s1 := Step(current, s, ev).0;
      s.Framed() ==> s1.Work().(description := s.Work().description) == s.Work()
    ensures var s1 := Step(current, s, ev).0;
      !s.Framed() ==> s1.Work() == NewFrame(ev.startTime, ev.endTime).(description := "error")
  {
  }

  lemma FeedOne(current: nat -> string, s: DecoderState, b: Byte)
    requires s.Framed()
    ensures Feed(current, s, [b]) == s.OnData(current, b)
  {
    assert Feed(current, s, [b]) == Feed(current, s.OnData(current, b), []);
  }

  lemma FeedTwo(current: nat -> string, s: DecoderState, b0: Byte, b1: Byte)
    requires s.Framed()
    ensures Feed(current, s, [b0, b1]) == s.OnData(current, b0).OnData(current, b1)
  {
    assert Feed(current, s, [b0, b1]) == Feed(current, s.OnData(current, b0), [b1]);
    FeedOne(current, s.OnData(current, b0), b1);
  }

  /** A data byte with no register known yet names the register. */
  lemma DataNamesRegister(current: nat -> string, s: DecoderState, b: Byte)
    requires s.Framed() && !s.maybeReading && s.registerType.None?
    ensures s.OnData(current, b) == s.(dataByte := b, registerType := Some(b))
  {
  }

  /** A data byte with a register known (or a read pending) goes to that register's decoder. */
  lemma DataDecoded(current: nat -> string, s: DecoderState, r: Byte, b: Byte)
    requires s.Framed()
    requires s.maybeReading ==> s.requestRegisterType == Some(r)
    requires !s.maybeReading ==> s.registerType == Some(r)
    ensures s.OnData(current, b) == s.(dataByte := b, registerType := Some(r)).ApplyDecoder(current, DecoderFor(r), b)
  {
  }

  /** An action-style decoder: register name, its clauses, then the byte in hex. */
  lemma ActionDecoderStep(current: nat -> string, s: DecoderState, d: Decoder, b: Byte)
    requires s.Framed() && IsActionDecoder(d)
    ensures s.ApplyDecoder(current, d, b) == s.ActionDecoder(ActionClauses(d, s.dataByte, b), b)
  {
  }

  /** The working frame after an action-style decoder on a fresh frame. */
  lemma ActionDecoderOnFresh(current: nat -> string, o: DecoderState, r: Byte, b: Byte)
    requires o.Framed() && o.Work().description == "" && o.Work().action == "" && o.Work().data == ""
    requires o.registerType == Some(r) && o.dataByte == b && IsActionDecoder(DecoderFor(r))
    ensures var t := o.ApplyDecoder(current, DecoderFor(r), b);
      && t.Work() == o.Work().(description := RegisterLabel(Some(r)), data := Hex(b as nat),
                               action := JoinAll("", ActionClauses(DecoderFor(r), b, b)))
      && !t.dataUnknown
  {
    ActionDecoderStep(current, o, DecoderFor(r), b);
  }

  /** The working frame after one byte for an action-decoded register arrives on a fresh frame. */
  lemma ActionByteOnFresh(current: nat -> string, o: DecoderState, r: Byte, b: Byte)
    requires o.Framed() && o.Work().description == "" && o.Work().action == "" && o.Work().data == ""
    requires o.maybeReading ==> o.requestRegisterType == Some(r)
    requires !o.maybeReading ==> o.registerType == Some(r)
    requires IsActionDecoder(DecoderFor(r))
    ensures var t := o.OnData(current, b);
      && t.Work() == o.Work().(description := RegisterLabel(Some(r)), data := Hex(b as nat),
                               action := JoinAll("", ActionClauses(DecoderFor(r), b, b)))
      && !t.dataUnknown && t.maybeReading == o.maybeReading
  {
    DataDecoded(current, o, r, b);
    var x := o.(dataByte := b, registerType := Some(r));
    ActionDecoderOnFresh(current, x, r, b);
  }

  /**
   * The transaction after a read request is decoded with the requested
   * register: a one-byte response to an action-decoded register shows that
   * register's name and clauses.
   */
  lemma ResponseUsesRequestedRegister(current: nat -> string, s: DecoderState, r: Byte, a: Byte, b: Byte, t0: int, t1: int)
    requires s.Quiescent() && s.maybeReading && s.requestRegisterType == Some(r)
    requires IsActionDecoder(DecoderFor(r))
    ensures var (t, outs) := Run(current, s, Transaction(a, [b], t0, t1));
      && outs == [Hi2c(Frame(t0, t1, Hex(a as nat), "Responds:, " + RegisterLabel(Some(r)), Hex(b as nat),
                             JoinAll("", ActionClauses(DecoderFor(r), b, b)), 0))]
      && Idle(t)
  {
    TransactionRun(current, s, a, [b], t0, t1);
    var o := Opened(s, a, t0);
    FeedOne(current, o, b);
    ActionByteOnFresh(current, o, r, b);
    StopResponds(o.OnData(current, b), t1);
    ResponseText(RegisterLabel(Some(r)));
  }

  lemma ResponseText(name: string)
    ensures Join("Responds:", name) == "Responds:, " + name
  {
  }

  /** A register byte and one data byte to an action-decoded register is a decoded write. */
  lemma WriteDecoded(current: nat -> string, s: DecoderState, a: Byte, r: Byte, b: Byte, t0: int, t1: int)
    requires Idle(s)
    requires IsActionDecoder(DecoderFor(r))
    ensures var (t, outs) := Run(current, s, Transaction(a, [r, b], t0, t1));
      && outs == [Hi2c(Frame(t0, t1, Hex(a as nat), RegisterLabel(Some(r)), Hex(b as nat),
                             JoinAll("", ActionClauses(DecoderFor(r), b, b)), 0))]
      && Idle(t)
  {
    TransactionRun(current, s, a, [r, b], t0, t1);
    var o := Opened(s, a, t0);
    FeedTwo(current, o, r, b);
    DataNamesRegister(current, o, r);
    var o1 := o.(dataByte := r, registerType := Some(r));
    ActionByteOnFresh(current, o1, r, b);
    StopWrite(o1.OnData(current, b), t1);
  }

  /**
   * Raw data never clears "data unknown", so a write of one byte to a register
   * without a decoder is reported as a read request, its data is not shown,
   * and a read request is left pending.
   */
  lemma RawWriteBecomesReadRequest(current: nat -> string, s: DecoderState, a: Byte, r: Byte, b: Byte, t0: int, t1: int)
    requires Idle(s)
    requires DecoderFor(r) == RawData
    ensures var (t, outs) := Run(current, s, Transaction(a, [r, b], t0, t1));
      && outs == [Read(t0, t1, Hex(a as nat), "data only, Obtain , " + RegisterLabel(Some(r)))]
      && t.Quiescent() && t.maybeReading && t.requestRegisterType == Some(r)
  {
    TransactionRun(current, s, a, [r, b], t0, t1);
    var o := Opened(s, a, t0);
    FeedTwo(current, o, r, b);
    DataNamesRegister(current, o, r);
    var o1 := o.(dataByte := r, registerType := Some(r));
    RawByte(current, o1, r, b);
    StopReadRequest(o1.OnData(current, b), t1);
    RawRequestText(RegisterLabel(Some(r)));
  }

  lemma RawRequestText(name: string)
    ensures Join(Join("data only", "Obtain "), name) == "data only, Obtain , " + name
  {
    assert Join("data only", "Obtain ") == "data only, Obtain ";
  }

  /** A byte for a register without a decoder, on a fresh frame: "data only", still unknown. */
  lemma RawByte(current: nat -> string, o: DecoderState, r: Byte, b: Byte)
    requires o.Framed() && o.Work().description == "" && !o.maybeReading && o.dataUnknown
    requires o.registerType == Some(r) && DecoderFor(r) == RawData
    ensures var t := o.OnData(current, b);
      && t.Framed() && t.Work().description == "data only" && t.dataUnknown
      && !t.maybeReading && t.registerType == Some(r)
      && t.Work().startTime == o.Work().startTime && t.Work().address == o.Work().address
  {
    DataDecoded(current, o, r, b);
  }

  // ------------------------------------------------------ PDO / RDO values

  /** The data branch stays on register `r` for every byte of the transaction. */
  predicate RoutedTo(s: DecoderState, r: Byte)
  {
    s.Framed()
    && (s.maybeReading ==> s.requestRegisterType == Some(r))
    && (!s.maybeReading ==> s.registerType == Some(r))
  }

  /** One of the first three bytes only accumulates: the frame is untouched. */
  lemma SinkByteEarly(current: nat -> string, s: DecoderState, r: Byte, b: Byte)
    requires RoutedTo(s, r) && (DecoderFor(r) == SinkPdo || DecoderFor(r) == RdoStatus) && s.snkCount < 3
    ensures var t := s.OnData(current, b);
      && t == s.(dataByte := b, registerType := Some(r),
                 snkData := s.snkData + b as nat * Pow256(s.snkCount), snkCount := s.snkCount + 1)
      && RoutedTo(t, r)
  {
    DataDecoded(current, s, r, b);
  }

  /** The frame after the fourth PDO byte, worked out one helper at a time. */
  lemma SinkCompleted(current: nat -> string, x: DecoderState, b: Byte, v: nat)
    requires x.Framed() && x.snkCount == 3 && v == x.snkData + b as nat * 0x100_0000
    ensures var w := x.Work().(description := Join(x.Work().description, RegisterLabel(x.registerType)) + PowerText(current, v),
                               data := x.Work().data + Hex(v), count := x.Work().count + 4);
      && x.SinkPdoByte(current, b) == x.WithFrame(w).(dataUnknown := false, snkCount := 0, snkData := 0)
      && x.RdoByte(current, b) == x.WithFrame(w.(action := JoinAll(w.action, RdoActions(v)))).(dataUnknown := false, snkCount := 0, snkData := 0)
  {
    var y := x.SinkAccumulate(b);
    assert Pow256(3) == 0x100_0000;
    assert y.snkCount == 4;
    var y1 := y.AddRegister(y.registerType);
    assert y1.Work() == x.Work().(description := Join(x.Work().description, RegisterLabel(x.registerType)));
    var y2 := y1.AppendDescription(PowerText(current, v));
    var y3 := y2.AddCount(4);
    var y4 := y3.AppendData(Hex(v));
    assert y4.Work() == x.Work().(description := Join(x.Work().description, RegisterLabel(x.registerType)) + PowerText(current, v),
                                  data := x.Work().data + Hex(v), count := x.Work().count + 4);
    assert x.SinkPdoByte(current, b) == y4.SinkReset();
    var y5 := y4.AddActions(RdoActions(v));
    assert x.RdoByte(current, b) == y5.SinkReset();
  }

  /** The two accumulating decoders, selected. */
  lemma SinkDecoders(current: nat -> string, x: DecoderState, b: Byte)
    requires x.Framed()
    ensures x.ApplyDecoder(current, SinkPdo, b) == x.SinkPdoByte(current, b)
    ensures x.ApplyDecoder(current, RdoStatus, b) == x.RdoByte(current, b)
  {
  }

  /** Exactly the three sink PDO registers and RDO_REG_STATUS_0 are routed to the accumulators. */
  lemma SinkRegisters(r: Byte)
    ensures DecoderFor(r) == SinkPdo <==> r == DPM_SNK_PDO1_0 || r == DPM_SNK_PDO2_0 || r == DPM_SNK_PDO3_0
    ensures DecoderFor(r) == RdoStatus <==> r == RDO_REG_STATUS_0
  {
  }

  /** Every register that has a decoder also has a name in the catalog. */
  lemma DecodedRegistersNamed(r: Byte)
    ensures DecoderFor(r) != RawData ==> Lookup(r).Some?
  {
  }

  /** The fourth byte of a PDO completes the value: name, voltage and current, count 4, value in hex. */
  lemma SinkPdoFourth(current: nat -> string, s: DecoderState, r: Byte, b: Byte, v: nat)
    requires RoutedTo(s, r) && DecoderFor(r) == SinkPdo && s.snkCount == 3
    requires v == s.snkData + b as nat * 0x100_0000
    ensures var t := s.OnData(current, b);
      && t.Work() == s.Work().(description := Join(s.Work().description, RegisterLabel(Some(r))) + PowerText(current, v),
                               data := s.Work().data + Hex(v), count := s.Work().count + 4)
      && t.snkCount == 0 && t.snkData == 0 && !t.dataUnknown
      && t.maybeReading == s.maybeReading && t.requestRegisterType == s.requestRegisterType
  {
    DataDecoded(current, s, r, b);
    var x := s.(dataByte := b, registerType := Some(r));
    SinkDecoders(current, x, b);
    SinkCompleted(current, x, b, v);
  }

  /** The fourth byte of an RDO: as a PDO, plus the object position and flags as actions. */
  lemma RdoFourth(current: nat -> string, s: DecoderState, r: Byte, b: Byte, v: nat)
    requires RoutedTo(s, r) && DecoderFor(r) == RdoStatus && s.snkCount == 3
    requires v == s.snkData + b as nat * 0x100_0000
    ensures var t := s.OnData(current, b);
      && t.Work() == s.Work().(description := Join(s.Work().description, RegisterLabel(Some(r))) + PowerText(current, v),
                               data := s.Work().data + Hex(v), count := s.Work().count + 4,
                               action := JoinAll(s.Work().action, RdoActions(v)))
      && t.snkCount == 0 && t.snkData == 0 && !t.dataUnknown
      && t.maybeReading == s.maybeReading && t.requestRegisterType == s.requestRegisterType
  {
    DataDecoded(current, s, r, b);
    var x := s.(dataByte := b, registerType := Some(r));
    SinkDecoders(current, x, b);
    SinkCompleted(current, x, b, v);
  }

  /** The first three bytes of a PDO or RDO, accumulated. */
  lemma FirstThree(current: nat -> string, s: DecoderState, r: Byte, b0: Byte, b1: Byte, b2: Byte)
    requires RoutedTo(s, r) && (DecoderFor(r) == SinkPdo || DecoderFor(r) == RdoStatus) && s.Valid() && s.snkCount == 0
    ensures var s3 := s.OnData(current, b0).OnData(current, b1).OnData(current, b2);
      && RoutedTo(s3, r) && s3.snkCount == 3 && s3.snkData == b0 as nat + 0x100 * b1 as nat + 0x1_0000 * b2 as nat
      && s3.Work() == s.Work() && s3.dataUnknown == s.dataUnknown
      && s3.maybeReading == s.maybeReading && s3.requestRegisterType == s.requestRegisterType
  {
    var s1 := s.OnData(current, b0);
    SinkByteEarly(current, s, r, b0);
    var s2 := s1.OnData(current, b1);
    SinkByteEarly(current, s1, r, b1);
    var s3 := s2.OnData(current, b2);
    SinkByteEarly(current, s2, r, b2);
    AccumulatedThree(b0 as nat, b1 as nat, b2 as nat);
  }

  /** The accumulator's sum after three bytes, with the powers of 256 worked out. */
  lemma AccumulatedThree(x0: nat, x1: nat, x2: nat)
    ensures 0 + x0 * Pow256(0) + x1 * Pow256(1) + x2 * Pow256(2) == x0 + 0x100 * x1 + 0x1_0000 * x2
  {
    assert Pow256(0) == 1;
    assert Pow256(1) == 0x100;
    assert Pow256(2) == 0x1_0000;
  }

  /**
   * Four bytes to a PDO register assemble the value least significant byte
   * first; the first three leave the frame (and "data unknown") as they were,
   * the fourth shows the register, voltage and current and resets the accumulator.
   */
  lemma {:induction false} PdoAccumulation(current: nat -> string, s: DecoderState, r: Byte, b0: Byte, b1: Byte, b2: Byte, b3: Byte, v: nat)
    requires RoutedTo(s, r) && DecoderFor(r) == SinkPdo && s.Valid() && s.snkCount == 0
    requires v == LittleEndian32(b0, b1, b2, b3)
    ensures var s1 := s.OnData(current, b0);
      var s3 := s1.OnData(current, b1).OnData(current, b2);
      && s1.Work() == s.Work() && s3.Work() == s.Work() && s3.dataUnknown == s.dataUnknown
      && s3.snkCount == 3
    ensures var s4 := s.OnData(current, b0).OnData(current, b1).OnData(current, b2).OnData(current, b3);
      && s4.Work() == s.Work().(description := Join(s.Work().description, RegisterLabel(Some(r))) + PowerText(current, v),
                                data := s.Work().data + Hex(v), count := s.Work().count + 4)
      && s4.snkCount == 0 && s4.snkData == 0 && !s4.dataUnknown
  {
    SinkByteEarly(current, s, r, b0);
    FirstThree(current, s, r, b0, b1, b2);
    var s3 := s.OnData(current, b0).OnData(current, b1).OnData(current, b2);
    assert v == s3.snkData + b3 as nat * 0x100_0000;
    SinkPdoFourth(current, s3, r, b3, v);
  }

  /** Four bytes to the RDO register: as a PDO, plus the flag clauses of the assembled value. */
  lemma {:induction false} RdoAccumulation(current: nat -> string, s: DecoderState, r: Byte, b0: Byte, b1: Byte, b2: Byte, b3: Byte, v: nat)
    requires RoutedTo(s, r) && DecoderFor(r) == RdoStatus && s.Valid() && s.snkCount == 0
    requires v == LittleEndian32(b0, b1, b2, b3)
    ensures var s4 := s.OnData(current, b0).OnData(current, b1).OnData(current, b2).OnData(current, b3);
      && s4.Work() == s.Work().(description := Join(s.Work().description, RegisterLabel(Some(r))) + PowerText(current, v),
                                data := s.Work().data + Hex(v), count := s.Work().count + 4,
                                action := JoinAll(s.Work().action, RdoActions(v)))
      && s4.snkCount == 0 && s4.snkData == 0 && !s4.dataUnknown
  {
    FirstThree(current, s, r, b0, b1, b2);
    var s3 := s.OnData(current, b0).OnData(current, b1).OnData(current, b2);
    assert v == s3.snkData + b3 as nat * 0x100_0000;
    RdoFourth(current, s3, r, b3, v);
  }

  /** One more `add_action` after a run of them. */
  lemma ActionsSnoc(f: Frame, done: seq<string>, text: string)
    ensures f.AddActions(done + [text]) == f.AddActions(done).AddAction(text)
  {
    JoinAllSnoc(f.action, done, text);
  }

  /** An `add_action` that may be skipped: a run of at most one more. */
  lemma ActionsMaybe(f: Frame, done: seq<string>, most: seq<string>)
    requires |most| <= 1
    ensures most == [] ==> f.AddActions(done + most) == f.AddActions(done)
    ensures most != [] ==> f.AddActions(done + most) == f.AddActions(done).AddAction(most[0])
  {
    if most == [] {
      assert done + most == done;
    } else {
      assert most == [most[0]];
      ActionsSnoc(f, done, most[0]);
    }
  }

  /** `add_action` of a name, then its value appended to it without a separator. */
  lemma ActionsLabelled(f: Frame, done: seq<string>, name: string, value: string)
    ensures f.AddActions(done + [name + value]) == f.AddActions(done).AddAction(name).AppendAction(value)
  {
    ActionsSnoc(f, done, name + value);
    JoinThenAppend(f.AddActions(done).action, name, value);
  }
}
