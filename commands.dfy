/** The panel controller's command table (`Command`, `get_bytes`, `is_blocking`
    in src/display.rs). Each command is one opcode byte, a fixed or
    caller-supplied payload, and a flag saying whether the panel raises its
    busy line after accepting it. */
module PanelCommands {
  import opened Wrappers
  import opened Bytes

  /** The RAM-window commands take a `&[u8; 4]`. */
  type Bytes4 = s: seq<byte> | |s| == 4 witness [0, 0, 0, 0]

  datatype Command =
    | SetGateNumber                        // 0x01
    | PowerOff                             // 0x02
    | SetGateVoltage                       // 0x03
    | SetSourceVoltage                     // 0x04
    | Sleep                                // 0x07
    | SetBoosterStrength                   // 0x0C
    | SetDataEntrySequence                 // 0x11
    | Unknown0x12                          // 0x12, undocumented soft start
    | SetInternalSensorOn                  // 0x18
    | Display                              // 0x20, master activation
    | UpdateSequence(data: seq<byte>)      // 0x22
    | WriteRegister1(data: seq<byte>)      // 0x24
    | WriteRegister2(data: seq<byte>)      // 0x26
    | SetVComValue                         // 0x2C
    | WriteLookUpTableRegister(data: seq<byte>) // 0x32
    | SetDisplayOption(data: seq<byte>)    // 0x37
    | SetBorder                            // 0x3C
    | SetXRamPosition(window: Bytes4)      // 0x44
    | SetYRamPosition(window: Bytes4)      // 0x45
    | Unknown0x46                          // 0x46
    | Unknown0x47                          // 0x47
    | Unknown0x49                          // 0x49
    | Unknown0x4E                          // 0x4E
    | Unknown0x4F                          // 0x4F
    | Unknown0x50                          // 0x50

  /** What `get_bytes` returns: the opcode and the payload that follows it. */
  datatype Frame = Frame(opcode: byte, payload: seq<byte>)

  function GetBytes(c: Command): Frame {
    match c
    case SetGateNumber => Frame(0x01, [0xDF, 0x01, 0x00])
    case PowerOff => Frame(0x02, [])
    case SetGateVoltage => Frame(0x03, [0x00])
    case SetSourceVoltage => Frame(0x04, [0x41, 0xA8, 0x32])
    case Sleep => Frame(0x07, [0xA5])
    case SetBoosterStrength => Frame(0x0C, [0xAE, 0xC7, 0xC3, 0xC0, 0xC0])
    case SetDataEntrySequence => Frame(0x11, [0x03])
    case Unknown0x12 => Frame(0x12, [])
    case SetInternalSensorOn => Frame(0x18, [0x80])
    case Display => Frame(0x20, [])
    case UpdateSequence(data) => Frame(0x22, data)
    case WriteRegister1(data) => Frame(0x24, data)
    case WriteRegister2(data) => Frame(0x26, data)
    case SetVComValue => Frame(0x2C, [0x44])
    case WriteLookUpTableRegister(data) => Frame(0x32, data)
    case SetDisplayOption(data) => Frame(0x37, data)
    case SetBorder => Frame(0x3C, [0x00])
    case SetXRamPosition(window) => Frame(0x44, window)
    case SetYRamPosition(window) => Frame(0x45, window)
    case Unknown0x46 => Frame(0x46, [0xF7])
    case Unknown0x47 => Frame(0x47, [0xF7])
    case Unknown0x49 => Frame(0x49, [0x00])
    case Unknown0x4E => Frame(0x4E, [0x00, 0x00])
    case Unknown0x4F => Frame(0x4F, [0x00, 0x00])
    case Unknown0x50 => Frame(0x50, [0xF7])
  }

  predicate IsBlocking(c: Command) {
    match c
    case Unknown0x46 | Unknown0x47 | Display => true
    case _ => false
  }

  /** The controller's reading of a frame: which command, if any, an opcode
      and payload stand for. Fixed-payload commands are recognised only with
      their exact payload. */
  function DecodeFrame(f: Frame): Option<Command> {
    var p := f.payload;
    match f.opcode
    case 0x01 => if p == [0xDF, 0x01, 0x00] then Some(SetGateNumber) else None
    case 0x02 => if p == [] then Some(PowerOff) else None
    case 0x03 => if p == [0x00] then Some(SetGateVoltage) else None
    case 0x04 => if p == [0x41, 0xA8, 0x32] then Some(SetSourceVoltage) else None
    case 0x07 => if p == [0xA5] then Some(Sleep) else None
    case 0x0C => if p == [0xAE, 0xC7, 0xC3, 0xC0, 0xC0] then Some(SetBoosterStrength) else None
    case 0x11 => if p == [0x03] then Some(SetDataEntrySequence) else None
    case 0x12 => if p == [] then Some(Unknown0x12) else None
    case 0x18 => if p == [0x80] then Some(SetInternalSensorOn) else None
    case 0x20 => if p == [] then Some(Display) else None
    case 0x22 => Some(UpdateSequence(p))
    case 0x24 => Some(WriteRegister1(p))
    case 0x26 => Some(WriteRegister2(p))
    case 0x2C => if p == [0x44] then Some(SetVComValue) else None
    case 0x32 => Some(WriteLookUpTableRegister(p))
    case 0x37 => Some(SetDisplayOption(p))
    case 0x3C => if p == [0x00] then Some(SetBorder) else None
    case 0x44 => if |p| == 4 then Some(SetXRamPosition(p)) else None
    case 0x45 => if |p| == 4 then Some(SetYRamPosition(p)) else None
    case 0x46 => if p == [0xF7] then Some(Unknown0x46) else None
    case 0x47 => if p == [0xF7] then Some(Unknown0x47) else None
    case 0x49 => if p == [0x00] then Some(Unknown0x49) else None
    case 0x4E => if p == [0x00, 0x00] then Some(Unknown0x4E) else None
    case 0x4F => if p == [0x00, 0x00] then Some(Unknown0x4F) else None
    case 0x50 => if p == [0xF7] then Some(Unknown0x50) else None
    case _ => None
  }

  /** Encoding loses nothing: the controller recovers every command, payload
      included, from the bytes `get_bytes` puts on the bus. */
  lemma DecodeGetBytes(c: Command)
    ensures DecodeFrame(GetBytes(c)) == Some(c)
  {
    match c
    case SetXRamPosition(w) =>
    case SetYRamPosition(w) =>
    case _ =>
  }

  /** Every frame the controller recognises is the encoding of exactly the
      command it is recognised as. */
  lemma GetBytesDecode(f: Frame, c: Command)
    requires DecodeFrame(f) == Some(c)
    ensures GetBytes(c) == f
  {
    match f.opcode
    case 0x01 => case 0x02 => case 0x03 => case 0x04 => case 0x07 =>
    case 0x0C => case 0x11 => case 0x12 => case 0x18 => case 0x20 =>
    case 0x22 => case 0x24 => case 0x26 => case 0x2C => case 0x32 =>
    case 0x37 => case 0x3C => case 0x44 => case 0x45 => case 0x46 =>
    case 0x47 => case 0x49 => case 0x4E => case 0x4F => case 0x50 =>
    case _ =>
  }

  /** Distinct commands put distinct frames on the bus; in particular the
      payload-carrying commands pass their slice through unchanged. */
  lemma GetBytesInjective(c: Command, d: Command)
    requires GetBytes(c) == GetBytes(d)
    ensures c == d
  {
    DecodeGetBytes(c);
    DecodeGetBytes(d);
  }

  /** The busy wait is owed exactly after opcodes 0x20, 0x46 and 0x47. */
  lemma BlockingOpcodes(c: Command)
    ensures IsBlocking(c) <==> GetBytes(c).opcode in {0x20, 0x46, 0x47}
  {
    match c
    case _ =>
  }

  /** The payload-carrying commands forward the caller's bytes. */
  lemma PayloadPassThrough(c: Command)
    ensures (c.UpdateSequence? || c.WriteRegister1? || c.WriteRegister2?
             || c.WriteLookUpTableRegister? || c.SetDisplayOption?)
            ==> GetBytes(c).payload == c.data
    ensures (c.SetXRamPosition? || c.SetYRamPosition?) ==> GetBytes(c).payload == c.window
  {
  }

  /** Three entries of the table, written out. */
  lemma TableExamples()
    ensures GetBytes(SetGateNumber) == Frame(0x01, [0xDF, 0x01, 0x00])
    ensures GetBytes(Sleep) == Frame(0x07, [0xA5])
    ensures GetBytes(Unknown0x4E) == Frame(0x4E, [0x00, 0x00])
  {
  }
}
