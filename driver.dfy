/** The panel driver of src/display.rs: the framing routine `run`, the fixed
    command sequences `reset`, `init`, `draw`, `load_look_up_table`, `sleep`
    and `clear`, and `render` after its rasterisation step. Each operation is
    a method of `Display` over the recording fake, proved against a pure
    function of the fake's state (`RunSpec`, `InitSpec`, ...); the lemmas
    state what those functions put on the bus. */
module PanelDriver {
  import opened Bytes
  import opened PanelCommands
  import opened PanelHardware
  import BitPlanes

  const DisplayWidth: nat := 280
  const DisplayHeight: nat := 480

  /** Largest SPI transfer `run` issues. */
  const ChunkSize: nat := 4096

  /** Interval of the busy poll, in milliseconds. */
  const PollInterval: nat := 200

  const CommandError: string := "Unable to write command."
  const DataError: string := "Unable to write data."

  /** `Result<(), &'static str>` */
  datatype Outcome = Ok | Err(message: string)

  datatype Step = Step(bus: Bus, outcome: Outcome)

  // ---------------------------------------------------------------------
  // Chunking of payloads (`data_bytes[..].chunks(4096)`)

  function Chunks(data: seq<byte>): seq<seq<byte>>
    decreases |data|
  {
    if data == [] then []
    else if |data| <= ChunkSize then [data]
    else [data[..ChunkSize]] + Chunks(data[ChunkSize..])
  }

  function Flatten(chunks: seq<seq<byte>>): seq<byte> {
    if chunks == [] then [] else chunks[0] + Flatten(chunks[1..])
  }

  /** The chunks rebuild the payload; each is non-empty and at most 4096
      bytes long, and all but the last are exactly 4096 bytes long. */
  lemma {:induction false} ChunksPartition(data: seq<byte>)
    ensures Flatten(Chunks(data)) == data
    ensures |Chunks(data)| == (|data| + ChunkSize - 1) / ChunkSize
    ensures forall i :: 0 <= i < |Chunks(data)| ==> 0 < |Chunks(data)[i]| <= ChunkSize
    ensures forall i :: 0 <= i < |Chunks(data)| - 1 ==> |Chunks(data)[i]| == ChunkSize
    ensures data != [] ==> |Chunks(data)[|Chunks(data)| - 1]| == |data| - ChunkSize * (|Chunks(data)| - 1)
    decreases |data|
  {
    if data == [] {
    } else if |data| <= ChunkSize {
      assert Flatten([data]) == data + Flatten([]);
    } else {
      var rest := data[ChunkSize..];
      ChunksPartition(rest);
      assert data[..ChunkSize] + rest == data;
      assert Chunks(data)[1..] == Chunks(rest);
    }
  }

  /** A full plane of 280 x 480 pixels (16800 bytes) goes out as four
      transfers of 4096 bytes and one of 416. */
  lemma PlaneChunkSizes(plane: seq<byte>)
    requires |plane| == DisplayWidth / 8 * DisplayHeight
    ensures |Chunks(plane)| == 5
    ensures forall i :: 0 <= i < 4 ==> |Chunks(plane)[i]| == 4096
    ensures |Chunks(plane)[4]| == 416
  {
    ChunksPartition(plane);
  }

  // ---------------------------------------------------------------------
  // The framing routine `run`

  /** Writes the chunks one by one with the data/command line High and stops
      at the first failed write. */
  function SendChunks(b: Bus, chunks: seq<seq<byte>>): Step
    decreases |chunks|
  {
    if chunks == [] then Step(b, Ok)
    else if !b.WriteOk() then Step(b.Write(chunks[0]), Err(DataError))
    else SendChunks(b.Write(chunks[0]), chunks[1..])
  }

  /** `while get_level(Busy) == High { sleep(200) }` */
  function PollBusy(b: Bus): Bus
    decreases |b.busy|
  {
    if b.BusyLevel() == High then PollBusy(b.ReadBusy().Pause(PollInterval))
    else b.ReadBusy()
  }

  /** The first reading, then the poll only if that reading was High. */
  function AwaitReady(b: Bus): Bus {
    if b.BusyLevel() == High then PollBusy(b.ReadBusy()) else b.ReadBusy()
  }

  /** `run(c)`: the frame of `c`, then the busy wait if `c` blocks. */
  function RunSpec(b: Bus, c: Command): Step {
    RunFrame(b, GetBytes(c), IsBlocking(c))
  }

  /** The payload, if there is one: the line High, then the chunks. */
  function PayloadStep(b: Bus, payload: seq<byte>): Step {
    if payload == [] then Step(b, Ok)
    else SendChunks(b.SetLevel(DataCommand, High), Chunks(payload))
  }

  /** The opcode with the data/command line Low; the payload, if any, in
      chunks with the line High; then, for a blocking command that got
      through, the busy wait. */
  function RunFrame(b: Bus, f: Frame, blocking: bool): Step {
    var b1 := b.SetLevel(DataCommand, Low);
    if !b1.WriteOk() then Step(b1.Write([f.opcode]), Err(CommandError))
    else
      var s := PayloadStep(b1.Write([f.opcode]), f.payload);
      if s.outcome.Err? || !blocking then s
      else Step(AwaitReady(s.bus), Ok)
  }

  /** Commands run one after the other, as a chain of `?`. */
  function RunAll(b: Bus, cmds: seq<Command>): Step
    decreases |cmds|
  {
    if cmds == [] then Step(b, Ok)
    else
      var s := RunSpec(b, cmds[0]);
      if s.outcome.Err? then s else RunAll(s.bus, cmds[1..])
  }

  /** One link of the chain: the step of command `k` decides whether the
      commands after it run. */
  lemma RunAllFirst(b: Bus, cmds: seq<Command>, k: nat, s: Step)
    requires k < |cmds| && s == RunSpec(b, cmds[k])
    ensures s.outcome.Err? ==> RunAll(b, cmds[k..]) == s
    ensures s.outcome.Ok? ==> RunAll(b, cmds[k..]) == RunAll(s.bus, cmds[k + 1..])
  {
    assert cmds[k..][0] == cmds[k];
    assert cmds[k..][1..] == cmds[k + 1..];
  }

  /** Running two command lists one after the other is running their
      concatenation: the second list runs only if the first succeeded. */
  lemma {:induction false} RunAllAppend(b: Bus, xs: seq<Command>, ys: seq<Command>)
    ensures RunAll(b, xs + ys)
            == (var s := RunAll(b, xs); if s.outcome.Err? then s else RunAll(s.bus, ys))
    decreases |xs|
  {
    if xs == [] {
      assert xs + ys == ys;
    } else {
      assert (xs + ys)[0] == xs[0];
      assert (xs + ys)[1..] == xs[1..] + ys;
      var s := RunSpec(b, xs[0]);
      if s.outcome.Ok? {
        RunAllAppend(s.bus, xs[1..], ys);
      }
    }
  }

  // ---------------------------------------------------------------------
  // The fixed sequences

  function ResetSpec(b: Bus): Bus {
    b.SetLevel(Reset, High).Pause(30).SetLevel(Reset, Low).Pause(3).SetLevel(Reset, High).Pause(30)
  }

  /** The commands `init` issues after the soft start and its 300 ms pause. */
  const InitConfiguration: seq<Command> := [
    Unknown0x46, Unknown0x47, SetGateNumber, SetGateVoltage, SetSourceVoltage,
    SetDataEntrySequence, SetBorder, SetBoosterStrength, SetInternalSensorOn, SetVComValue,
    SetDisplayOption([0x00, 0x00, 0x00, 0x00, 0x00, 0x00, 0x00, 0x00, 0x00, 0x00]),
    SetXRamPosition([0x00, 0x00, 0x17, 0x01]),
    SetYRamPosition([0x00, 0x00, 0xDF, 0x01]),
    UpdateSequence([0xCF])
  ]

  function InitSpec(b: Bus): Step {
    var s := RunSpec(ResetSpec(b), Unknown0x12);
    if s.outcome.Err? then s else RunAll(s.bus.Pause(300), InitConfiguration)
  }

  /** The 105-byte waveform table: ten groups of ten bytes and five
      frame-repeat bytes. */
  const LookUpTable: seq<byte> := [
    0x2A, 0x06, 0x15, 0x00, 0x00, 0x00, 0x00, 0x00, 0x00, 0x00,
    0x28, 0x06, 0x14, 0x00, 0x00, 0x00, 0x00, 0x00, 0x00, 0x00,
    0x20, 0x06, 0x10, 0x00, 0x00, 0x00, 0x00, 0x00, 0x00, 0x00,
    0x14, 0x06, 0x28, 0x00, 0x00, 0x00, 0x00, 0x00, 0x00, 0x00,
    0x00, 0x00, 0x00, 0x00, 0x00, 0x00, 0x00, 0x00, 0x00, 0x00,
    0x00, 0x02, 0x02, 0x0A, 0x00, 0x00, 0x00, 0x08, 0x08, 0x02,
    0x00, 0x02, 0x02, 0x0A, 0x00, 0x00, 0x00, 0x00, 0x00, 0x00,
    0x00, 0x00, 0x00, 0x00, 0x00, 0x00, 0x00, 0x00, 0x00, 0x00,
    0x00, 0x00, 0x00, 0x00, 0x00, 0x00, 0x00, 0x00, 0x00, 0x00,
    0x00, 0x00, 0x00, 0x00, 0x00, 0x00, 0x00, 0x00, 0x00, 0x00,
    0x22, 0x22, 0x22, 0x22, 0x22
  ]

  /** The commands of `draw` before `load_look_up_table`. */
  function DrawRegisters(register1: seq<byte>, register2: seq<byte>): seq<Command> {
    [ Unknown0x49,
      Unknown0x4E, Unknown0x4F, WriteRegister1(register1),
      Unknown0x4E, Unknown0x4F, WriteRegister2(register2) ]
  }

  /** The commands of `draw` after `load_look_up_table`. */
  const DrawFinish: seq<Command> := [UpdateSequence([0xCF]), Display]

  function DrawCommands(register1: seq<byte>, register2: seq<byte>): seq<Command> {
    DrawRegisters(register1, register2) + [WriteLookUpTableRegister(LookUpTable)] + DrawFinish
  }

  function DrawSpec(b: Bus, register1: seq<byte>, register2: seq<byte>): Step {
    RunAll(b, DrawCommands(register1, register2))
  }

  const SleepCommands: seq<Command> := [Unknown0x50, PowerOff, Sleep]

  function SleepSpec(b: Bus): Step {
    var s := RunAll(b, SleepCommands);
    if s.outcome.Err? then s
    else Step(s.bus.SetLevel(DataCommand, Low).SetLevel(Reset, Low), Ok)
  }

  /** `[0xFF].repeat(DISPLAY_WIDTH / 8 * DISPLAY_HEIGHT)` */
  function ClearPlane(): seq<byte> {
    seq(DisplayWidth / 8 * DisplayHeight, _ => 0xFF)
  }

  function ClearSpec(b: Bus): Step {
    DrawSpec(b, ClearPlane(), ClearPlane())
  }

  /** `render` after the drawing closure has filled the RGBA raster `raw`. */
  function RenderSpec(b: Bus, raw: seq<byte>): Step {
    var planes := BitPlanes.PackPixels(raw);
    DrawSpec(b, planes.0, planes.1)
  }

  // ---------------------------------------------------------------------
  // The driver over the recording fake

  class Display {
    const hardware: RecordingHardware

    constructor (hardware: RecordingHardware)
      ensures this.hardware == hardware
    {
      this.hardware := hardware;
    }

    method Run(c: Command) returns (r: Outcome)
      modifies hardware
      ensures Step(hardware.State(), r) == RunSpec(old(hardware.State()), c)
    {
      var f := GetBytes(c);
      hardware.SetLevel(DataCommand, Low);
      var ok := hardware.WriteToSpi([f.opcode]);
      if !ok {
        return Err(CommandError);
      }
      r := SendPayload(f.payload);
      if r.Err? { return; }
      if IsBlocking(c) {
        WaitWhileBusy();
      }
      r := Ok;
    }

    /** The payload part of `run`: nothing for an empty payload, otherwise
        the line High and each chunk in turn, stopping at the first failed
        write. */
    method SendPayload(payload: seq<byte>) returns (r: Outcome)
      modifies hardware
      ensures Step(hardware.State(), r) == PayloadStep(old(hardware.State()), payload)
    {
      if payload == [] {
        return Ok;
      }
      hardware.SetLevel(DataCommand, High);
      ghost var start := hardware.State();
      var chunks := Chunks(payload);
      var i := 0;
      while i < |chunks|
        invariant 0 <= i <= |chunks|
        invariant SendChunks(start, chunks) == SendChunks(hardware.State(), chunks[i..])
      {
        assert chunks[i..][0] == chunks[i] && chunks[i..][1..] == chunks[i + 1..];
        var ok := hardware.WriteToSpi(chunks[i]);
        if !ok {
          return Err(DataError);
        }
        i := i + 1;
      }
      r := Ok;
    }

    /** The busy wait at the end of `run`: one reading, and while the line
        reads High, a 200 ms sleep and another reading. */
    method WaitWhileBusy()
      modifies hardware
      ensures hardware.State() == AwaitReady(old(hardware.State()))
    {
      var level := hardware.GetLevel();
      if level == High {
        ghost var polled := hardware.State();
        level := hardware.GetLevel();
        while level == High
          invariant PollBusy(polled)
                    == if level == High then PollBusy(hardware.State().Pause(PollInterval))
                       else hardware.State()
          decreases |hardware.busy| + (if level == High then 1 else 0)
        {
          hardware.Pause(PollInterval);
          level := hardware.GetLevel();
        }
      }
    }

    method Reset()
      modifies hardware
      ensures hardware.State() == ResetSpec(old(hardware.State()))
    {
      hardware.SetLevel(OutputPin.Reset, High);
      hardware.Pause(30);
      hardware.SetLevel(OutputPin.Reset, Low);
      hardware.Pause(3);
      hardware.SetLevel(OutputPin.Reset, High);
      hardware.Pause(30);
    }

    /** The commands one after the other, each as `self.run(c)?`. */
    method RunEach(cmds: seq<Command>) returns (r: Outcome)
      modifies hardware
      ensures Step(hardware.State(), r) == RunAll(old(hardware.State()), cmds)
    {
      var i := 0;
      while i < |cmds|
        invariant 0 <= i <= |cmds|
        invariant RunAll(old(hardware.State()), cmds) == RunAll(hardware.State(), cmds[i..])
      {
        ghost var before := hardware.State();
        r := Run(cmds[i]);
        RunAllFirst(before, cmds, i, Step(hardware.State(), r));
        if r.Err? { return; }
        i := i + 1;
      }
      r := Ok;
    }

    method Init() returns (r: Outcome)
      modifies hardware
      ensures Step(hardware.State(), r) == InitSpec(old(hardware.State()))
    {
      Reset();
      r := Run(Unknown0x12);
      if r.Err? { return; }
      hardware.Pause(300);
      r := RunEach(InitConfiguration);
    }

    method LoadLookUpTable() returns (r: Outcome)
      modifies hardware
      ensures Step(hardware.State(), r)
              == RunSpec(old(hardware.State()), WriteLookUpTableRegister(LookUpTable))
    {
      r := Run(WriteLookUpTableRegister(LookUpTable));
    }

    method Draw(register1: seq<byte>, register2: seq<byte>) returns (r: Outcome)
      modifies hardware
      ensures Step(hardware.State(), r) == DrawSpec(old(hardware.State()), register1, register2)
    {
      ghost var start := hardware.State();
      assert DrawCommands(register1, register2)
             == DrawRegisters(register1, register2) + ([WriteLookUpTableRegister(LookUpTable)] + DrawFinish);
      RunAllAppend(start, DrawRegisters(register1, register2), [WriteLookUpTableRegister(LookUpTable)] + DrawFinish);
      r := RunEach(DrawRegisters(register1, register2));
      if r.Err? { return; }
      ghost var beforeTable := hardware.State();
      RunAllAppend(beforeTable, [WriteLookUpTableRegister(LookUpTable)], DrawFinish);
      r := LoadLookUpTable();
      assert [WriteLookUpTableRegister(LookUpTable)][0..] == [WriteLookUpTableRegister(LookUpTable)];
      RunAllFirst(beforeTable, [WriteLookUpTableRegister(LookUpTable)], 0, Step(hardware.State(), r));
      if r.Err? { return; }
      r := RunEach(DrawFinish);
    }

    method Sleep() returns (r: Outcome)
      modifies hardware
      ensures Step(hardware.State(), r) == SleepSpec(old(hardware.State()))
    {
      r := RunEach(SleepCommands);
      if r.Err? { return; }
      hardware.SetLevel(DataCommand, Low);
      hardware.SetLevel(OutputPin.Reset, Low);
    }

    method Clear() returns (r: Outcome)
      modifies hardware
      ensures Step(hardware.State(), r) == ClearSpec(old(hardware.State()))
    {
      r := Draw(ClearPlane(), ClearPlane());
    }

    /** `render` once the drawing closure has produced the RGBA raster
        `raw`: pack the two planes and draw them. */
    method Render(raw: seq<byte>) returns (r: Outcome)
      modifies hardware
      ensures Step(hardware.State(), r) == RenderSpec(old(hardware.State()), raw)
    {
      var planes := BitPlanes.PackPixels(raw);
      r := Draw(planes.0, planes.1);
    }
  }
}
