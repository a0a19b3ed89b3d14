/** The `HardwareInterface` trait of src/display.rs (set an output pin, read
    the busy pin, write to the SPI bus), realised as a recording fake: every
    call is appended to an event log, the busy pin follows a finite script of
    readings, and SPI writes follow a script of outcomes. `Bus` is the value
    of the fake's state; each of its functions specifies one call. */
module PanelHardware {
  import opened Bytes
  import opened PanelCommands

  datatype Level = Low | High

  datatype OutputPin = Reset | DataCommand

  datatype Event =
    | SetLevel(pin: OutputPin, level: Level)
    | SpiWrite(data: seq<byte>, ok: bool)        // `ok` is false for a failed write
    | BusyRead(read: Level)
    | Delay(ms: nat)                             // a `thread::sleep` of the driver

  /** The fake's state: what happened so far, the busy readings still to
      come (once the script is exhausted the line reads Low) and the outcomes
      of the next SPI writes (once exhausted, writes succeed). */
  datatype Bus = Bus(log: seq<Event>, busy: seq<Level>, spi: seq<bool>) {

    function SetLevel(pin: OutputPin, level: Level): Bus {
      this.(log := log + [Event.SetLevel(pin, level)])
    }

    predicate WriteOk() {
      spi == [] || spi[0]
    }

    function Write(data: seq<byte>): Bus {
      this.(log := log + [SpiWrite(data, WriteOk())], spi := if spi == [] then [] else spi[1..])
    }

    function BusyLevel(): Level {
      if busy == [] then Low else busy[0]
    }

    function ReadBusy(): Bus {
      this.(log := log + [BusyRead(BusyLevel())], busy := if busy == [] then [] else busy[1..])
    }

    function Pause(ms: nat): Bus {
      this.(log := log + [Delay(ms)])
    }
  }

  class RecordingHardware {
    var log: seq<Event>
    var busy: seq<Level>
    var spi: seq<bool>

    function State(): Bus
      reads this
    {
      Bus(log, busy, spi)
    }

    constructor (busyScript: seq<Level>, spiScript: seq<bool>)
      ensures State() == Bus([], busyScript, spiScript)
    {
      log, busy, spi := [], busyScript, spiScript;
    }

    method SetLevel(pin: OutputPin, level: Level)
      modifies this
      ensures State() == old(State()).SetLevel(pin, level)
    {
      log := log + [Event.SetLevel(pin, level)];
    }

    method GetLevel() returns (level: Level)
      modifies this
      ensures level == old(State()).BusyLevel()
      ensures State() == old(State()).ReadBusy()
    {
      if busy == [] {
        level := Low;
      } else {
        level := busy[0];
        busy := busy[1..];
      }
      log := log + [BusyRead(level)];
    }

    method WriteToSpi(data: seq<byte>) returns (ok: bool)
      modifies this
      ensures ok == old(State()).WriteOk()
      ensures State() == old(State()).Write(data)
    {
      if spi == [] {
        ok := true;
      } else {
        ok := spi[0];
        spi := spi[1..];
      }
      log := log + [SpiWrite(data, ok)];
    }

    /** `thread::sleep`, kept only as an event of the log. */
    method Pause(ms: nat)
      modifies this
      ensures State() == old(State()).Pause(ms)
    {
      log := log + [Delay(ms)];
    }
  }

  // ---------------------------------------------------------------------
  // Views of a log. Each is defined on the last event so that a call that
  // appends one event extends the view by one step.

  /** Everything written to the bus, in order (failed writes included). */
  function Writes(log: seq<Event>): seq<seq<byte>> {
    if log == [] then []
    else Writes(log[..|log| - 1]) + (if log[|log| - 1].SpiWrite? then [log[|log| - 1].data] else [])
  }

  /** Every reading of the busy pin, in order. */
  function BusyReads(log: seq<Event>): seq<Level> {
    if log == [] then []
    else BusyReads(log[..|log| - 1]) + (if log[|log| - 1].BusyRead? then [log[|log| - 1].read] else [])
  }

  /** Every level driven on one output pin, in order. */
  function PinLevels(log: seq<Event>, pin: OutputPin): seq<Level> {
    if log == [] then []
    else PinLevels(log[..|log| - 1], pin)
         + (if log[|log| - 1].SetLevel? && log[|log| - 1].pin == pin then [log[|log| - 1].level] else [])
  }

  predicate HasFailedWrite(log: seq<Event>) {
    exists i :: 0 <= i < |log| && log[i].SpiWrite? && !log[i].ok
  }

  /** What the panel controller has latched: the level of its data/command
      input and the frames received so far. A successful write with the line
      Low delivers opcodes; with the line High it extends the payload of the
      last opcode. Failed writes deliver nothing. */
  datatype PanelView = PanelView(dc: Level, received: seq<Frame>)

  function Opcodes(data: seq<byte>): seq<Frame> {
    seq(|data|, i requires 0 <= i < |data| => Frame(data[i], []))
  }

  function Observe(v: PanelView, e: Event): PanelView {
    match e
    case SetLevel(DataCommand, level) => v.(dc := level)
    case SpiWrite(data, true) =>
      if v.dc == Low then v.(received := v.received + Opcodes(data))
      else if v.received == [] then v
      else
        var last := v.received[|v.received| - 1];
        v.(received := v.received[..|v.received| - 1] + [last.(payload := last.payload + data)])
    case _ => v
  }

  function View(log: seq<Event>): PanelView {
    if log == [] then PanelView(Low, [])
    else Observe(View(log[..|log| - 1]), log[|log| - 1])
  }

  // ---------------------------------------------------------------------
  // Each view distributes over concatenation of logs.

  lemma {:induction false} WritesAppend(a: seq<Event>, b: seq<Event>)
    ensures Writes(a + b) == Writes(a) + Writes(b)
    decreases |b|
  {
    if b == [] {
      assert a + b == a;
    } else {
      var b' := b[..|b| - 1];
      assert (a + b)[..|a + b| - 1] == a + b';
      WritesAppend(a, b');
    }
  }

  lemma {:induction false} BusyReadsAppend(a: seq<Event>, b: seq<Event>)
    ensures BusyReads(a + b) == BusyReads(a) + BusyReads(b)
    decreases |b|
  {
    if b == [] {
      assert a + b == a;
    } else {
      var b' := b[..|b| - 1];
      assert (a + b)[..|a + b| - 1] == a + b';
      BusyReadsAppend(a, b');
    }
  }

  lemma {:induction false} PinLevelsAppend(a: seq<Event>, b: seq<Event>, pin: OutputPin)
    ensures PinLevels(a + b, pin) == PinLevels(a, pin) + PinLevels(b, pin)
    decreases |b|
  {
    if b == [] {
      assert a + b == a;
    } else {
      var b' := b[..|b| - 1];
      assert (a + b)[..|a + b| - 1] == a + b';
      PinLevelsAppend(a, b', pin);
    }
  }
}
