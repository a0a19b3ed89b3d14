/** What the driver puts on the bus, read off the recording fake's log: the
    events of one frame of `run`, the busy wait, the frames the panel
    receives from a list of commands, and the traces of `init`, `draw`,
    `sleep`, `clear` and `render`. Every lemma here is about the pure
    specifications of src/display.rs that the `Display` methods are proved
    against. */
module PanelTrace {
  import opened Bytes
  import opened PanelCommands
  import opened PanelHardware
  import opened PanelDriver
  import BitPlanes

  // ---------------------------------------------------------------------
  // Reading the scripts

  /** How many times the busy line reads High before it first reads Low. */
  function LeadingHigh(busy: seq<Level>): (k: nat)
    ensures k <= |busy|
  {
    if busy == [] then 0
    else match busy[0]
      case Low => 0
      case High => 1 + LeadingHigh(busy[1..])
  }

  /** The first `LeadingHigh(busy)` readings are High and the one after
      them, if the script has it, is Low. */
  lemma {:induction false} LeadingHighReads(busy: seq<Level>)
    ensures forall i :: 0 <= i < LeadingHigh(busy) ==> busy[i] == High
    ensures LeadingHigh(busy) < |busy| ==> busy[LeadingHigh(busy)] == Low
  {
    if busy != [] && busy[0] == High {
      LeadingHighReads(busy[1..]);
    }
  }

  /** The busy readings left after `n` reads. */
  function DropReads(busy: seq<Level>, n: nat): seq<Level> {
    if n <= |busy| then busy[n..] else []
  }

  /** Which of the next `n` writes is the first to fail, or `n` if none does. */
  function FirstFailure(spi: seq<bool>, n: nat): (k: nat)
    ensures k <= n
  {
    if n == 0 || spi == [] then n
    else if !spi[0] then 0
    else 1 + FirstFailure(spi[1..], n - 1)
  }

  /** The writes before `FirstFailure(spi, n)` are scripted to succeed (or
      unscripted), and the one at that index, below `n`, to fail. */
  lemma {:induction false} FirstFailureMeaning(spi: seq<bool>, n: nat)
    ensures forall i :: 0 <= i < FirstFailure(spi, n) && i < |spi| ==> spi[i]
    ensures FirstFailure(spi, n) < n ==> FirstFailure(spi, n) < |spi| && !spi[FirstFailure(spi, n)]
  {
    if n > 0 && spi != [] && spi[0] {
      FirstFailureMeaning(spi[1..], n - 1);
    }
  }

  lemma FirstFailureStep(spi: seq<bool>, n: nat)
    requires 0 < n
    ensures spi == [] || spi[0] ==> FirstFailure(spi, n) == 1 + FirstFailure(if spi == [] then [] else spi[1..], n - 1)
    ensures !(spi == [] || spi[0]) ==> FirstFailure(spi, n) == 0
  {
  }

  function Highs(n: nat): (levels: seq<Level>)
    ensures |levels| == n
    ensures forall i :: 0 <= i < n ==> levels[i] == High
  {
    if n == 0 then [] else [High] + Highs(n - 1)
  }

  // ---------------------------------------------------------------------
  // The panel's view of a stretch of log

  /** The view after `events`, starting from `v`. */
  function ObserveAll(v: PanelView, events: seq<Event>): PanelView {
    if events == [] then v
    else Observe(ObserveAll(v, events[..|events| - 1]), events[|events| - 1])
  }

  lemma {:induction false} ObserveAllAppend(v: PanelView, x: seq<Event>, y: seq<Event>)
    ensures ObserveAll(v, x + y) == ObserveAll(ObserveAll(v, x), y)
    decreases |y|
  {
    if y == [] {
      assert x + y == x;
    } else {
      assert (x + y)[..|x + y| - 1] == x + y[..|y| - 1];
      ObserveAllAppend(v, x, y[..|y| - 1]);
    }
  }

  lemma {:induction false} ViewAppend(a: seq<Event>, d: seq<Event>)
    ensures View(a + d) == ObserveAll(View(a), d)
    decreases |d|
  {
    if d == [] {
      assert a + d == a;
    } else {
      assert (a + d)[..|a + d| - 1] == a + d[..|d| - 1];
      ViewAppend(a, d[..|d| - 1]);
    }
  }

  /** Events that touch neither the bus nor an output pin. */
  predicate Quiet(events: seq<Event>) {
    forall i :: 0 <= i < |events| ==> events[i].BusyRead? || events[i].Delay?
  }

  lemma {:induction false} QuietEvents(events: seq<Event>, v: PanelView)
    requires Quiet(events)
    ensures Writes(events) == []
    ensures forall pin :: PinLevels(events, pin) == []
    ensures ObserveAll(v, events) == v
    decreases |events|
  {
    if events != [] {
      QuietEvents(events[..|events| - 1], v);
    }
  }

  /** The last event is a write that failed: nothing happened after it. */
  predicate EndsInFailedWrite(log: seq<Event>) {
    log != [] && log[|log| - 1].SpiWrite? && !log[|log| - 1].ok
  }

  // ---------------------------------------------------------------------
  // The busy wait

  /** `while get_level(Busy) == High { sleep(200) }` when the line reads High
      `highs` times before Low. */
  function PollLog(highs: nat): seq<Event> {
    if highs == 0 then [BusyRead(Low)]
    else [BusyRead(High), Delay(PollInterval)] + PollLog(highs - 1)
  }

  /** The whole wait: the reading of the `if`, then the loop if it read High. */
  function WaitLog(highs: nat): seq<Event> {
    if highs == 0 then [BusyRead(Low)] else [BusyRead(High)] + PollLog(highs - 1)
  }

  /** Reading High takes one High off the script. */
  lemma ReadHigh(b: Bus)
    requires b.BusyLevel() == High
    ensures b.ReadBusy().busy == b.busy[1..]
    ensures LeadingHigh(b.ReadBusy().busy) == LeadingHigh(b.busy) - 1
    ensures LeadingHigh(b.busy) > 0
    ensures DropReads(b.ReadBusy().busy, LeadingHigh(b.busy)) == DropReads(b.busy, LeadingHigh(b.busy) + 1)
  {
  }

  lemma {:induction false} PollBusyLog(b: Bus)
    ensures PollBusy(b)
            == b.(log := b.log + PollLog(LeadingHigh(b.busy)),
                  busy := DropReads(b.busy, LeadingHigh(b.busy) + 1))
    decreases |b.busy|
  {
    if b.BusyLevel() == High {
      var next := b.ReadBusy().Pause(PollInterval);
      PollBusyLog(next);
      ReadHigh(b);
      assert b.log + [BusyRead(High), Delay(PollInterval)] + PollLog(LeadingHigh(b.busy) - 1)
             == b.log + ([BusyRead(High), Delay(PollInterval)] + PollLog(LeadingHigh(b.busy) - 1));
      assert next.log == b.log + [BusyRead(High), Delay(PollInterval)];
    }
  }

  /** The wait reads the line once more than it reads High, and consumes
      those readings from the script. */
  lemma AwaitReadyLog(b: Bus)
    ensures AwaitReady(b)
            == b.(log := b.log + WaitLog(LeadingHigh(b.busy)),
                  busy := DropReads(b.busy, LeadingHigh(b.busy) + 1))
  {
    if b.BusyLevel() == High {
      var next := b.ReadBusy();
      PollBusyLog(next);
      ReadHigh(b);
      assert b.log + [BusyRead(High)] + PollLog(LeadingHigh(b.busy) - 1)
             == b.log + ([BusyRead(High)] + PollLog(LeadingHigh(b.busy) - 1));
    }
  }

  lemma {:induction false} PollLogReads(highs: nat)
    ensures BusyReads(PollLog(highs)) == Highs(highs) + [Low]
  {
    var head: seq<Event> := [BusyRead(High), Delay(PollInterval)];
    if highs == 0 {
      SingleRead(BusyRead(Low));
    } else {
      PollLogReads(highs - 1);
      SingleRead(BusyRead(High));
      SingleRead(Delay(PollInterval));
      BusyReadsAppend([BusyRead(High)], [Delay(PollInterval)]);
      assert [BusyRead(High)] + [Delay(PollInterval)] == head;
      BusyReadsAppend(head, PollLog(highs - 1));
    }
  }

  lemma {:induction false} PollLogQuiet(highs: nat)
    ensures Quiet(PollLog(highs))
    ensures PollLog(highs)[|PollLog(highs)| - 1] == BusyRead(Low)
  {
    if highs > 0 {
      PollLogQuiet(highs - 1);
    }
  }

  /** The wait reads High `highs` times, then Low once, ... */
  lemma WaitLogReads(highs: nat)
    ensures BusyReads(WaitLog(highs)) == Highs(highs) + [Low]
  {
    if highs == 0 {
      SingleRead(BusyRead(Low));
    } else {
      PollLogReads(highs - 1);
      SingleRead(BusyRead(High));
      BusyReadsAppend([BusyRead(High)], PollLog(highs - 1));
    }
  }

  /** ... and returns right after that reading of Low; it writes nothing and
      drives no pin. */
  lemma WaitLogQuiet(highs: nat)
    ensures Quiet(WaitLog(highs))
    ensures WaitLog(highs)[|WaitLog(highs)| - 1] == BusyRead(Low)
  {
    if highs > 0 {
      PollLogQuiet(highs - 1);
    }
  }

  // ---------------------------------------------------------------------
  // One frame of `run`

  function ChunkEvents(chunks: seq<seq<byte>>): seq<Event>
    decreases |chunks|
  {
    if chunks == [] then [] else [SpiWrite(chunks[0], true)] + ChunkEvents(chunks[1..])
  }

  /** The data/command line Low and the opcode written with outcome `ok`. */
  function OpcodeEvents(opcode: byte, ok: bool): seq<Event> {
    [Event.SetLevel(DataCommand, Low), SpiWrite([opcode], ok)]
  }

  /** The line High and the payload's chunks, all written; nothing for an
      empty payload. */
  function PayloadEvents(payload: seq<byte>): seq<Event> {
    if payload == [] then [] else [Event.SetLevel(DataCommand, High)] + ChunkEvents(Chunks(payload))
  }

  /** The busy wait of a blocking command; nothing for the others. */
  function WaitEvents(blocking: bool, highs: nat): seq<Event> {
    if blocking then WaitLog(highs) else []
  }

  /** Everything `run` does for a frame whose writes all succeed. */
  function FrameEvents(f: Frame, blocking: bool, highs: nat): seq<Event> {
    OpcodeEvents(f.opcode, true) + PayloadEvents(f.payload) + WaitEvents(blocking, highs)
  }

  /** The line High, the chunks before chunk `k`, and chunk `k` failing. */
  function FailedPayloadEvents(chunks: seq<seq<byte>>, k: nat): seq<Event>
    requires k < |chunks|
  {
    [Event.SetLevel(DataCommand, High)] + ChunkEvents(chunks[..k]) + [SpiWrite(chunks[k], false)]
  }

  /** Everything `run` does for a frame whose write number `k` fails; write 0
      is the opcode, write `k > 0` is chunk `k - 1` of the payload. */
  function FailedFrameEvents(f: Frame, k: nat): seq<Event>
    requires k <= |Chunks(f.payload)|
  {
    if k == 0 then OpcodeEvents(f.opcode, false)
    else OpcodeEvents(f.opcode, true) + FailedPayloadEvents(Chunks(f.payload), k - 1)
  }

  /** Chunk writes never read the busy line; they succeed exactly when no
      scripted failure falls among them. */
  lemma {:induction false} SendChunksOutcome(b: Bus, chunks: seq<seq<byte>>)
    ensures SendChunks(b, chunks).bus.busy == b.busy
    ensures SendChunks(b, chunks).outcome.Ok? <==> FirstFailure(b.spi, |chunks|) == |chunks|
    ensures SendChunks(b, chunks).outcome.Err? ==> SendChunks(b, chunks).outcome == Err(DataError)
    decreases |chunks|
  {
    if chunks != [] {
      FirstFailureStep(b.spi, |chunks|);
      if b.WriteOk() {
        SendChunksOutcome(b.Write(chunks[0]), chunks[1..]);
      }
    }
  }

  lemma {:induction false} SendChunksOk(b: Bus, chunks: seq<seq<byte>>)
    requires SendChunks(b, chunks).outcome.Ok?
    ensures SendChunks(b, chunks).bus.log == b.log + ChunkEvents(chunks)
    decreases |chunks|
  {
    if chunks == [] {
      assert b.log + [] == b.log;
    } else {
      var next := b.Write(chunks[0]);
      SendChunksOk(next, chunks[1..]);
      assert b.log + [SpiWrite(chunks[0], true)] + ChunkEvents(chunks[1..])
             == b.log + ([SpiWrite(chunks[0], true)] + ChunkEvents(chunks[1..]));
    }
  }

  /** A failed chunk write is the last event: the chunks before it went out,
      none after it. */
  lemma {:induction false} SendChunksErr(b: Bus, chunks: seq<seq<byte>>)
    requires SendChunks(b, chunks).outcome.Err?
    ensures var k := FirstFailure(b.spi, |chunks|);
            k < |chunks| && SendChunks(b, chunks).bus.log == b.log + ChunkEvents(chunks[..k]) + [SpiWrite(chunks[k], false)]
    decreases |chunks|
  {
    FirstFailureStep(b.spi, |chunks|);
    if !b.WriteOk() {
      assert chunks[..0] == [];
      assert b.log + [] == b.log;
    } else {
      var next := b.Write(chunks[0]);
      var e := SpiWrite(chunks[0], true);
      SendChunksErr(next, chunks[1..]);
      var j := FirstFailure(next.spi, |chunks| - 1);
      var sent := ChunkEvents(chunks[1..][..j]);
      var fail := [SpiWrite(chunks[1..][j], false)];
      assert chunks[..j + 1][0] == chunks[0] && chunks[..j + 1][1..] == chunks[1..][..j];
      assert ChunkEvents(chunks[..j + 1]) == [e] + sent;
      assert next.log == b.log + [e];
      assert (b.log + [e]) + sent + fail == b.log + ([e] + sent) + fail;
    }
  }

  /** The payload part of `run` never reads the busy line and fails exactly
      when a scripted failure falls among its chunk writes. */
  lemma PayloadOutcome(b: Bus, payload: seq<byte>)
    ensures PayloadStep(b, payload).bus.busy == b.busy
    ensures PayloadStep(b, payload).outcome.Ok? <==> FirstFailure(b.spi, |Chunks(payload)|) == |Chunks(payload)|
    ensures PayloadStep(b, payload).outcome.Err? ==> PayloadStep(b, payload).outcome == Err(DataError)
  {
    if payload != [] {
      SendChunksOutcome(b.SetLevel(DataCommand, High), Chunks(payload));
    } else {
      assert Chunks(payload) == [];
    }
  }

  lemma PayloadOk(b: Bus, payload: seq<byte>)
    requires PayloadStep(b, payload).outcome.Ok?
    ensures PayloadStep(b, payload).bus.log == b.log + PayloadEvents(payload)
  {
    if payload != [] {
      var high := Event.SetLevel(DataCommand, High);
      SendChunksOk(b.SetLevel(DataCommand, High), Chunks(payload));
      assert b.log + [high] + ChunkEvents(Chunks(payload)) == b.log + ([high] + ChunkEvents(Chunks(payload)));
    } else {
      assert b.log + [] == b.log;
    }
  }

  lemma PayloadErr(b: Bus, payload: seq<byte>)
    requires PayloadStep(b, payload).outcome.Err?
    ensures var k := FirstFailure(b.spi, |Chunks(payload)|);
            k < |Chunks(payload)| && PayloadStep(b, payload).bus.log == b.log + FailedPayloadEvents(Chunks(payload), k)
  {
    var chunks := Chunks(payload);
    var high := Event.SetLevel(DataCommand, High);
    SendChunksErr(b.SetLevel(DataCommand, High), chunks);
    var k := FirstFailure(b.spi, |chunks|);
    assert b.log + [high] + ChunkEvents(chunks[..k]) == b.log + ([high] + ChunkEvents(chunks[..k]));
    assert b.log + [high] + ChunkEvents(chunks[..k]) + [SpiWrite(chunks[k], false)]
           == b.log + ([high] + ChunkEvents(chunks[..k]) + [SpiWrite(chunks[k], false)]);
  }

  /** The opening of every frame: the line Low and the opcode. */
  lemma OpenFrame(b: Bus, opcode: byte)
    ensures b.SetLevel(DataCommand, Low).Write([opcode]).log == b.log + OpcodeEvents(opcode, b.WriteOk())
    ensures b.SetLevel(DataCommand, Low).Write([opcode]).busy == b.busy
    ensures b.SetLevel(DataCommand, Low).Write([opcode]).spi == if b.spi == [] then [] else b.spi[1..]
  {
    assert b.log + [Event.SetLevel(DataCommand, Low)] + [SpiWrite([opcode], b.WriteOk())]
           == b.log + ([Event.SetLevel(DataCommand, Low)] + [SpiWrite([opcode], b.WriteOk())]);
  }

  /** The outcome of `run` is decided by the first failing write of its
      frame: none gives `Ok`, the opcode gives the command error, a chunk the
      data error. */
  lemma RunFrameOutcome(b: Bus, f: Frame, blocking: bool)
    ensures var s := RunFrame(b, f, blocking);
            var n := |Chunks(f.payload)|;
            var k := FirstFailure(b.spi, 1 + n);
            && (s.outcome.Ok? <==> k == 1 + n)
            && (s.outcome == Err(CommandError) <==> k == 0)
            && (s.outcome == Err(DataError) <==> 0 < k <= n)
  {
    FirstFailureStep(b.spi, 1 + |Chunks(f.payload)|);
    if b.WriteOk() {
      OpenFrame(b, f.opcode);
      PayloadOutcome(b.SetLevel(DataCommand, Low).Write([f.opcode]), f.payload);
    }
  }

  /** A frame that got through appends exactly its events to the log; the
      busy line is read only by a blocking command. */
  lemma RunFrameOk(b: Bus, f: Frame, blocking: bool)
    requires RunFrame(b, f, blocking).outcome.Ok?
    ensures RunFrame(b, f, blocking).bus.log == b.log + FrameEvents(f, blocking, LeadingHigh(b.busy))
    ensures RunFrame(b, f, blocking).bus.busy
            == if blocking then DropReads(b.busy, LeadingHigh(b.busy) + 1) else b.busy
  {
    var b2 := b.SetLevel(DataCommand, Low).Write([f.opcode]);
    OpenFrame(b, f.opcode);
    PayloadOk(b2, f.payload);
    PayloadOutcome(b2, f.payload);
    var s := PayloadStep(b2, f.payload);
    var opening := OpcodeEvents(f.opcode, true);
    var data := PayloadEvents(f.payload);
    assert b.log + opening + data == b.log + (opening + data);
    if blocking {
      AwaitReadyLog(s.bus);
      assert b.log + opening + data + WaitEvents(blocking, LeadingHigh(b.busy))
             == b.log + (opening + data + WaitEvents(blocking, LeadingHigh(b.busy)));
    } else {
      assert opening + data + [] == opening + data;
    }
  }

  /** A frame that failed appends its events up to and including the failed
      write, and does not read the busy line. */
  lemma RunFrameErr(b: Bus, f: Frame, blocking: bool)
    requires RunFrame(b, f, blocking).outcome.Err?
    ensures var k := FirstFailure(b.spi, 1 + |Chunks(f.payload)|);
            && k <= |Chunks(f.payload)|
            && RunFrame(b, f, blocking).bus.log == b.log + FailedFrameEvents(f, k)
            && RunFrame(b, f, blocking).bus.busy == b.busy
  {
    FirstFailureStep(b.spi, 1 + |Chunks(f.payload)|);
    OpenFrame(b, f.opcode);
    if b.WriteOk() {
      var b2 := b.SetLevel(DataCommand, Low).Write([f.opcode]);
      PayloadErr(b2, f.payload);
      PayloadOutcome(b2, f.payload);
      var k := FirstFailure(b2.spi, |Chunks(f.payload)|);
      assert b.log + OpcodeEvents(f.opcode, true) + FailedPayloadEvents(Chunks(f.payload), k)
             == b.log + (OpcodeEvents(f.opcode, true) + FailedPayloadEvents(Chunks(f.payload), k));
    }
  }

  /** A one-event log, one view at a time. */
  lemma SingleWrite(e: Event)
    ensures Writes([e]) == if e.SpiWrite? then [e.data] else []
  {
    assert [e][..0] == [];
  }

  lemma SingleRead(e: Event)
    ensures BusyReads([e]) == if e.BusyRead? then [e.read] else []
  {
    assert [e][..0] == [];
  }

  lemma SinglePin(e: Event, pin: OutputPin)
    ensures PinLevels([e], pin) == if e.SetLevel? && e.pin == pin then [e.level] else []
  {
    assert [e][..0] == [];
  }

  lemma SingleObserve(e: Event, v: PanelView)
    ensures ObserveAll(v, [e]) == Observe(v, e)
  {
    assert [e][..0] == [];
  }

  lemma OpcodeProjections(opcode: byte, ok: bool)
    ensures Writes(OpcodeEvents(opcode, ok)) == [[opcode]]
    ensures PinLevels(OpcodeEvents(opcode, ok), DataCommand) == [Low]
    ensures PinLevels(OpcodeEvents(opcode, ok), Reset) == []
    ensures BusyReads(OpcodeEvents(opcode, ok)) == []
  {
    var low := Event.SetLevel(DataCommand, Low);
    var write := SpiWrite([opcode], ok);
    assert OpcodeEvents(opcode, ok) == [low] + [write];
    WritesAppend([low], [write]);
    SingleWrite(low);
    SingleWrite(write);
    PinLevelsAppend([low], [write], DataCommand);
    SinglePin(low, DataCommand);
    SinglePin(write, DataCommand);
    PinLevelsAppend([low], [write], Reset);
    SinglePin(low, Reset);
    SinglePin(write, Reset);
    BusyReadsAppend([low], [write]);
    SingleRead(low);
    SingleRead(write);
  }

  /** A successful opcode write opens a frame with an empty payload. */
  lemma OpcodeDelivers(opcode: byte, v: PanelView)
    ensures ObserveAll(v, OpcodeEvents(opcode, true)) == v.(dc := Low, received := v.received + [Frame(opcode, [])])
  {
    var low := Event.SetLevel(DataCommand, Low);
    var write := SpiWrite([opcode], true);
    assert OpcodeEvents(opcode, true) == [low] + [write];
    ObserveAllAppend(v, [low], [write]);
    SingleObserve(low, v);
    SingleObserve(write, Observe(v, low));
    assert Opcodes([opcode]) == [Frame(opcode, [])];
  }

  /** The chunk writes put exactly the chunks on the bus, ... */
  lemma {:induction false} ChunkWrites(chunks: seq<seq<byte>>)
    ensures Writes(ChunkEvents(chunks)) == chunks
    decreases |chunks|
  {
    if chunks != [] {
      var e := SpiWrite(chunks[0], true);
      ChunkWrites(chunks[1..]);
      WritesAppend([e], ChunkEvents(chunks[1..]));
      SingleWrite(e);
      assert [chunks[0]] + chunks[1..] == chunks;
    }
  }

  /** ... drive no pin ... */
  lemma {:induction false} ChunkPins(chunks: seq<seq<byte>>, pin: OutputPin)
    ensures PinLevels(ChunkEvents(chunks), pin) == []
    decreases |chunks|
  {
    if chunks != [] {
      var e := SpiWrite(chunks[0], true);
      ChunkPins(chunks[1..], pin);
      PinLevelsAppend([e], ChunkEvents(chunks[1..]), pin);
      SinglePin(e, pin);
    }
  }

  /** ... and read nothing. */
  lemma {:induction false} ChunkReads(chunks: seq<seq<byte>>)
    ensures BusyReads(ChunkEvents(chunks)) == []
    decreases |chunks|
  {
    if chunks != [] {
      var e := SpiWrite(chunks[0], true);
      ChunkReads(chunks[1..]);
      BusyReadsAppend([e], ChunkEvents(chunks[1..]));
      SingleRead(e);
    }
  }

  /** With the line High, each chunk extends the payload of the last frame. */
  lemma {:induction false} ObserveChunks(v: PanelView, chunks: seq<seq<byte>>)
    requires v.dc == High && v.received != []
    ensures var n := |v.received|;
            ObserveAll(v, ChunkEvents(chunks))
            == v.(received := v.received[..n - 1] + [v.received[n - 1].(payload := v.received[n - 1].payload + Flatten(chunks))])
    decreases |chunks|
  {
    var n := |v.received|;
    if chunks == [] {
      assert Flatten(chunks) == [];
      assert v.received[n - 1].(payload := v.received[n - 1].payload + []) == v.received[n - 1];
      assert v.received[..n - 1] + [v.received[n - 1]] == v.received;
    } else {
      var e := SpiWrite(chunks[0], true);
      var w := Observe(v, e);
      ObserveAllAppend(v, [e], ChunkEvents(chunks[1..]));
      SingleObserve(e, v);
      ObserveChunks(w, chunks[1..]);
      assert w.received[..n - 1] == v.received[..n - 1];
      assert v.received[n - 1].payload + Flatten(chunks)
             == v.received[n - 1].payload + chunks[0] + Flatten(chunks[1..]);
    }
  }

  lemma PayloadWrites(payload: seq<byte>)
    ensures Writes(PayloadEvents(payload)) == Chunks(payload)
  {
    if payload != [] {
      var high := Event.SetLevel(DataCommand, High);
      ChunkWrites(Chunks(payload));
      WritesAppend([high], ChunkEvents(Chunks(payload)));
      SingleWrite(high);
    } else {
      assert Chunks(payload) == [];
    }
  }

  lemma PayloadPins(payload: seq<byte>)
    ensures PinLevels(PayloadEvents(payload), DataCommand) == if payload == [] then [] else [High]
    ensures PinLevels(PayloadEvents(payload), Reset) == []
  {
    if payload != [] {
      var high := Event.SetLevel(DataCommand, High);
      ChunkPins(Chunks(payload), DataCommand);
      ChunkPins(Chunks(payload), Reset);
      PinLevelsAppend([high], ChunkEvents(Chunks(payload)), DataCommand);
      PinLevelsAppend([high], ChunkEvents(Chunks(payload)), Reset);
      SinglePin(high, DataCommand);
      SinglePin(high, Reset);
    }
  }

  lemma PayloadReads(payload: seq<byte>)
    ensures BusyReads(PayloadEvents(payload)) == []
  {
    if payload != [] {
      var high := Event.SetLevel(DataCommand, High);
      ChunkReads(Chunks(payload));
      BusyReadsAppend([high], ChunkEvents(Chunks(payload)));
      SingleRead(high);
    }
  }

  /** After the opcode, the payload's chunks complete the frame it opened. */
  lemma PayloadDelivers(payload: seq<byte>, v: PanelView, last: Frame)
    requires v.received != [] && v.received[|v.received| - 1] == last
    ensures ObserveAll(v, PayloadEvents(payload)).received
            == v.received[..|v.received| - 1] + [last.(payload := last.payload + payload)]
  {
    if payload != [] {
      var high := Event.SetLevel(DataCommand, High);
      ObserveAllAppend(v, [high], ChunkEvents(Chunks(payload)));
      SingleObserve(high, v);
      ObserveChunks(Observe(v, high), Chunks(payload));
      ChunksPartition(payload);
    } else {
      assert last.(payload := last.payload + payload) == last;
      assert v.received[..|v.received| - 1] + [last] == v.received;
    }
  }

  lemma WaitEventsQuiet(blocking: bool, highs: nat, v: PanelView)
    ensures Writes(WaitEvents(blocking, highs)) == []
    ensures forall pin :: PinLevels(WaitEvents(blocking, highs), pin) == []
    ensures ObserveAll(v, WaitEvents(blocking, highs)) == v
  {
    if blocking {
      WaitLogQuiet(highs);
    }
    QuietEvents(WaitEvents(blocking, highs), v);
  }

  /** A frame whose writes all succeed puts the opcode and then the payload's
      chunks on the bus, ... */
  lemma FrameWrites(f: Frame, blocking: bool, highs: nat)
    ensures Writes(FrameEvents(f, blocking, highs)) == [[f.opcode]] + Chunks(f.payload)
  {
    var opening := OpcodeEvents(f.opcode, true);
    var data := PayloadEvents(f.payload);
    OpcodeProjections(f.opcode, true);
    PayloadWrites(f.payload);
    WaitEventsQuiet(blocking, highs, PanelView(Low, []));
    WritesAppend(opening, data);
    WritesAppend(opening + data, WaitEvents(blocking, highs));
  }

  /** ... drives the data/command line Low and, for a payload, High, never
      touches the reset pin, ... */
  lemma FramePins(f: Frame, blocking: bool, highs: nat)
    ensures PinLevels(FrameEvents(f, blocking, highs), DataCommand) == [Low] + (if f.payload == [] then [] else [High])
    ensures PinLevels(FrameEvents(f, blocking, highs), Reset) == []
  {
    var opening := OpcodeEvents(f.opcode, true);
    var data := PayloadEvents(f.payload);
    OpcodeProjections(f.opcode, true);
    PayloadPins(f.payload);
    WaitEventsQuiet(blocking, highs, PanelView(Low, []));
    PinLevelsAppend(opening, data, DataCommand);
    PinLevelsAppend(opening + data, WaitEvents(blocking, highs), DataCommand);
    PinLevelsAppend(opening, data, Reset);
    PinLevelsAppend(opening + data, WaitEvents(blocking, highs), Reset);
  }

  /** ... reads the busy line only when it blocks, ... */
  lemma FrameReads(f: Frame, blocking: bool, highs: nat)
    ensures BusyReads(FrameEvents(f, blocking, highs)) == if blocking then Highs(highs) + [Low] else []
  {
    var opening := OpcodeEvents(f.opcode, true);
    var data := PayloadEvents(f.payload);
    OpcodeProjections(f.opcode, true);
    PayloadReads(f.payload);
    if blocking {
      WaitLogReads(highs);
    }
    BusyReadsAppend(opening, data);
    BusyReadsAppend(opening + data, WaitEvents(blocking, highs));
  }

  /** ... and delivers exactly that frame to the panel. */
  lemma FrameDelivers(f: Frame, blocking: bool, highs: nat, v: PanelView)
    ensures ObserveAll(v, FrameEvents(f, blocking, highs)).received == v.received + [f]
  {
    var opening := OpcodeEvents(f.opcode, true);
    var data := PayloadEvents(f.payload);
    OpcodeDelivers(f.opcode, v);
    var v1 := ObserveAll(v, opening);
    assert v1.received[..|v1.received| - 1] == v.received;
    PayloadDelivers(f.payload, v1, Frame(f.opcode, []));
    assert Frame(f.opcode, []).(payload := [] + f.payload) == f;
    WaitEventsQuiet(blocking, highs, ObserveAll(v1, data));
    ObserveAllAppend(v, opening, data);
    ObserveAllAppend(v, opening + data, WaitEvents(blocking, highs));
  }

  /** A frame that fails ends the log with the failed write, ... */
  lemma FailedFrameEnds(f: Frame, k: nat)
    requires k <= |Chunks(f.payload)|
    ensures EndsInFailedWrite(FailedFrameEvents(f, k))
  {
  }

  lemma FailedPayloadQuiet(chunks: seq<seq<byte>>, j: nat)
    requires j < |chunks|
    ensures PinLevels(FailedPayloadEvents(chunks, j), Reset) == []
    ensures BusyReads(FailedPayloadEvents(chunks, j)) == []
  {
    var v := PanelView(Low, []);
    var high := Event.SetLevel(DataCommand, High);
    var fail := SpiWrite(chunks[j], false);
    var sent := ChunkEvents(chunks[..j]);
    ChunkPins(chunks[..j], Reset);
    ChunkReads(chunks[..j]);
    SinglePin(high, Reset);
    SinglePin(fail, Reset);
    SingleRead(high);
    SingleRead(fail);
    PinLevelsAppend([high], sent, Reset);
    PinLevelsAppend([high] + sent, [fail], Reset);
    BusyReadsAppend([high], sent);
    BusyReadsAppend([high] + sent, [fail]);
  }

  /** ... never touches the reset pin and never reads the busy line. */
  lemma FailedFrameQuiet(f: Frame, k: nat)
    requires k <= |Chunks(f.payload)|
    ensures PinLevels(FailedFrameEvents(f, k), Reset) == []
    ensures BusyReads(FailedFrameEvents(f, k)) == []
  {
    OpcodeProjections(f.opcode, k != 0);
    if k > 0 {
      var rest := FailedPayloadEvents(Chunks(f.payload), k - 1);
      FailedPayloadQuiet(Chunks(f.payload), k - 1);
      PinLevelsAppend(OpcodeEvents(f.opcode, true), rest, Reset);
      BusyReadsAppend(OpcodeEvents(f.opcode, true), rest);
    }
  }

  // ---------------------------------------------------------------------
  // Lists of commands

  /** The frame of each command of a list. */
  function Frames(cmds: seq<Command>): seq<Frame> {
    seq(|cmds|, i requires 0 <= i < |cmds| => GetBytes(cmds[i]))
  }

  /** A chain of commands only appends to the log. */
  lemma {:induction false} RunAllExtends(b: Bus, cmds: seq<Command>)
    ensures |b.log| <= |RunAll(b, cmds).bus.log|
    ensures RunAll(b, cmds).bus.log[..|b.log|] == b.log
    decreases |cmds|
  {
    if cmds != [] {
      var f := GetBytes(cmds[0]);
      var s1 := RunSpec(b, cmds[0]);
      if s1.outcome.Err? {
        RunFrameErr(b, f, IsBlocking(cmds[0]));
        var k := FirstFailure(b.spi, 1 + |Chunks(f.payload)|);
        assert (b.log + FailedFrameEvents(f, k))[..|b.log|] == b.log;
      } else {
        RunFrameOk(b, f, IsBlocking(cmds[0]));
        RunAllExtends(s1.bus, cmds[1..]);
        var events := FrameEvents(f, IsBlocking(cmds[0]), LeadingHigh(b.busy));
        assert (b.log + events)[..|b.log|] == b.log;
      }
    }
  }

  /** A chain of commands never touches the reset pin. */
  lemma {:induction false} RunAllKeepsReset(b: Bus, cmds: seq<Command>)
    ensures PinLevels(RunAll(b, cmds).bus.log, Reset) == PinLevels(b.log, Reset)
    decreases |cmds|
  {
    if cmds != [] {
      var f := GetBytes(cmds[0]);
      var s1 := RunSpec(b, cmds[0]);
      if s1.outcome.Err? {
        RunFrameErr(b, f, IsBlocking(cmds[0]));
        var k := FirstFailure(b.spi, 1 + |Chunks(f.payload)|);
        FailedFrameQuiet(f, k);
        PinLevelsAppend(b.log, FailedFrameEvents(f, k), Reset);
      } else {
        var events := FrameEvents(f, IsBlocking(cmds[0]), LeadingHigh(b.busy));
        RunFrameOk(b, f, IsBlocking(cmds[0]));
        FramePins(f, IsBlocking(cmds[0]), LeadingHigh(b.busy));
        PinLevelsAppend(b.log, events, Reset);
        RunAllKeepsReset(s1.bus, cmds[1..]);
      }
    }
  }

  /** When every command of a chain succeeds, the panel has received the
      frames of the list, in order. */
  lemma {:induction false} RunAllDelivers(b: Bus, cmds: seq<Command>)
    requires RunAll(b, cmds).outcome.Ok?
    ensures View(RunAll(b, cmds).bus.log).received == View(b.log).received + Frames(cmds)
    decreases |cmds|
  {
    if cmds != [] {
      RunDelivers(b, cmds[0]);
      RunAllDelivers(RunSpec(b, cmds[0]).bus, cmds[1..]);
      assert Frames(cmds) == [GetBytes(cmds[0])] + Frames(cmds[1..]);
    }
  }

  /** A successful `run(c)` delivers the frame of `c` to the panel. */
  lemma RunDelivers(b: Bus, c: Command)
    requires RunSpec(b, c).outcome.Ok?
    ensures View(RunSpec(b, c).bus.log).received == View(b.log).received + [GetBytes(c)]
  {
    var f := GetBytes(c);
    var events := FrameEvents(f, IsBlocking(c), LeadingHigh(b.busy));
    RunFrameOk(b, f, IsBlocking(c));
    FrameDelivers(f, IsBlocking(c), LeadingHigh(b.busy), View(b.log));
    ViewAppend(b.log, events);
  }

  /** When a command of a chain fails, the log ends with the failed write
      and the error is one of the two of `run`. */
  lemma {:induction false} RunAllFails(b: Bus, cmds: seq<Command>)
    requires RunAll(b, cmds).outcome.Err?
    ensures EndsInFailedWrite(RunAll(b, cmds).bus.log)
    ensures RunAll(b, cmds).outcome == Err(CommandError) || RunAll(b, cmds).outcome == Err(DataError)
    decreases |cmds|
  {
    var f := GetBytes(cmds[0]);
    var s1 := RunSpec(b, cmds[0]);
    if s1.outcome.Err? {
      RunFrameErr(b, f, IsBlocking(cmds[0]));
      RunFrameOutcome(b, f, IsBlocking(cmds[0]));
      var k := FirstFailure(b.spi, 1 + |Chunks(f.payload)|);
      FailedFrameEnds(f, k);
    } else {
      RunAllFails(s1.bus, cmds[1..]);
    }
  }

  /** A chain that fails stops at the first failing command: the commands
      before it all succeeded and none after it was issued. */
  lemma {:induction false} RunAllStops(b: Bus, cmds: seq<Command>)
    requires RunAll(b, cmds).outcome.Err?
    ensures exists j :: 0 <= j < |cmds| && RunAll(b, cmds[..j]).outcome.Ok?
                        && RunAll(b, cmds) == RunSpec(RunAll(b, cmds[..j]).bus, cmds[j])
    decreases |cmds|
  {
    var s1 := RunSpec(b, cmds[0]);
    if s1.outcome.Err? {
      assert cmds[..0] == [];
    } else {
      RunAllStops(s1.bus, cmds[1..]);
      var j :| 0 <= j < |cmds[1..]| && RunAll(s1.bus, cmds[1..][..j]).outcome.Ok?
               && RunAll(s1.bus, cmds[1..]) == RunSpec(RunAll(s1.bus, cmds[1..][..j]).bus, cmds[1..][j]);
      assert cmds[..j + 1][0] == cmds[0] && cmds[..j + 1][1..] == cmds[1..][..j];
      assert RunAll(b, cmds[..j + 1]) == RunAll(s1.bus, cmds[1..][..j]);
    }
  }

  // ---------------------------------------------------------------------
  // One command

  /** `run(c)` puts the opcode on the bus by itself and, when it succeeds,
      then the payload in chunks of at most 4096 bytes that rebuild it. */
  lemma RunWrites(b: Bus, c: Command)
    requires RunSpec(b, c).outcome.Ok?
    ensures Writes(RunSpec(b, c).bus.log) == Writes(b.log) + ([[GetBytes(c).opcode]] + Chunks(GetBytes(c).payload))
  {
    var f := GetBytes(c);
    RunFrameOk(b, f, IsBlocking(c));
    FrameWrites(f, IsBlocking(c), LeadingHigh(b.busy));
    WritesAppend(b.log, FrameEvents(f, IsBlocking(c), LeadingHigh(b.busy)));
  }

  /** A successful `run(c)` drives the data/command line Low, then High only
      when there is a payload to send. */
  lemma RunDataCommandLine(b: Bus, c: Command)
    requires RunSpec(b, c).outcome.Ok?
    ensures PinLevels(RunSpec(b, c).bus.log, DataCommand)
            == PinLevels(b.log, DataCommand) + ([Low] + (if GetBytes(c).payload == [] then [] else [High]))
  {
    var f := GetBytes(c);
    RunFrameOk(b, f, IsBlocking(c));
    FramePins(f, IsBlocking(c), LeadingHigh(b.busy));
    PinLevelsAppend(b.log, FrameEvents(f, IsBlocking(c), LeadingHigh(b.busy)), DataCommand);
  }

  /** The busy line is read only by a blocking command whose writes all went
      through: High as many times as the script says, then Low once. */
  lemma RunBusyReads(b: Bus, c: Command)
    ensures BusyReads(RunSpec(b, c).bus.log)
            == BusyReads(b.log)
               + (if IsBlocking(c) && RunSpec(b, c).outcome.Ok? then Highs(LeadingHigh(b.busy)) + [Low] else [])
  {
    var f := GetBytes(c);
    if RunSpec(b, c).outcome.Ok? {
      RunFrameOk(b, f, IsBlocking(c));
      FrameReads(f, IsBlocking(c), LeadingHigh(b.busy));
      BusyReadsAppend(b.log, FrameEvents(f, IsBlocking(c), LeadingHigh(b.busy)));
    } else {
      RunFrameErr(b, f, IsBlocking(c));
      var k := FirstFailure(b.spi, 1 + |Chunks(f.payload)|);
      FailedFrameQuiet(f, k);
      BusyReadsAppend(b.log, FailedFrameEvents(f, k));
      assert BusyReads(b.log) + [] == BusyReads(b.log);
    }
  }

  // ---------------------------------------------------------------------
  // The fixed sequences

  /** `reset`: the reset line High, Low, High with its three pauses. */
  const ResetEvents: seq<Event> := [
    Event.SetLevel(Reset, High), Delay(30),
    Event.SetLevel(Reset, Low), Delay(3),
    Event.SetLevel(Reset, High), Delay(30)
  ]

  lemma ResetLog(b: Bus)
    ensures ResetSpec(b) == b.(log := b.log + ResetEvents)
  {
  }

  /** The pulse drives the reset pin High, Low, High and nothing else. */
  lemma ResetPins(b: Bus, pin: OutputPin)
    ensures PinLevels(ResetSpec(b).log, pin)
            == PinLevels(b.log, pin) + (if pin == Reset then [High, Low, High] else [])
  {
    ResetLog(b);
    ResetEventsPins(pin);
    PinLevelsAppend(b.log, ResetEvents, pin);
  }

  lemma ResetEventsPins(pin: OutputPin)
    ensures PinLevels(ResetEvents, pin) == if pin == Reset then [High, Low, High] else []
  {
    var p1 := [Event.SetLevel(Reset, High)];
    var p2 := p1 + [Delay(30)];
    var p3 := p2 + [Event.SetLevel(Reset, Low)];
    var p4 := p3 + [Delay(3)];
    var p5 := p4 + [Event.SetLevel(Reset, High)];
    var p6 := p5 + [Delay(30)];
    SinglePin(Event.SetLevel(Reset, High), pin);
    PinStep(p1, Delay(30), pin);
    PinStep(p2, Event.SetLevel(Reset, Low), pin);
    PinStep(p3, Delay(3), pin);
    PinStep(p4, Event.SetLevel(Reset, High), pin);
    PinStep(p5, Delay(30), pin);
    ResetEventsSplit();
  }

  lemma ResetEventsSplit()
    ensures ResetEvents
            == [Event.SetLevel(Reset, High)] + [Delay(30)] + [Event.SetLevel(Reset, Low)] + [Delay(3)]
               + [Event.SetLevel(Reset, High)] + [Delay(30)]
  {
  }

  lemma PinStep(log: seq<Event>, e: Event, pin: OutputPin)
    ensures PinLevels(log + [e], pin)
            == PinLevels(log, pin) + (if e.SetLevel? && e.pin == pin then [e.level] else [])
  {
    assert (log + [e])[..|log|] == log;
  }

  /** The panel sees nothing of the pulse. */
  lemma ResetView(b: Bus)
    ensures View(ResetSpec(b).log) == View(b.log)
    ensures Writes(ResetSpec(b).log) == Writes(b.log)
  {
    ResetLog(b);
    assert Quiet([Delay(30)]) && Quiet([Delay(3)]);
    var e := ResetEvents;
    forall i | 0 <= i < |e| ensures e[i].SetLevel? ==> e[i].pin == Reset {
    }
    ResetEventsView(e, View(b.log));
    ViewAppend(b.log, e);
    WritesAppend(b.log, e);
  }

  /** Events that only drive the reset pin or pause leave the view alone. */
  lemma {:induction false} ResetEventsView(events: seq<Event>, v: PanelView)
    requires forall i :: 0 <= i < |events| ==> (events[i].SetLevel? && events[i].pin == Reset) || events[i].Delay?
    ensures ObserveAll(v, events) == v
    ensures Writes(events) == []
    decreases |events|
  {
    if events != [] {
      ResetEventsView(events[..|events| - 1], v);
    }
  }

  /** A pause is invisible to the panel and to the pins. */
  lemma PauseQuiet(b: Bus, ms: nat, pin: OutputPin)
    ensures View(b.Pause(ms).log) == View(b.log)
    ensures PinLevels(b.Pause(ms).log, pin) == PinLevels(b.log, pin)
  {
    PinStep(b.log, Delay(ms), pin);
    ViewAppend(b.log, [Delay(ms)]);
    SingleObserve(Delay(ms), View(b.log));
  }

  /** A one-command chain is the command. */
  lemma RunOne(b: Bus, c: Command)
    ensures RunAll(b, [c]) == RunSpec(b, c)
  {
    assert [c][1..] == [];
  }

  /** The fifteen commands of `init`, after the reset pulse. */
  function InitCommands(): seq<Command> {
    [Unknown0x12] + InitConfiguration
  }

  /** When the soft-start opcode write fails, `init` stops right there:
      after the reset pulse, DC Low and the failed write of 0x12, with the
      command error, and no sleep, no busy reading and no further command. */
  lemma InitSoftStartFails(b: Bus)
    requires b.spi != [] && !b.spi[0]
    ensures InitSpec(b).outcome == Err(CommandError)
    ensures InitSpec(b).bus.log == b.log + ResetEvents + OpcodeEvents(0x12, false)
    ensures InitSpec(b).bus.spi == b.spi[1..] && InitSpec(b).bus.busy == b.busy
  {
    ResetLog(b);
    var r := ResetSpec(b);
    OpenFrame(r, 0x12);
    assert r.log + OpcodeEvents(0x12, false) == b.log + ResetEvents + OpcodeEvents(0x12, false);
  }

  /** A successful `init` delivers, in order, the soft start and the
      fourteen configuration commands. */
  lemma InitDelivers(b: Bus)
    requires InitSpec(b).outcome.Ok?
    ensures View(InitSpec(b).bus.log).received == View(b.log).received + Frames(InitCommands())
  {
    ResetView(b);
    PausedChainDelivers(ResetSpec(b), Unknown0x12, 300, InitConfiguration);
  }

  /** One command, a pause, then a chain: the panel receives the frames of
      the command and of the chain. */
  lemma PausedChainDelivers(b: Bus, c: Command, ms: nat, cmds: seq<Command>)
    requires RunSpec(b, c).outcome.Ok?
    requires RunAll(RunSpec(b, c).bus.Pause(ms), cmds).outcome.Ok?
    ensures View(RunAll(RunSpec(b, c).bus.Pause(ms), cmds).bus.log).received
            == View(b.log).received + Frames([c] + cmds)
  {
    assert Frames([c] + cmds) == [GetBytes(c)] + Frames(cmds) by {
      forall i | 0 <= i < |cmds| + 1 ensures Frames([c] + cmds)[i] == ([GetBytes(c)] + Frames(cmds))[i] {
        if i > 0 {
          assert ([c] + cmds)[i] == cmds[i - 1];
        }
      }
    }
    assert View(b.log).received + [GetBytes(c)] + Frames(cmds)
           == View(b.log).received + ([GetBytes(c)] + Frames(cmds));
    var b1 := RunSpec(b, c).bus.Pause(ms);
    RunDelivers(b, c);
    PauseQuiet(RunSpec(b, c).bus, ms, Reset);
    RunAllDelivers(b1, cmds);
  }

  /** The frames `init` sends, byte for byte. */
  lemma InitFrames()
    ensures Frames(InitCommands()) == [
      Frame(0x12, []), Frame(0x46, [0xF7]), Frame(0x47, [0xF7]),
      Frame(0x01, [0xDF, 0x01, 0x00]), Frame(0x03, [0x00]),
      Frame(0x04, [0x41, 0xA8, 0x32]), Frame(0x11, [0x03]), Frame(0x3C, [0x00]),
      Frame(0x0C, [0xAE, 0xC7, 0xC3, 0xC0, 0xC0]), Frame(0x18, [0x80]),
      Frame(0x2C, [0x44]),
      Frame(0x37, [0x00, 0x00, 0x00, 0x00, 0x00, 0x00, 0x00, 0x00, 0x00, 0x00]),
      Frame(0x44, [0x00, 0x00, 0x17, 0x01]), Frame(0x45, [0x00, 0x00, 0xDF, 0x01]),
      Frame(0x22, [0xCF])
    ]
  {
  }

  /** Whatever happens on the bus, `init` pulses the reset line High, Low,
      High and the chain after it leaves that line alone. */
  lemma InitResetPin(b: Bus)
    ensures PinLevels(InitSpec(b).bus.log, Reset) == PinLevels(b.log, Reset) + [High, Low, High]
  {
    var b0 := ResetSpec(b);
    var s := RunSpec(b0, Unknown0x12);
    ResetPins(b, Reset);
    RunOne(b0, Unknown0x12);
    RunAllKeepsReset(b0, [Unknown0x12]);
    if s.outcome.Ok? {
      PauseQuiet(s.bus, 300, Reset);
      RunAllKeepsReset(s.bus.Pause(300), InitConfiguration);
    }
  }

  /** A failing `init` stops at the failed write with one of the two errors
      of `run`. */
  lemma InitFails(b: Bus)
    requires InitSpec(b).outcome.Err?
    ensures EndsInFailedWrite(InitSpec(b).bus.log)
    ensures InitSpec(b).outcome == Err(CommandError) || InitSpec(b).outcome == Err(DataError)
  {
    var b0 := ResetSpec(b);
    var s := RunSpec(b0, Unknown0x12);
    RunOne(b0, Unknown0x12);
    if s.outcome.Err? {
      RunAllFails(b0, [Unknown0x12]);
    } else {
      RunAllFails(s.bus.Pause(300), InitConfiguration);
    }
  }

  /** A successful `draw` delivers its ten commands in order. */
  lemma DrawDelivers(b: Bus, register1: seq<byte>, register2: seq<byte>)
    requires DrawSpec(b, register1, register2).outcome.Ok?
    ensures View(DrawSpec(b, register1, register2).bus.log).received
            == View(b.log).received + Frames(DrawCommands(register1, register2))
  {
    RunAllDelivers(b, DrawCommands(register1, register2));
  }

  /** The frames `draw` sends: the two planes go to registers 0x24 and 0x26
      between cursor resets, then the 105-byte waveform table, the update
      sequence and the refresh. */
  lemma DrawFrames(register1: seq<byte>, register2: seq<byte>)
    ensures Frames(DrawCommands(register1, register2)) == [
      Frame(0x49, [0x00]), Frame(0x4E, [0x00, 0x00]), Frame(0x4F, [0x00, 0x00]),
      Frame(0x24, register1), Frame(0x4E, [0x00, 0x00]), Frame(0x4F, [0x00, 0x00]),
      Frame(0x26, register2), Frame(0x32, LookUpTable), Frame(0x22, [0xCF]), Frame(0x20, [])
    ]
    ensures |LookUpTable| == 105
  {
  }

  /** A failing `draw` stops at the failed write and runs nothing after the
      failing command. */
  lemma DrawFails(b: Bus, register1: seq<byte>, register2: seq<byte>)
    requires DrawSpec(b, register1, register2).outcome.Err?
    ensures EndsInFailedWrite(DrawSpec(b, register1, register2).bus.log)
    ensures var cmds := DrawCommands(register1, register2);
            exists j :: 0 <= j < |cmds| && RunAll(b, cmds[..j]).outcome.Ok?
                        && DrawSpec(b, register1, register2) == RunSpec(RunAll(b, cmds[..j]).bus, cmds[j])
  {
    RunAllFails(b, DrawCommands(register1, register2));
    RunAllStops(b, DrawCommands(register1, register2));
  }

  /** A successful `sleep` delivers its three commands. */
  lemma SleepDelivers(b: Bus)
    requires SleepSpec(b).outcome.Ok?
    ensures View(SleepSpec(b).bus.log).received
            == View(b.log).received + [Frame(0x50, [0xF7]), Frame(0x02, []), Frame(0x07, [0xA5])]
  {
    RunAllDelivers(b, SleepCommands);
    SleepLinesQuiet(RunAll(b, SleepCommands).bus);
    SleepFrames();
  }

  lemma SleepFrames()
    ensures Frames(SleepCommands) == [Frame(0x50, [0xF7]), Frame(0x02, []), Frame(0x07, [0xA5])]
  {
  }

  /** Driving the two lines Low after the commands sends the panel nothing. */
  lemma SleepLinesQuiet(b: Bus)
    ensures View(b.SetLevel(DataCommand, Low).SetLevel(Reset, Low).log).received == View(b.log).received
  {
    var b1 := b.SetLevel(DataCommand, Low);
    ViewAppend(b.log, [Event.SetLevel(DataCommand, Low)]);
    SingleObserve(Event.SetLevel(DataCommand, Low), View(b.log));
    ViewAppend(b1.log, [Event.SetLevel(Reset, Low)]);
    SingleObserve(Event.SetLevel(Reset, Low), View(b1.log));
  }

  /** A successful `sleep` ends by driving the data/command line and then
      the reset line Low. */
  lemma SleepEnds(b: Bus)
    requires SleepSpec(b).outcome.Ok?
    ensures var log := SleepSpec(b).bus.log;
            |log| >= 2 && log[|log| - 2..] == [Event.SetLevel(DataCommand, Low), Event.SetLevel(Reset, Low)]
  {
  }

  /** A failing `sleep` stops at the failed write and never drives the
      reset line; the data/command line is driven by each `run` as usual. */
  lemma SleepFails(b: Bus)
    requires SleepSpec(b).outcome.Err?
    ensures EndsInFailedWrite(SleepSpec(b).bus.log)
    ensures PinLevels(SleepSpec(b).bus.log, Reset) == PinLevels(b.log, Reset)
  {
    RunAllFails(b, SleepCommands);
    RunAllKeepsReset(b, SleepCommands);
  }

  /** `clear` is `render` of a fully transparent raster: every pixel packs to
      a set bit in both planes. */
  lemma ClearIsBlankRender(b: Bus)
    ensures RenderSpec(b, seq(4 * DisplayWidth * DisplayHeight, _ => 0)) == ClearSpec(b)
  {
    BitPlanes.TransparentPacksToFullBytes(16800);
    assert 4 * DisplayWidth * DisplayHeight == 32 * 16800;
    assert ClearPlane() == seq(16800, _ => 0xFF);
  }
}
