# weathervane, modelled in Dafny

weathervane draws a weather report on a 280 x 480 e-paper panel and sends it
to the panel over SPI. This project models three parts of it:

- **The panel driver** (`src/display.rs`).
  - The command table: an opcode, a payload and a blocking flag per command.
  - The framing routine `run`. It sends the opcode with the data/command line
    Low. It then sends the payload in chunks of at most 4096 bytes with the
    line High. A blocking command then waits while the busy line reads High.
  - The fixed command sequences `reset`, `init`, `draw`,
    `load_look_up_table`, `sleep` and `clear`.
  - The bit-plane packer of `render`.

  The hardware sits behind the `HardwareInterface` trait. Here it is a
  recording fake (`PanelHardware.RecordingHardware`): a class that logs every
  pin level, SPI write, busy reading and sleep. Finite scripts say what the
  busy line reads and which SPI writes fail. Each `Display` method is proved
  against a pure function of the fake's state (`RunSpec`, `InitSpec`,
  `DrawSpec`, ...). The lemmas of `PanelTrace` then state what those
  functions put on the bus. `PanelHardware.View` folds a log into what the
  panel controller has received: its frames, each an opcode and the payload
  bytes that followed it.
- **The weather data** (`src/weather.rs`).
  - The `From<u16>` tables that turn an OpenWeather condition id into a
    category and a sub-type.
  - The `TryFrom` parsers of `WeatherState` and `OpenWeatherResponse`, over an
    abstract JSON value.
- **The selection rules of the picture** (`src/image.rs`).
  - Which icon `get_weather_icon` draws.
  - Which hourly states `render` draws as forecasts.
  - The three palette callbacks of `draw_weather_radar`.
  - The index-to-RGBA expansion in `draw_gif`.

The modules are:

| module | file | models |
|---|---|---|
| `Bytes`, `Wrappers` | bytes.dfy, wrappers.dfy | `u8` as `bv8`, `Option`/`Result` with `?` |
| `PanelCommands` | commands.dfy | `Command`, `get_bytes`, `is_blocking` |
| `PanelHardware` | hardware.dfy | the fake `HardwareInterface`, the panel's view of a log |
| `PanelDriver` | driver.dfy | `Display` and the specifications of its methods |
| `PanelTrace` | trace.dfy | what `run` and the fixed sequences put on the bus |
| `BitPlanes` | bitplanes.dfy | the packing map/fold of `render` |
| `WeatherCodes` | weather.dfy | `WeatherCondition::from` and the six sub-type tables |
| `WeatherJson` | weather_json.dfy | `WeatherState::try_from`, `OpenWeatherResponse::try_from` |
| `WeatherIcons` | icons.dfy | `get_weather_icon`, the forecast selection |
| `RadarLayers` | radar.dfy | the palette callbacks and `draw_gif`'s expansion |

Where a comment and the code disagree, the model follows the code:

- Line 12 of `src/display.rs` says the busy pin is "low = busy". Lines 206
  and 209 wait while it reads High. The model waits while it reads High.
- `get_weather_icon` reads a state whose sunrise, sunset, cloud cover and
  condition are optional. That is not the `WeatherState` that
  `src/weather.rs:142-149` declares. The icon selector therefore takes its
  own record, `WeatherIcons.ShownState`.

## Model

| member | source | states |
|---|---|---|
| PanelCommands.GetBytes | src/display.rs:297-325 | the command table; its meaning is stated by `DecodeGetBytes`, `GetBytesDecode`, `GetBytesInjective`, `PayloadPassThrough` and `TableExamples` |
| PanelCommands.IsBlocking | src/display.rs:327-332 | which commands wait for the panel; stated by `BlockingOpcodes` |
| PanelCommands.DecodeGetBytes | src/display.rs:297-325 | the controller recovers every command, payload included, from the opcode and payload `get_bytes` gives it |
| PanelCommands.GetBytesDecode | src/display.rs:297-325 | any frame the controller recognises as a command is exactly that command's `get_bytes` |
| PanelCommands.GetBytesInjective | src/display.rs:297-325 | distinct commands have distinct opcode/payload pairs |
| PanelCommands.BlockingOpcodes | src/display.rs:327-332 | a command blocks iff its opcode is 0x20, 0x46 or 0x47 |
| PanelCommands.PayloadPassThrough | src/display.rs:309-317 | UpdateSequence, WriteRegister1/2, WriteLookUpTableRegister, SetDisplayOption and SetX/YRamPosition pass the caller's bytes through unchanged |
| PanelCommands.TableExamples | src/display.rs:299-322 | SetGateNumber is (0x01, DF 01 00), Sleep is (0x07, A5), Unknown0x4E is (0x4E, 00 00) |
| PanelHardware.RecordingHardware.SetLevel | src/display.rs:364 | setting a pin appends that pin and level to the log and changes nothing else |
| PanelHardware.RecordingHardware.GetLevel | src/display.rs:366 | a busy reading returns the next scripted level (Low once the script is used up), consumes it and logs it |
| PanelHardware.RecordingHardware.WriteToSpi | src/display.rs:368 | a write succeeds iff the next scripted outcome allows it, consumes that outcome and logs the data and the outcome |
| PanelHardware.RecordingHardware.Pause | src/display.rs:159-167 | a `thread::sleep` appends a delay event and changes nothing else |
| PanelDriver.RunSpec | src/display.rs:186-216 | `run` of one command over the fake's state; stated by `RunDelivers`, `RunAllFails` and the `RunFrame` lemmas |
| PanelDriver.RunFrame | src/display.rs:186-216 | the opcode, the payload and the busy wait of one frame; stated by `RunFrameOutcome`, `RunFrameOk`, `RunFrameErr`, `FrameWrites`, `FramePins`, `FrameReads` and `FrameDelivers` |
| PanelDriver.SendChunks | src/display.rs:198-202 | the `for` over `chunks(4096)` with `?`; stated by `SendChunksOutcome`, `SendChunksOk` and `SendChunksErr` |
| PanelDriver.PayloadStep | src/display.rs:195-203 | the payload part of `run`; stated by `PayloadOutcome`, `PayloadOk`, `PayloadErr` and `PayloadDelivers` |
| PanelDriver.PollBusy | src/display.rs:209-211 | the `while` on the busy line; stated by `PollBusyLog` and `PollLogReads` |
| PanelDriver.AwaitReady | src/display.rs:205-213 | the busy wait of a blocking command; stated by `AwaitReadyLog`, `WaitLogReads` and `WaitLogQuiet` |
| PanelDriver.RunAll | src/display.rs:45-75 | the chains of `run(..)?` in `init`, `sleep` and `draw` (also src/display.rs:84-88 and 139-156); stated by `RunAllDelivers`, `RunAllFails`, `RunAllStops`, `RunAllExtends`, `RunAllKeepsReset` and `RunAllAppend` |
| PanelDriver.ResetSpec | src/display.rs:158-168 | the reset pulse; stated by `ResetLog`, `ResetPins` and `ResetView` |
| PanelDriver.InitSpec | src/display.rs:45-75 | `init`; stated by `InitSoftStartFails`, `InitFrames`, `InitDelivers`, `InitResetPin` and `InitFails` |
| PanelDriver.DrawSpec | src/display.rs:139-156 | `draw`; stated by `DrawFrames`, `DrawDelivers` and `DrawFails` |
| PanelDriver.SleepSpec | src/display.rs:84-95 | `sleep`; stated by `SleepFrames`, `SleepDelivers`, `SleepEnds` and `SleepFails` |
| PanelDriver.ClearSpec | src/display.rs:77-82 | `clear`; stated by `ClearIsBlankRender` |
| PanelDriver.RenderSpec | src/display.rs:97-137 | `render` from the raster on; stated by `ClearIsBlankRender` and, for the planes it draws, the `BitPlanes` lemmas |
| PanelDriver.ChunksPartition | src/display.rs:198-202 | the chunks concatenate back to the payload; there are ceil(n/4096) of them, each non-empty and at most 4096 bytes, all but the last exactly 4096 |
| PanelDriver.PlaneChunkSizes | src/display.rs:198-202 | a 16800-byte plane goes out as four chunks of 4096 bytes and one of 416 |
| PanelDriver.RunAllAppend | src/display.rs:139-156 | a `?` chain of two command lists is their concatenation: the second runs only if the first succeeded |
| PanelDriver.Display.Run | src/display.rs:186-216 | the new fake state and the outcome are those of `RunSpec`: DC Low and opcode; on success DC High and the payload chunks, stopping at the first failed write with its error; then, for a blocking command, the busy wait |
| PanelDriver.Display.SendPayload | src/display.rs:195-203 | nothing for an empty payload, else DC High and each 4096-byte chunk in turn, ending with "Unable to write data." at the first failed write |
| PanelDriver.Display.WaitWhileBusy | src/display.rs:205-213 | one reading of the busy line, and while it reads High a 200 ms sleep and another reading (`AwaitReady`) |
| PanelDriver.Display.Reset | src/display.rs:158-168 | the reset line High, Low, High with sleeps of 30, 3 and 30 ms |
| PanelDriver.Display.RunEach | src/display.rs:139-153 | the commands run in order as a chain of `?`, stopping at the first error |
| PanelDriver.Display.Init | src/display.rs:45-75 | reset, the soft start 0x12, a 300 ms sleep, then the fourteen configuration commands, stopping at the first error |
| PanelDriver.Display.LoadLookUpTable | src/display.rs:170-184 | one `run` of WriteLookUpTableRegister with the 105-byte waveform table |
| PanelDriver.Display.Draw | src/display.rs:139-156 | the ten commands of `draw`, with the look-up table in eighth place, stopping at the first error |
| PanelDriver.Display.Sleep | src/display.rs:84-95 | 0x50, PowerOff and Sleep, then on success DC Low and Reset Low |
| PanelDriver.Display.Clear | src/display.rs:77-82 | `draw` of two planes of 16800 bytes of 0xFF |
| PanelDriver.Display.Render | src/display.rs:97-137 | `draw` of the two planes packed from the RGBA raster |
| PanelTrace.LeadingHighReads | src/display.rs:205-213 | the busy script reads High exactly `LeadingHigh` times before its first Low |
| PanelTrace.FirstFailureMeaning | src/display.rs:191-201 | `FirstFailure` is the index of the first write the SPI script fails, or the number of writes if none fails |
| PanelTrace.PollBusyLog | src/display.rs:209-211 | the `while` loop logs High and a 200 ms sleep for each leading High reading, then one Low, and consumes exactly those readings |
| PanelTrace.AwaitReadyLog | src/display.rs:205-213 | the whole wait logs the first reading, then the loop if it was High, and consumes k+1 readings for k leading Highs |
| PanelTrace.PollLogReads | src/display.rs:209-211 | the loop reads High k times and then Low once |
| PanelTrace.WaitLogReads | src/display.rs:205-213 | the wait reads High k times and then Low once: a single reading when the first is Low, k+1 readings otherwise |
| PanelTrace.WaitLogQuiet | src/display.rs:205-213 | the wait writes nothing, drives no pin, and its last event is a reading of Low |
| PanelTrace.SendChunksOutcome | src/display.rs:198-202 | the chunk loop succeeds iff no scripted failure falls among its writes, fails only with the data error, and never reads the busy line |
| PanelTrace.SendChunksOk | src/display.rs:198-202 | a successful chunk loop logs exactly one successful write per chunk |
| PanelTrace.SendChunksErr | src/display.rs:198-202 | a failed chunk loop logs the chunks before the failing one, then the failed write, and nothing after it |
| PanelTrace.PayloadOutcome | src/display.rs:195-203 | the payload part never reads the busy line and fails, with the data error, exactly when a chunk write fails |
| PanelTrace.PayloadOk | src/display.rs:195-203 | a successful payload logs DC High and its chunks; an empty payload logs nothing |
| PanelTrace.PayloadErr | src/display.rs:195-203 | a failed payload logs DC High, the chunks before the failed one and the failed write |
| PanelTrace.OpenFrame | src/display.rs:189-193 | every frame opens with DC Low and a write of the opcode alone |
| PanelTrace.RunFrameOutcome | src/display.rs:186-216 | `run` succeeds iff none of its writes fails; a failed opcode write gives "Unable to write command.", a failed chunk "Unable to write data." |
| PanelTrace.RunFrameOk | src/display.rs:186-216 | a successful `run` logs exactly its frame's events; only a blocking command consumes busy readings |
| PanelTrace.RunFrameErr | src/display.rs:186-216 | a failed `run` logs its events up to the failed write and reads no busy level |
| PanelTrace.OpcodeProjections | src/display.rs:189-193 | the opening writes exactly `[opcode]`, drives DC Low, leaves Reset alone and reads nothing |
| PanelTrace.OpcodeDelivers | src/display.rs:189-193 | a successful opcode write gives the panel a new frame with an empty payload |
| PanelTrace.ChunkWrites | src/display.rs:198-202 | the chunk writes put exactly the chunks on the bus |
| PanelTrace.ChunkPins | src/display.rs:198-202 | the chunk writes drive no pin |
| PanelTrace.ChunkReads | src/display.rs:198-202 | the chunk writes read no busy level |
| PanelTrace.ObserveChunks | src/display.rs:198-202 | with DC High, the chunks extend the last frame's payload by their concatenation |
| PanelTrace.PayloadWrites | src/display.rs:195-203 | the payload part writes exactly the chunks of the payload; none for an empty payload |
| PanelTrace.PayloadPins | src/display.rs:195-203 | the payload part drives DC High once iff the payload is non-empty and never touches Reset |
| PanelTrace.PayloadReads | src/display.rs:195-203 | the payload part reads no busy level |
| PanelTrace.PayloadDelivers | src/display.rs:195-203 | after the opcode, the payload writes complete the frame the opcode opened with the whole payload |
| PanelTrace.WaitEventsQuiet | src/display.rs:205-213 | the busy wait writes nothing, drives no pin and changes nothing the panel sees |
| PanelTrace.FrameWrites | src/display.rs:186-216 | a successful `run` writes the opcode alone, then the payload's chunks |
| PanelTrace.FramePins | src/display.rs:186-216 | a successful `run` drives DC Low, then High only for a non-empty payload, and never touches Reset |
| PanelTrace.FrameReads | src/display.rs:186-216 | a successful `run` reads the busy line only when it blocks |
| PanelTrace.FrameDelivers | src/display.rs:186-216 | a successful `run` delivers exactly its frame to the panel |
| PanelTrace.FailedFrameEnds | src/display.rs:191-201 | a failed `run` ends with the failed write |
| PanelTrace.FailedPayloadQuiet | src/display.rs:198-202 | a failed payload touches neither Reset nor the busy line |
| PanelTrace.FailedFrameQuiet | src/display.rs:191-201 | a failed `run` touches neither Reset nor the busy line |
| PanelTrace.RunAllExtends | src/display.rs:139-156 | a chain of commands only appends to the log |
| PanelTrace.RunAllKeepsReset | src/display.rs:139-156 | a chain of commands never drives the reset pin |
| PanelTrace.RunAllDelivers | src/display.rs:139-156 | a successful chain delivers the frames of its commands, in order |
| PanelTrace.RunDelivers | src/display.rs:186-216 | a successful `run(c)` delivers the frame `get_bytes(c)` |
| PanelTrace.RunAllFails | src/display.rs:139-156 | a failed chain ends with the failed write, and its error is one of the two of `run` |
| PanelTrace.RunAllStops | src/display.rs:139-156 | a failed chain is the successful run of the commands before the failing one, then that command; nothing after it runs |
| PanelTrace.RunWrites | src/display.rs:186-203 | a successful `run(c)` writes `[opcode]` and then the chunks of the payload |
| PanelTrace.RunDataCommandLine | src/display.rs:189-197 | a successful `run(c)` drives DC Low, then High iff the payload is non-empty |
| PanelTrace.RunBusyReads | src/display.rs:205-213 | `run` reads the busy line only for a blocking command whose writes all got through: High k times, then Low |
| PanelTrace.ResetLog | src/display.rs:158-168 | `reset` appends High, 30 ms, Low, 3 ms, High, 30 ms on the reset pin |
| PanelTrace.ResetPins | src/display.rs:158-168 | `reset` drives the reset pin High, Low, High and no other pin |
| PanelTrace.ResetEventsPins | src/display.rs:158-168 | the reset events drive Reset High, Low, High and DC not at all |
| PanelTrace.ResetView | src/display.rs:158-168 | `reset` writes nothing and the panel receives nothing from it |
| PanelTrace.ResetEventsView | src/display.rs:158-168 | events that only drive Reset or sleep leave the panel's view and the writes unchanged |
| PanelTrace.PauseQuiet | src/display.rs:49 | a sleep changes neither the panel's view nor any pin |
| PanelTrace.InitSoftStartFails | src/display.rs:45-49 | when the soft-start opcode write fails, `init` ends with "Unable to write command." right after the reset pulse, DC Low and that failed write: no sleep, no busy reading, no later command |
| PanelTrace.InitDelivers | src/display.rs:45-75 | a successful `init` delivers the fifteen frames of its commands, in order |
| PanelTrace.PausedChainDelivers | src/display.rs:47-50 | a command, a sleep and a chain deliver the command's frame and then the chain's |
| PanelTrace.InitFrames | src/display.rs:45-75 | the frames are 0x12, 0x46, 0x47, 0x01, 0x03, 0x04, 0x11, 0x3C, 0x0C, 0x18, 0x2C, 0x37 (ten zero bytes), 0x44 00 00 17 01, 0x45 00 00 DF 01 and 0x22 CF, each with its bytes |
| PanelTrace.InitResetPin | src/display.rs:45-75 | `init` drives Reset High, Low, High and nothing more, whatever the bus does |
| PanelTrace.InitFails | src/display.rs:45-75 | a failed `init` ends with the failed write and has one of the two errors of `run` |
| PanelTrace.DrawDelivers | src/display.rs:139-156 | a successful `draw` delivers its ten frames in order |
| PanelTrace.DrawFrames | src/display.rs:139-184 | the frames are 0x49, 0x4E, 0x4F, 0x24 with register 1, 0x4E, 0x4F, 0x26 with register 2, 0x32 with the 105-byte table, 0x22 CF and 0x20 |
| PanelTrace.DrawFails | src/display.rs:139-156 | a failed `draw` ends with the failed write and runs nothing after the failing command |
| PanelTrace.SleepDelivers | src/display.rs:84-95 | a successful `sleep` delivers 0x50 F7, 0x02 and 0x07 A5 |
| PanelTrace.SleepFrames | src/display.rs:85-87 | the sleep commands' frames are 0x50 F7, 0x02 and 0x07 A5 |
| PanelTrace.SleepLinesQuiet | src/display.rs:89-92 | driving DC and Reset Low sends the panel nothing |
| PanelTrace.SleepEnds | src/display.rs:84-95 | a successful `sleep` ends with DC Low followed by Reset Low |
| PanelTrace.SleepFails | src/display.rs:84-95 | a failed `sleep` ends with the failed write and leaves the reset pin alone |
| PanelTrace.ClearIsBlankRender | src/display.rs:77-134 | `render` of a fully transparent raster sends exactly what `clear` sends |
| BitPlanes.MaskIsShift | src/display.rs:113-127 | the bit of pixel i is `0x80 >> i` |
| BitPlanes.Quantize | src/display.rs:117 | the quantised level is in 0..3 |
| BitPlanes.QuantizeRounds | src/display.rs:117 | the level is the nearest integer to alpha * 3 / 255, with no tie to break |
| BitPlanes.QuantizeMonotone | src/display.rs:117 | transparent is level 0, opaque level 3, and more alpha never gives a lower level |
| BitPlanes.PixelBits | src/display.rs:115-130 | the pair of plane bits one pixel yields; stated by `MaskIsShift` and, through the fold, `GroupBits` |
| BitPlanes.PackGroup | src/display.rs:110-132 | the `fold` with bitwise or over one group of eight; stated by `GroupBits`, `PlaneBits` and `PaddingBits` |
| BitPlanes.PixelLevels | src/display.rs:110-117 | `chunks_exact(4)` keeps one level per whole pixel of a chunk |
| BitPlanes.PackPixels | src/display.rs:106-130 | both planes have one byte per 32 raw bytes, rounded up |
| BitPlanes.PackPlanes | src/display.rs:106-130 | both planes have ceil(n/8) bytes for n levels |
| BitPlanes.AlphaLevels | src/display.rs:110-117 | one level per whole pixel of the raster |
| BitPlanes.PackPixelsLevels | src/display.rs:106-130 | packing a raster of whole pixels is packing its quantised levels in groups of eight |
| BitPlanes.GroupBits | src/display.rs:110-129 | bit i of a packed group is set in a plane iff pixel i exists and its level has that plane's bit clear |
| BitPlanes.PlaneBits | src/display.rs:106-130 | bit `0x80 >> i` of byte k is set in plane 1 iff level & 1 == 0 and in plane 2 iff level & 2 == 0 for pixel 8k + i |
| BitPlanes.PaddingBits | src/display.rs:106-130 | the bits of the last byte that stand for no pixel are clear |
| BitPlanes.UnpackLevels | src/display.rs:117-127 | reading the two bits back gives levels in 0..3, one per pixel |
| BitPlanes.PackRoundTrip | src/display.rs:117-127 | every level in 0..3 is recovered from its two plane bits |
| BitPlanes.ZeroLevelsPlane | src/display.rs:117-127 | level-0 pixels pack to 0xFF bytes in both planes |
| BitPlanes.TransparentLevels | src/display.rs:117 | a fully transparent raster is level 0 everywhere |
| BitPlanes.TransparentPacksToFullBytes | src/display.rs:106-130 | a fully transparent raster packs to 0xFF in both planes |
| WeatherCodes.ThunderstormOf | src/weather.rs:264-280 | the variant keeps the id, and is `Unknown` iff the id is not one of the ten listed |
| WeatherCodes.ThunderstormNamed | src/weather.rs:264-280 | every named variant comes from its own listed id, so listed ids give distinct variants |
| WeatherCodes.DrizzleOf | src/weather.rs:295-310 | the variant keeps the id, and is `Unknown` iff the id is not one of the nine listed |
| WeatherCodes.DrizzleNamed | src/weather.rs:295-310 | every named variant comes from its own listed id |
| WeatherCodes.RainOf | src/weather.rs:326-342 | the variant keeps the id, and is `Unknown` iff the id is not one of the ten listed |
| WeatherCodes.RainNamed | src/weather.rs:326-342 | every named variant comes from its own listed id |
| WeatherCodes.SnowOf | src/weather.rs:359-376 | the variant keeps the id, and is `Unknown` iff the id is not one of the eleven listed |
| WeatherCodes.SnowNamed | src/weather.rs:359-376 | every named variant comes from its own listed id |
| WeatherCodes.AtmosphereOf | src/weather.rs:392-408 | the variant keeps the id, and is `Unknown` iff the id is not one of the ten listed |
| WeatherCodes.AtmosphereNamed | src/weather.rs:392-408 | every named variant comes from its own listed id |
| WeatherCodes.CloudsOf | src/weather.rs:418-428 | the variant keeps the id, and is `Unknown` iff the id is not one of the four listed |
| WeatherCodes.CloudsNamed | src/weather.rs:418-428 | every named variant comes from its own listed id |
| WeatherCodes.Classify | src/weather.rs:235-247 | the condition keeps the id it was made from |
| WeatherCodes.ClassifyRanges | src/weather.rs:237-244 | 200-299 is Thunderstorm, 300-399 Drizzle, 500-599 Rain, 600-699 Snow, 700-799 Atmosphere, exactly 800 Clear, 801-899 Clouds, each iff |
| WeatherCodes.ClassifyUnknown | src/weather.rs:245 | every other id, 0-199, 400-499 and 900 upwards, is `Unknown` with the id itself |
| WeatherCodes.ClassifyComposes | src/weather.rs:238-244 | a category's payload is its sub-type table applied to the same id |
| WeatherCodes.ClassifyInjective | src/weather.rs:235-247 | distinct ids give distinct conditions |
| WeatherCodes.ClassifyExamples | src/weather.rs:235-428 | 616 is Snow(RainAndSnow), 511 Rain(FreezingRain), 800 Clear, 701 Atmosphere(Mist), 450 Unknown(450), 250 Thunderstorm(Unknown(250)) |
| WeatherJson.ParseState | src/weather.rs:154-196 | `WeatherState::try_from`; stated by `FirstFailedCheck`, `ParseStateSucceeds`, `ParseStateError`, `ParseStateFields` and `EmptyWeather` |
| WeatherJson.ParseResponse | src/weather.rs:104-116 | `OpenWeatherResponse::try_from`; stated by `ParseResponseSucceeds` and `ParseResponseCurrentFirst` |
| WeatherJson.FirstFailedCheck | src/weather.rs:154-196 | the index of the first field check that fails; all before it pass, and it is 8 iff the parse succeeds |
| WeatherJson.ParseStateSucceeds | src/weather.rs:154-196 | the parse succeeds iff all eight field checks pass |
| WeatherJson.ParseStateError | src/weather.rs:154-196 | a failure carries the message of the first failing field, in the order dt, sunrise, sunset, temp, wind_speed, wind_deg, weather, weather.id |
| WeatherJson.ParseStateFields | src/weather.rs:154-196 | a success keeps each field's value, and the condition is the classification of the first `weather` element's `id` |
| WeatherJson.EmptyWeather | src/weather.rs:186-190 | with the earlier fields valid, an empty `weather` array gives "Empty \"weather\" value." |
| WeatherJson.ParseAll | src/weather.rs:110-114 | a successful collect has one state per element |
| WeatherJson.ParseAllSucceeds | src/weather.rs:110-114 | the collect succeeds iff every element parses, each to the state at the same position |
| WeatherJson.ParseAllError | src/weather.rs:110-114 | a failed collect carries the error of the first failing element |
| WeatherJson.ParseResponseSucceeds | src/weather.rs:107-116 | the response parses iff `current` and every `hourly` element do; `hourly` keeps the order and length of the array |
| WeatherJson.ParseResponseCurrentFirst | src/weather.rs:108-109 | an error in `current` wins over any in `hourly` |
| WeatherIcons.WeatherIcon | src/image.rs:395-462 | `get_weather_icon`, as the icon's file; stated by `IconMatchesCode` and the per-category icon lemmas below |
| WeatherIcons.IconMatchesCode | src/image.rs:395-457 | for a condition classified from an id, the icon is the one an independent table by id ranges picks, with day meaning strictly between a known sunrise and sunset (or either unknown) and partly cloudy a known cover of at most 50 |
| WeatherIcons.ThunderIcons | src/image.rs:406-413 | the thunder icon iff the storm is with light, normal or heavy rain; the thunderstorm icon otherwise, `Unknown` included |
| WeatherIcons.DrizzleIcons | src/image.rs:402-419 | drizzle is 024-sunny when a cover of at most 50 is known, 004-rain otherwise, an unknown cover included |
| WeatherIcons.RainIcons | src/image.rs:420-423 | freezing rain is sleet, every other rain the umbrella |
| WeatherIcons.SnowIcons | src/image.rs:424-435 | the sleet types are hail, mixed and shower snow sleet, light snow 007-snow, the rest the snowflake |
| WeatherIcons.AtmosphereIcons | src/image.rs:396-441 | tornado and squalls have their own icons; the rest is the night fog only when sunrise and sunset are both known and the time is not strictly between them, the day fog otherwise |
| WeatherIcons.SkyIcons | src/image.rs:396-456 | clear is the moon only when sunrise and sunset are both known and the time is not strictly between them; clouds are 020-cloudy unless a cover of at most 50 is known, and then 011-sunny or 025-crescent moon by the same day rule |
| WeatherIcons.MissingIcon | src/image.rs:457 | no condition, or `Unknown`, is the thermometer |
| WeatherIcons.Upcoming | src/image.rs:37-40 | the filter on time; stated by `UpcomingAppend`, `UpcomingSingle` and `UpcomingAfterNow` |
| WeatherIcons.EveryOther | src/image.rs:41 | `step_by(2)`; stated by `EveryOtherLength`, `EveryOtherAt` and `EveryOtherPositions` |
| WeatherIcons.Forecasts | src/image.rs:37-44 | the forecast chain; stated by `ForecastsPicked` |
| WeatherIcons.UpcomingAppend | src/image.rs:37-40 | the filter of a concatenation is the concatenation of the filters |
| WeatherIcons.UpcomingSingle | src/image.rs:40 | one state is kept iff its time is after the current time |
| WeatherIcons.UpcomingAfterNow | src/image.rs:37-40 | the filter keeps exactly the states after the current time |
| WeatherIcons.EveryOtherLength | src/image.rs:41 | `step_by(2)` keeps ceil(n/2) elements |
| WeatherIcons.EveryOtherAt | src/image.rs:41 | element i of `step_by(2)` is element 2i of its input |
| WeatherIcons.EveryOtherPositions | src/image.rs:41 | `step_by(2)` keeps positions 0, 2, 4, ... in order |
| WeatherIcons.ForecastsPicked | src/image.rs:37-44 | at most five forecasts, the upcoming states at positions 0, 2, 4, ..., each from the input and after the current time |
| RadarLayers.Lookup | src/image.rs:371 | `palette.get(index).unwrap_or(&[0x00; 4])`; stated through `Expand` and `ExtendPixel` |
| RadarLayers.Expand | src/image.rs:368-372 | the buffer has four bytes per pixel: the palette's colour for the pixel's index, transparent for an index it lacks |
| RadarLayers.ExtendPixel | src/image.rs:371 | the four bytes appended for pixel i land at positions 4i to 4i + 3 |
| RadarLayers.WithBackground | src/image.rs:285-287 | the background override of both palettes (also src/image.rs:342-344); stated through `RiversPixel` and `TownsPixel` |
| RadarLayers.RiversOf | src/image.rs:278-290 | the rivers palette as a map; stated by `RiversPixel` |
| RadarLayers.TownsOf | src/image.rs:335-347 | the towns palette as a map; stated by `TownsPixel` |
| RadarLayers.RiversPalette | src/image.rs:278-290 | the loop builds `RiversOf`: one entry per `step_by(3)` element, then the background override |
| RadarLayers.TownsPalette | src/image.rs:335-347 | the loop builds `TownsOf`: one entry per whole RGB triple, then the background override |
| RadarLayers.RiversPixel | src/image.rs:279-289 | a rivers pixel is transparent for the background or an index past the table, else grey with alpha 0xFF minus the entry's first byte |
| RadarLayers.TownsPixel | src/image.rs:336-346 | a towns pixel is transparent for the background or an index without a whole triple, else the triple, opaque |
| RadarLayers.Samples | src/image.rs:300-304 | `skip(524).step_by(width)`; stated by `SampleAt` and `SamplesCover` |
| RadarLayers.DedupFrom | src/image.rs:305-309 | the `contains`/`push` step from a scale already built; stated by `DedupSnoc`, `DedupElements` and `DedupNoDuplicates` |
| RadarLayers.Dedup | src/image.rs:305-309 | the `contains`/`push` scale; stated by `DedupNoDuplicates`, `DedupElements` and `DedupSnoc` |
| RadarLayers.SampleAt | src/image.rs:300-304 | sample k is the pixel at 524 + k * width |
| RadarLayers.SamplesCover | src/image.rs:300-304 | the samples run to the end of the frame |
| RadarLayers.DedupNoDuplicates | src/image.rs:305-309 | the scale holds no value twice |
| RadarLayers.DedupElements | src/image.rs:305-309 | the scale holds exactly the sampled values |
| RadarLayers.DedupSnoc | src/image.rs:305-309 | a later sample adds its value at the end iff the value is new, so the scale is in first-occurrence order |
| RadarLayers.CollectScale | src/image.rs:298-309 | the loop builds the deduplicated samples from 524 in steps of the width |
| RadarLayers.Pops | src/image.rs:312-325 | the two loops never pop more values than the scale holds |
| RadarLayers.AssignAlphas | src/image.rs:311-325 | the loops build `Popped(scale, Pops(n))`: pop j takes the value j places from the end with alpha `PopAlpha(j)` |
| RadarLayers.PrecipitationPalette | src/image.rs:297-328 | the palette is that of the deduplicated scale, which repeats no value |
| RadarLayers.Popped | src/image.rs:311-325 | the palette after k pops; stated by `PoppedKeys`, `PoppedValue` and `PoppedEntries` |
| RadarLayers.PoppedKeys | src/image.rs:311-325 | after k pops the palette's keys are the last k values of the scale |
| RadarLayers.PoppedValue | src/image.rs:311-325 | the value j places from the end carries the alpha of pop j |
| RadarLayers.PoppedEntries | src/image.rs:311-325 | pops 0-4 get 0x55, 0x7F, 0xA9, 0xD3, 0xFD, later pops 0xFF, unpopped values stay transparent; a scale of more than five keeps max(0, n - 6) values, at most three, unpopped |
| RadarLayers.PopAlpha | src/image.rs:312 | the alpha of pop k; stated by `PopAlphaValues` |
| RadarLayers.PopAlphaValues | src/image.rs:312 | `(0x55..0xFF).step_by(0x2a)` is 0x55, 0x7F, 0xA9, 0xD3, 0xFD, and later pops are 0xFF |

## Left out

- The rppal SPI and GPIO setup (`Display::new`, `DisplayHardwareInterface`, src/display.rs:17-43, 335-361) is replaced by the recording fake.
- `thread::sleep` is a logged delay event with no timing meaning.
- The busy script is finite and reads Low once it is used up. The SPI script succeeds once it is used up. The source has no timeout and the model adds none.
- `print!`/`println!` while waiting for the panel is not modelled.
- `render`'s drawing closure, the cairo bitmap and its `unwrap`s are not modelled. `PanelDriver.Display.Render` starts from the RGBA raster the closure produced, and returns the outcome of `draw` where the source unwraps it.
- BitPlanes.Quantize: `(alpha / 255. * 3.).round()` is floating point. It is modelled by the alpha thresholds where the rounded value steps, and `QuantizeRounds` proves those thresholds are the rounding in exact arithmetic.
- WeatherJson.AsF32: temperatures and wind speeds are floats. They are kept as their JSON number (`Whole` or `Fractional`) and never converted. `Temperature::celsius` is not modelled.
- PanelHardware.RecordingHardware.WriteToSpi: `write_to_spi` returns `Ok(n)` with the number of bytes written, and `run` discards that count (src/display.rs:190-192, 198-200), so a short write counts as success there too. The fake's outcome is only success or failure, and `PanelHardware.View` treats every successful write as delivering all its bytes. `FrameDelivers`, `RunDelivers`, `RunAllDelivers`, `InitDelivers`, `DrawDelivers` and `SleepDelivers` hold for a bus whose successful writes are whole; a short write is not modelled.
- The json crate is abstracted. `remove` on a missing key or a non-object gives `Null`, `members_mut` of a non-array gives nothing. A number is `Whole(n)` or `Fractional`, which is all that `as_i64`, `as_u16` and `as_f32` tell apart. The crate's parser and its number format are not modelled.
- `time::OffsetDateTime::from_unix_timestamp` is not modelled. Timestamps are the Unix seconds read from the JSON. An out-of-range timestamp, which makes that constructor misbehave, is not modelled.
- `query()` (src/weather.rs:3-95) is not part of this model: it is network I/O.
- `radar_on_top`, the layout rectangles, the radar's cross-hair and circles, and the SVG trees are not part of this model. They depend on the clock or are drawing.
- `get_weather_icon` returns the icon's file name, not the parsed `usvg::Tree`.
- The GIF decoder's outputs are parameters: the frame buffer, its width, the global palette and the background index.
- RadarLayers.RiversPalette: requires a global palette of at most 768 bytes (256 entries), the most a GIF colour table holds. With more, `index as u8` would wrap, and that case is not modelled.
- RadarLayers.TownsPalette: requires the same 768-byte bound, for the same reason.
- RadarLayers.CollectScale: requires a non-zero frame width. `step_by(0)` panics, and that panic is not modelled.
- RadarLayers.PrecipitationPalette: same non-zero-width requirement as `CollectScale`.
- src/main.rs is not part of this model: it is the mock-up window and a second copy of the packer. src/display/mod.rs is not part of this model either: it is the dithering and scaling.
