# midi_ctrl core, modelled in Dafny

midi_ctrl is a desktop controller for an Elektron Digitakt. Its user interface
sends commands down a channel to a background worker. The worker holds the one
MIDI output connection and turns each command into MIDI bytes, or into
device-state reports sent back to the display. A fixed catalogue (`MidiMap`)
maps Control Change numbers to named Digitakt parameters.

This project models both parts:

- **The wire format** (module `MidiWire`, `midi_wire.dfy`). A Control Change
  message is `0xB0 | (channel - 1)`, then the controller byte, then the value
  byte. The system real-time messages are one byte each: Clock `0xF8`, Start
  `0xFA`, Continue `0xFB` and Stop `0xFC`.
- **The dispatcher as values** (module `Dispatch`, `dispatch.dfy`).
  - It defines the commands, the device-state reports and the worker's state.
  - `StepSpec` is one arm of the worker's match. `RunSpec` is the worker loop,
    which stops at the first `Quit`.
  - `Ticks` is the Start path's six-pulse loop. `TimingClock` is
    `send_timing_clock`, which returns at the first failed write.
  - The state carries
    - the four locals of the worker: the connection, the current port, the
      current channel and the current tempo;
    - a count of open attempts;
    - a log of every attempted write, with its handle, its bytes and whether the
      write succeeded;
    - a log of every report sent to the display.
  - Lemmas state what each command does and how sequences of commands compose.
- **The dispatcher as the source writes it** (module `DispatchWorker`,
  `dispatcher.dfy`). The class `Dispatcher` keeps these locals as fields, and
  its methods update them in place with the same loops the source has. Each
  method is proved to produce exactly the state the value model gives.
- **The parameter catalogue** (module `MidiMap`, `midi_map.dfy`).
  - The eight literal lists are copied verbatim.
  - The class `MidiMap` fills its table with a loop over the eight lists, each pass
    an insert loop like those in `MidiMap::new`.
  - The lookups and the sorted listing are proved against the table the lists
    define.
  - Module `Decimal` (`decimal.dfy`) renders the `"CC <n>"` fallback name and
    reads it back.

Opening a port and writing to a connection reach into the operating system.
Here they are an oracle `Env`:
- `openOk(serial, port)` is the outcome of the `serial`-th open attempt on `port`;
- `sendOk(n)` is the outcome of the write attempt with position `n` in the write log.

The source's types become datatypes:
- `Dispatch.Command` is `MidiCommand` (src/gui.rs:9-19);
- `Dispatch.DeviceState` is `DeviceState` (src/gui.rs:21-25);
- `Dispatch.State` holds the worker's locals (src/gui.rs:72-75) and the logs;
- `MidiMap.Param` is `MidiParameter` (src/midi_map.rs:3-8).

A connection is identified by a `Handle`, which holds its port and the serial of
the open attempt that produced it. So "which connection received this byte" is
visible in the log.

## Model

| member | source | states |
|---|---|---|
| MidiWire.RealtimeMessage | src/gui.rs:41-44 | `send_realtime(b)` writes a one-byte message consisting of `b` alone |
| MidiWire.CcStatus | src/gui.rs:47 | the status byte's high nibble is the Control Change status 0xB0 and its low nibble is `(channel - 1) & 0x0F` |
| MidiWire.CcMessage | src/gui.rs:46-50 | `send_cc` writes three bytes, the first a Control Change status byte |
| MidiWire.ParseCc | src/gui.rs:46-50 | a three-byte message with a Control Change status reads back with a channel in 1..16 |
| MidiWire.CcMessageLayout | src/gui.rs:46-50 | for channel 1..16 the message is exactly `[0xB0 + (channel - 1), controller, value]` and the status byte lies in 0xB0..0xBF |
| MidiWire.CcRoundTrip | src/gui.rs:46-50 | for channel 1..16 the message reads back as the channel, controller and value it was made from, so controller and value pass through unmasked |
| MidiWire.CcChannelWraps | src/gui.rs:47 | a channel above 16 is not rejected: it produces the same message as the channel 16 below it |
| Dispatch.Initial | src/gui.rs:72-75 | the worker's locals before the first command: no connection, no port, the initial channel, 120.0 bpm; empty logs |
| Dispatch.Report | src/gui.rs:87-89 | the report pair `Artist("Digitakt")`, `Bpm(current_bpm)` sent on a successful connect and, identically, on a device query (src/gui.rs:144-145) |
| Dispatch.Send | src/gui.rs:42 | one `conn.send` attempt: its outcome is the oracle's for that attempt's position in the log, and the attempt is appended to the write log on the current connection |
| Dispatch.StepSpec | src/gui.rs:78-155 | the `match cmd` arm for one command, as a function of the old state and the oracle; the lemmas below state what each arm does |
| Dispatch.RunSpec | src/gui.rs:77-156 | the `for cmd in rx` loop: commands applied in order until the first Quit or the end of the stream |
| Dispatch.Ticks | src/gui.rs:115-120 | the six-pulse loop makes `n` 0xF8 attempts whatever their outcomes, appending them in order and changing nothing else |
| Dispatch.TimingClock | src/gui.rs:52-64 | `send_timing_clock` succeeds exactly when every one of its `ticks` writes succeeds, and then writes exactly `ticks` 0xF8 messages; otherwise it stops right after the first failed write, every earlier write having succeeded |
| Dispatch.TimingClockStopsAtFailure | src/gui.rs:58-62 | once a pulse has failed, the `?` has returned: asking for more pulses writes nothing more |
| Dispatch.TimingClockAllSent | src/gui.rs:52-64 | with every write succeeding, exactly `ticks` copies of `[0xF8]` are written and the result is `Ok` |
| Dispatch.SendCcOnWire | src/gui.rs:100-108 | when connected, `SendCC` on channel 1..16 writes exactly `[0xB0 + (channel - 1), controller, value]` once and changes nothing else |
| Dispatch.SendCcIgnoresCurrentChannel | src/gui.rs:100-103 | a Control Change goes out on the command's own channel: the worker's current channel has no influence on it |
| Dispatch.StopAndContinueOnWire | src/gui.rs:124-141 | when connected, Stop writes exactly `[0xFC]` and Continue exactly `[0xFB]`, and nothing else changes |
| Dispatch.StartOnWire | src/gui.rs:109-123 | when connected, Start writes 0xFA; if that succeeds, exactly six 0xF8 attempts follow, a failed pulse not stopping the rest; if it fails, nothing follows |
| Dispatch.StartBytes | src/gui.rs:109-123 | a successful Start puts 0xFA and then six 0xF8 on the same connection, seven writes in all, whatever happens to the pulses |
| Dispatch.OfflineIsNoOp | src/gui.rs:100-141 | with no connection, SendCC, Start, Stop and Continue leave the whole state, the logs included, unchanged |
| Dispatch.ConnectEffect | src/gui.rs:79-94 | Connect always takes the new channel and writes nothing; a successful open makes the new handle the connection and the index the current port and emits `Artist("Digitakt")`, `Bpm(current_bpm)`; a failed open or no index keeps the previous connection, port and events |
| Dispatch.DisconnectEffect | src/gui.rs:95-99 | Disconnect clears the connection and the current port, changes nothing else, and is idempotent |
| Dispatch.ControlCommandsAreSilent | src/gui.rs:79-99 | Connect, Disconnect, SetBpm and QueryDevice write no MIDI bytes |
| Dispatch.ReportEffect | src/gui.rs:142-151 | SetBpm stores the tempo and emits `Bpm(b)`; QueryDevice emits `Artist("Digitakt")` then `Bpm(current_bpm)`; neither changes anything else |
| Dispatch.StepExtendsLogs | src/gui.rs:78-155 | a command only appends to the write and event logs, never rewriting what was already written or reported |
| Dispatch.RunExtendsLogs | src/gui.rs:77-156 | the same holds for any stream of commands |
| Dispatch.RunAppend | src/gui.rs:77-156 | commands are applied one after another in the order received: running `a` then `b` is running `a + b` when `a` holds no Quit |
| Dispatch.RunStopsAtQuit | src/gui.rs:152-154 | nothing after the first Quit has any effect: no byte, no report, no state change |
| Dispatch.RunOrdersWrites | src/gui.rs:77-156 | every write made by earlier commands precedes every write made by later ones |
| Dispatch.ConnectThenControlChange | src/gui.rs:79-108 | with every operation succeeding, connecting on channel 1 and sending controller 74 = 100 writes exactly B0 4A 64 and reports the device at 120 bpm |
| Dispatch.ReconnectRedirectsOutput | src/gui.rs:79-132 | after a second successful Connect, output goes to the new connection, the channel is the new one, and the device has been reported twice |
| Dispatch.QuitDropsLaterCommands | src/gui.rs:152-154 | a Control Change queued after Quit is never written |
| DispatchWorker.Dispatcher.constructor | src/gui.rs:72-75 | the worker starts with no connection, no port, the initial channel and 120 bpm, and empty logs |
| DispatchWorker.Dispatcher.OpenOutput | src/gui.rs:27-39 | one open attempt: a handle for the port on success, nothing on failure; the attempt is counted either way |
| DispatchWorker.Dispatcher.Transmit | src/gui.rs:42 | one write attempt, exactly as `Dispatch.Send` |
| DispatchWorker.Dispatcher.SendRealtime | src/gui.rs:41-44 | writes the one-byte message `[b]` on the connection, as `Dispatch.Send` of `MidiWire.RealtimeMessage(b)` |
| DispatchWorker.Dispatcher.SendCc | src/gui.rs:46-50 | writes `MidiWire.CcMessage(channel, controller, value)` on the connection |
| DispatchWorker.Dispatcher.SendTimingClock | src/gui.rs:52-64 | its loop, with its early return, produces exactly the state and result of `Dispatch.TimingClock` |
| DispatchWorker.Dispatcher.Step | src/gui.rs:78-155 | one arm of the match, including the six-pulse loop, produces exactly `Dispatch.StepSpec` of the old state |
| DispatchWorker.Dispatcher.Run | src/gui.rs:77-156 | the command loop, leaving at Quit, produces exactly `Dispatch.RunSpec` of the old state |
| Decimal.Render | src/midi_map.rs:173 | `format!("{}", cc)`: the decimal numeral of a number, most significant digit first; its properties are the lemmas below |
| Decimal.DigitChar | src/midi_map.rs:173 | a digit value becomes the decimal digit character of that value |
| Decimal.RenderIsNumeral | src/midi_map.rs:173 | `format!("{}", n)` is a non-empty string of digits, with a leading zero only for 0 |
| Decimal.ValueOfRender | src/midi_map.rs:173 | the decimal rendering reads back as the number it was made from |
| Decimal.RenderInjective | src/midi_map.rs:173 | different numbers render differently, so different unknown controllers get different fallback names |
| MidiMap.TrackParams | src/midi_map.rs:19-24 | the Track list's (cc, name) literals, in source order |
| MidiMap.TrigParams | src/midi_map.rs:34-40 | the Trig list's (cc, name) literals, in source order |
| MidiMap.SourceParams | src/midi_map.rs:50-59 | the Source list's (cc, name) literals, in source order |
| MidiMap.FilterParams | src/midi_map.rs:69-78 | the Filter list's (cc, name) literals, in source order |
| MidiMap.AmpParams | src/midi_map.rs:88-97 | the Amp list's (cc, name) literals, in source order |
| MidiMap.LfoParams | src/midi_map.rs:107-116 | the LFO list's (cc, name) literals, in source order |
| MidiMap.FxDelayParams | src/midi_map.rs:126-135 | the FX Delay list's (cc, name) literals, in source order |
| MidiMap.FxReverbParams | src/midi_map.rs:145-153 | the FX Reverb list's (cc, name) literals, in source order |
| MidiMap.Groups | src/midi_map.rs:19-160 | the eight lists paired with their category strings, in the order `new()` inserts them |
| MidiMap.InsertEntries | src/midi_map.rs:25-31 | one `for (cc, name) in …` loop: each entry of a list inserted in order under its number, with the list's category, a later insert replacing an earlier one |
| MidiMap.InsertGroups | src/midi_map.rs:19-160 | the eight insert loops run one after another, in source order |
| MidiMap.FullTable | src/midi_map.rs:15-163 | the table `new()` builds: all eight lists inserted into an empty map |
| MidiMap.InsertEntriesKeys | src/midi_map.rs:25-31 | inserting a list adds exactly its controller numbers to the keys |
| MidiMap.InsertEntriesElsewhere | src/midi_map.rs:25-31 | an insert loop leaves every key not in its list untouched |
| MidiMap.InsertEntriesStores | src/midi_map.rs:25-31 | with distinct numbers in a list, each entry is stored under its number with its name and the list's category |
| MidiMap.InsertEntriesKeyed | src/midi_map.rs:25-31 | inserting keeps every stored entry's `cc` equal to its key |
| MidiMap.InsertEntriesCategories | src/midi_map.rs:25-31 | inserting keeps every stored category within a given set |
| MidiMap.InsertGroupsKeys | src/midi_map.rs:19-160 | the keys after all eight loops are exactly the numbers in the lists |
| MidiMap.GroupsCcsMembers | src/midi_map.rs:19-160 | a number is among the lists' numbers exactly when some list entry carries it |
| MidiMap.InsertGroupsKeyed | src/midi_map.rs:19-160 | after all eight loops, every entry's `cc` equals its key |
| MidiMap.InsertGroupsCategories | src/midi_map.rs:19-160 | after all eight loops, every category is one of the lists' categories |
| MidiMap.InsertGroupsStores | src/midi_map.rs:19-160 | when no number repeats across the lists, no insert overwrites an earlier one: every literal entry survives |
| MidiMap.ApartKeys | src/midi_map.rs:19-160 | two lists with no number in common have disjoint key sets |
| MidiMap.DistinctCcsCard | src/midi_map.rs:19-160 | a list with distinct numbers contributes as many keys as entries |
| MidiMap.GroupsCcsCard | src/midi_map.rs:19-160 | with no repeats, the number of keys is the total number of entries |
| MidiMap.DistinctWithinLists | src/midi_map.rs:19-153 | no list repeats a controller number |
| MidiMap.DistinctFirstLists | src/midi_map.rs:19-78 | the Track, Trig, Source and Filter lists each have distinct numbers |
| MidiMap.DistinctLastLists | src/midi_map.rs:88-153 | the Amp, LFO, FX Delay and FX Reverb lists each have distinct numbers |
| MidiMap.ApartTrack | src/midi_map.rs:19-153 | the Track list shares no number with any later list |
| MidiMap.ApartTrig | src/midi_map.rs:34-153 | the Trig list shares no number with any later list |
| MidiMap.ApartSource | src/midi_map.rs:50-153 | the Source list shares no number with any later list |
| MidiMap.ApartFilterAmp | src/midi_map.rs:69-153 | the Filter and Amp lists share no number with any later list |
| MidiMap.ApartLfoDelay | src/midi_map.rs:107-153 | the LFO and FX Delay lists share no number with any later list |
| MidiMap.CatalogueHasNoRepeatedCc | src/midi_map.rs:19-153 | no controller number appears twice anywhere in the catalogue |
| MidiMap.ListedBelow128 | src/midi_map.rs:19-153 | every listed controller number is below 128 |
| MidiMap.CatalogueTotal | src/midi_map.rs:19-153 | the eight lists hold 56 entries in all |
| MidiMap.TableKeyedByCc | src/midi_map.rs:15-163 | every entry of the table `new()` builds has its `cc` equal to its key |
| MidiMap.TableKeysAreListed | src/midi_map.rs:15-163 | a number is a key of the table exactly when one of the literals carries it |
| MidiMap.TableCategories | src/midi_map.rs:15-163 | every category is one of Track, Trig, Source, Filter, Amp, LFO, FX Delay, FX Reverb |
| MidiMap.TableStoresEveryEntry | src/midi_map.rs:15-163 | every literal is stored, under its number, with its own name and its list's category |
| MidiMap.TableSize | src/midi_map.rs:15-163 | the table has 56 keys, all below 128 |
| MidiMap.FilterFrequencyEntry | src/midi_map.rs:69-85 | 74 maps to "Filter Frequency" in category "Filter" |
| MidiMap.MidiMap.constructor | src/midi_map.rs:15-163 | the eight insert loops, run in order as one loop over the lists, build exactly the table the lists define |
| MidiMap.MidiMap.GetParameter | src/midi_map.rs:165-167 | `None` exactly when no literal carries the number; otherwise the entry for that number, whose `cc` is it and whose name and category are those of the literal |
| MidiMap.MidiMap.GetName | src/midi_map.rs:169-174 | a listed number gives its stored name; any other gives exactly "CC " followed by the decimal numeral of the number (`Decimal.Render`): digits only, reading back as the number, no leading zero unless the number is 0 |
| MidiMap.MidiMap.GetAllParameters | src/midi_map.rs:176-180 | 56 stored entries, one per key, each as stored, in strictly ascending `cc` order |
| MidiMap.MidiMap.CollectValues | src/midi_map.rs:177 | collecting the map's values yields each stored entry once, in some order |
| MidiMap.SortByCc | src/midi_map.rs:178 | sorting by `cc` leaves the entries strictly ascending and is a permutation |
| MidiMap.Sink | src/midi_map.rs:178 | one insertion step extends the sorted prefix by one, as a permutation |
| MidiMap.Swap | src/midi_map.rs:178 | exchanges two entries and nothing else |
| MidiMap.SubsetCard | src/midi_map.rs:176-180 | a subset is no larger than its superset |
| MidiMap.CoversAllKeys | src/midi_map.rs:176-180 | as many distinct stored keys as entries means every key appears in the listing |
| MidiMap.CcsCount | src/midi_map.rs:176-180 | strictly ascending numbers are all distinct |

The lookups take `&self` and leave the table unchanged. In the model,
`GetParameter` and `GetName` are functions that only read the object, and
`GetAllParameters` is a method without a `modifies` clause.

## Left out

- The egui user interface (`MidiGuiApp`, layout, the `connected` flag, draining of
  the report channel): presentation, outside the core.
- The midir calls inside `open_output` and `conn.send`: foreign I/O, replaced by
  the `Env` oracle. Port enumeration and argument parsing in `src/main.rs` are not
  part of this model.
- The `mpsc` channels and the spawned thread: the producers' commands are one
  input sequence. A closed channel ends the loop like the end of that sequence.
  The ignored result of each report send is not modelled; each report is appended
  to the event log.
- Sleeps and tempo arithmetic: the 8 ms pause between Start pulses, and the
  per-pulse delay `send_timing_clock` computes from `bpm` in `f32`. These are
  wall-clock time and floating point. `bpm` is a `real` that is only stored and
  echoed, and `SendTimingClock` takes it without using it.
- `eprintln!` logging: diagnostic output only.
- The release of the old connection when a new one replaces it, and of the last
  connection when the loop ends: dropping a midir connection is outside the model.
  A replaced handle simply receives no further writes.
- Dispatch.Encodable: a Control Change on channel 0 is excluded by precondition.
  The source computes `channel - 1` on a `u8` (src/gui.rs:47), which underflows
  for 0. `StepSpec` and `Dispatcher.Step` exclude it only while connected; with no
  connection, `send_cc` is never reached and the command is a no-op, as
  `Dispatch.OfflineIsNoOp` states. `RunSpec` and `Dispatcher.Run` exclude it from
  the whole stream wherever it occurs, connected or not. The UI's channel field is clamped to 1..=16 (src/gui.rs:249), but the
  command-line channel it starts from is not range-checked. Channels 17..255 are
  modelled, and wrap through the 0x0F mask.
- Dispatch.TimingClock: `ticks` is a `nat` rather than a `u32`. The loop only
  counts up to it, so the width does not matter.
- MidiMap.MidiMap.CollectValues: the order of a `HashMap`'s values is
  unspecified, so the model picks any remaining key at each step. Only the
  sorted result of `GetAllParameters` is pinned down.
- `MidiCommand` (src/gui.rs:9-19) has no Program Change or note variants, so none
  are modelled.
