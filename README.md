# midi-tuutti playback core in Dafny

midi-tuutti is a MIDI practice player. It reads a MIDI file and splits its tick-sorted message stream into
numbered measures. Each measure records the time signature, a tempo and the channel
adjustments (program, controller and pitch-wheel changes) to restore when playback jumps to it. The recorded tempo
is the last one set by a message up to the end of the measure's own messages, not the one in force at
its start, so the player applies a tempo change inside a measure from that measure's start. The player
merges an eighth-note metronome click into every measure. It plays a loop of measures with a tempo
modifier and a mixer that mutes, solos and scales tracks.

This project models the core of that program and proves properties of the model:

- **MIDI values and decoding** (`midi.dfy`, `message_decoder.dfy`): ticks and tempo, tick-to-duration
  conversion over reals, note encoding, classification of decoded messages, and the stable merge of all
  tracks into one tick-sorted stream. It also covers the All Sound Off panic sequence and the bit-level
  accessors of the Set Tempo (FF 51) and Time Signature (FF 58) meta events of the Standard MIDI Files 1.0
  specification, and of the Note On / Note Off channel voice messages (0x9n / 0x8n) of the MIDI 1.0
  Detailed Specification.
- **Three song-structure builders**:
  - `song_structure.dfy` and `adjustments.dfy`: the newest builder, src/main/kotlin. It fills skipped bars
    with empty measures, keeps a per-channel adjustment history, and groups a measure's events into chunks.
  - `legacy_song_structure.dfy`: the older builder, engine/src/main/kotlin. A message closes exactly one
    measure, and chunks always carry the adjustments.
  - `prototype_song_structure.dfy`: the first builder, src/engine/kotlin. It has no tempo and no
    adjustments.
- **Three playback engines, without their threads**:
  - `engine.kt` under src/main becomes `engine.dfy`: the `MidiPlayer` and `PlayerControl` classes.
  - engine/src/main becomes `legacy_engine.dfy`.
  - src/engine becomes `prototype_engine.dfy`.
  The two older engines are a reader thread and a player thread joined by a blocking queue. Here each
  thread is a method that puts or takes a given number of events on a shared sequence. The methods are
  proved against functions that describe the events handed over, the messages sent to the port and the
  playback events broadcast. Both older engines use the same `muteOrPass`, so it is modelled once as
  `LegacyEngine.MuteOrPass`.
  Where two variants contain the same function over their own types, each variant's module keeps its own
  copy over its own types. Examples are `injectClick` over the prototype's measures, and the per-event
  playing steps over each older engine's session and queue entries.
- **The two player controllers** (`player_controller.dfy`):
  - the mixer of the main application, with mute, solo and volume resolved into a gain map;
  - the mixer of the app/ module, with mute and volume only, plus the track toggles.
- **The Python prototype `inject_bar_meta`** (`bars.dfy`): it inserts 4/4 bar markers into a delta-time
  message list.

Shared pieces live in `collections.dfy`, `jvm.dfy`, `outcomes.dfy` and `engine_types.dfy`:
- `collections.dfy`: Kotlin's stable `sortedBy`, and insertion-ordered maps as association lists.
- `jvm.dfy`: JVM truncating division and `roundToInt`.
- `outcomes.dfy`: the exceptions the code can throw, modelled as values.
- `engine_types.dfy`: the event and track types.

I/O becomes parameters:
- `createPlayer`/`createEngine` and the controllers' `load` take the parsed song and the output port
  instead of a file name.
- The port is a log of what was sent to it.
- Playback listeners are a log of the events broadcast.
- The endless `while (playing)` loops take a number of passes or events.

Behaviours of the code that the model keeps as written:
- The newest `jumpToBar` always ends by playing, even when the player was stopped.
- `resetMeasureRange` moves the current measure to the new start rather than clamping it.
- The older engine's reader starts its first pass at the play control's current measure, which is 1 at
  creation. `initialFrom` only sets where later passes restart.
- A Kotlin `assert` is modelled as a precondition. The JVM skips these checks unless assertions are
  enabled.
- The panic sequence is All Sound Off (controller 120) on each channel rather than All Notes Off.
- In the Python prototype a bar is `ticks_per_beat * numerator` ticks whatever the denominator.

## Model

| member | source | states |
|---|---|---|
| Midi.Tick.CompareTo | midi/src/main/kotlin/midituutti/midi/midi.kt:37-38 | ticks compare by their number; the result is negative, zero or positive exactly when the tick is earlier, equal or later |
| Midi.PlusMinus | midi/src/main/kotlin/midituutti/midi/midi.kt:40-46 | tick subtraction undoes tick addition and back; adding a positive delta makes a tick later |
| Midi.ToDurationFormula | midi/src/main/kotlin/midituutti/midi/midi.kt:53-57 | a tick delta lasts tick * 60 000 000 / (resolution * bpm) microseconds |
| Midi.ToDurationAdditive | midi/src/main/kotlin/midituutti/midi/midi.kt:53-57 | the duration of a sum of deltas is the sum of their durations |
| Midi.ToDurationDoubleTempo | midi/src/main/kotlin/midituutti/midi/midi.kt:53-57 | doubling the tempo halves the duration of a delta |
| Midi.TempoOperators | midi/src/main/kotlin/midituutti/midi/midi.kt:31-35 | tempo plus/minus are inverse, times composes multiplicatively and times 1 is the identity |
| Midi.EncodeNote | midi/src/main/kotlin/midituutti/midi/midi.kt:73-82 | the wire form succeeds exactly for channel 1..16 and data bytes 0..127, and then carries the note and the velocity as its data bytes |
| Midi.EncodeNoteStatus | midi/src/main/kotlin/midituutti/midi/midi.kt:73-82 | an encoded note's status byte carries the note-on or note-off command and the channel less one |
| Midi.FromNote | midi/src/main/kotlin/midituutti/midi/midi.kt:72-85 | `fromNote` succeeds exactly when the wire form is valid and then yields a note message with that tick and note |
| Midi.Classify | midi/src/main/kotlin/midituutti/midi/midi.kt:129-134 | a decoded note, tempo or time signature becomes the matching message kind, anything else an unspecified message, keeping the tick |
| Midi.Classified | midi/src/main/kotlin/midituutti/midi/midi.kt:124-136 | a track becomes one classified message per event, in event order |
| Midi.Messages | midi/src/main/kotlin/midituutti/midi/midi.kt:121-139 | the file's messages are sorted by tick, are a permutation of all tracks' classified events, and keep track-then-event order among equal ticks (stable sort) |
| Midi.MidiPort.Send | midi/src/main/kotlin/midituutti/midi/midi.kt:113-115 | sending appends exactly the message to what the receiver got |
| Midi.MidiPort.Panic | midi/src/main/kotlin/midituutti/midi/midi.kt:106-111 | panic appends sixteen All Sound Off control changes, channels 0 to 15 in order, and nothing else |
| MessageDecoder.ByteAndFF | midi/src/main/kotlin/midituutti/midi/MessageDecoder.kt:9 | masking a signed byte gives 0..255: the byte itself when non-negative, byte + 256 otherwise |
| MessageDecoder.ByteRoundTrip | midi/src/main/kotlin/midituutti/midi/MessageDecoder.kt:9 | masking undoes the narrowing to a signed byte, and narrowing undoes masking |
| MessageDecoder.MidiTempo | midi/src/main/kotlin/midituutti/midi/MessageDecoder.kt:43 | the three masked tempo bytes form a value in 0..2^24-1 |
| MessageDecoder.TempoOf | midi/src/main/kotlin/midituutti/midi/MessageDecoder.kt:40-48 | the tempo accessor succeeds exactly when there are three data bytes, always yields a positive bpm, and yields 0.1 bpm for a zero tempo value |
| MessageDecoder.TempoRoundTrip | midi/src/main/kotlin/midituutti/midi/MessageDecoder.kt:42-46 | encoding microseconds per quarter note as three bytes and decoding them gives the microseconds back and bpm = 60 000 000 / microseconds |
| MessageDecoder.OneShl | midi/src/main/kotlin/midituutti/midi/MessageDecoder.kt:52 | JVM `1 shl n` is 2^n below 31 and the sign bit when the low five bits are 31 |
| MessageDecoder.TimeSignatureOf | midi/src/main/kotlin/midituutti/midi/MessageDecoder.kt:49-54 | the time-signature accessor succeeds exactly with two data bytes; the numerator is the first masked byte and the denominator 2 to the second |
| MessageDecoder.TimeSignatureRoundTrip | midi/src/main/kotlin/midituutti/midi/MessageDecoder.kt:50-53 | a time signature beats/2^k encoded as numerator and exponent bytes is read back unchanged |
| MessageDecoder.NoteOf | midi/src/main/kotlin/midituutti/midi/MessageDecoder.kt:55-64 | the note accessor succeeds exactly for note-on and note-off commands (IllegalArgument otherwise), with the matching on/off, a 1-based channel, the first data byte as the note number and the second as the velocity |
| MessageDecoder.NoteRoundTrip | midi/src/main/kotlin/midituutti/midi/MessageDecoder.kt:55-64 | decoding the wire form of any encodable note gives the note back |
| MessageDecoder.MetaTypeOf | midi/src/main/kotlin/midituutti/midi/MessageDecoder.kt:67-73 | meta type 0x51 and only it is Tempo, 0x58 and only it is TimeSignature |
| Jvm.Div | src/main/kotlin/midituutti/engine/engine.kt:21-22 | Long division truncates toward zero: the Euclidean quotient for non-negative operands, otherwise a quotient with the sign of the operands' product |
| Jvm.DivTruncates | src/main/kotlin/midituutti/engine/engine.kt:21-25 | the remainder left by `Div` is smaller than the divisor and has the sign of the dividend |
| Jvm.RoundToInt | src/main/kotlin/midituutti/engine/engine.kt:225-228 | `roundToInt` lies within half a unit of its argument, ties going up |
| Jvm.RoundToIntProperties | src/main/kotlin/midituutti/engine/engine.kt:225-228 | rounding an integer gives that integer, and rounding is monotone |
| Collections.SortByIsStableSort | midi/src/main/kotlin/midituutti/midi/midi.kt:138 | `sortedBy` returns a permutation, sorted by key, with the elements of each key in their original order |
| Collections.SortByCount | midi/src/main/kotlin/midituutti/midi/midi.kt:138 | sorting keeps the number of elements that satisfy any predicate |
| Collections.FindFirst | src/main/kotlin/midituutti/engine/SongStructure.kt:76-77 | `find` returns null exactly when no element satisfies the predicate, and otherwise the first element of the list that does: no earlier element satisfies it |
| Collections.Get | src/main/kotlin/midituutti/playerController.kt:74 | a lookup succeeds exactly for a key of the map, and finds a value stored under that key |
| Collections.Put | src/main/kotlin/midituutti/playerController.kt:77 | `plus(k to v)` keeps the keys in place and appends a new key at the end |
| Collections.GetPut | src/main/kotlin/midituutti/playerController.kt:77 | after `plus(k to v)` the map finds v under k and what it found before under every other key |
| Collections.MapValues | src/main/kotlin/midituutti/engine/SongStructure.kt:209 | `mapValues` keeps the keys in order and applies the function to each value |
| Collections.GetMapValues | src/main/kotlin/midituutti/engine/SongStructure.kt:209 | a lookup after `mapValues` is the lookup before, mapped |
| MessageDecoder.MessageMetaType | src/engine/kotlin/midituutti/engine/engine.kt:229 | `metaType()` is Tempo exactly for tempo messages and TimeSignature exactly for time signature messages |
| Engine.MidiPlayer.Notify | src/main/kotlin/midituutti/engine/engine.kt:353 | a playback event goes to the listeners, and nothing else about the player changes |
| Engine.PlayerControl.constructor | src/main/kotlin/midituutti/engine/engine.kt:289 | the control wraps the given player |
| LegacyEngine.EventQueue.constructor | engine/src/main/kotlin/midituutti/engine/engine.kt:377 | the event queue starts empty |
| LegacyEngine.Listeners.constructor | engine/src/main/kotlin/midituutti/engine/engine.kt:300 | no playback listener has been notified yet |
| LegacyEngine.Reader.constructor | engine/src/main/kotlin/midituutti/engine/engine.kt:158-162 | the reader holds the play control, the range, the queue and the song it is built with |
| LegacyEngine.PlayerEngine.constructor | engine/src/main/kotlin/midituutti/engine/engine.kt:299-300 | the engine holds the song, the play control, the player and the reader it is built with |
| PrototypeEngine.HandOff.constructor | src/engine/kotlin/midituutti/engine/engine.kt:328 | the hand-off queue starts empty |
| PrototypeEngine.Reader.constructor | src/engine/kotlin/midituutti/engine/engine.kt:139-144 | the reader holds the play control, the cursor, the range, the queue and the song it is built with |
| PrototypeEngine.PlayerEngine.constructor | src/engine/kotlin/midituutti/engine/engine.kt:256-257 | the engine holds the song, the play control, the player and the reader it is built with |
| EngineTypes.AllTracks | src/main/kotlin/midituutti/engine/engine.kt:114 | the mixer's tracks are MidiTrack(1..16) in order followed by the click track |
| EngineTypes.ClickNote | src/main/kotlin/midituutti/engine/engine.kt:205-210 | a click is a note-on of velocity 100 on channel 10, pitch 31 exactly for the first beat |
| Engine.DurationParts | src/main/kotlin/midituutti/engine/engine.kt:21-25 | the millisecond and nanosecond parts add back up to the duration; the nanosecond part is below a millisecond and has the duration's sign |
| Engine.Clamp | src/main/kotlin/midituutti/engine/engine.kt:254-256 | `minOf(maxOf(x, lo), hi)` lies in lo..hi when the range is non-empty, is x inside it, lo below it and hi above it |
| Engine.Range | src/main/kotlin/midituutti/engine/engine.kt:138 | the measure numbers first..last, in order |
| Engine.NumbersOfSlice | src/main/kotlin/midituutti/engine/engine.kt:138 | `drop(from - 1).take(to - from + 1)` of a numbered song visits the measures from..to |
| Engine.InitialMixerTracks | src/main/kotlin/midituutti/engine/engine.kt:114-118 | the initial mixer holds exactly the sixteen channels and the click, each at gain 1.0 |
| Engine.MergedMixer | src/main/kotlin/midituutti/engine/engine.kt:279-285 | `updateMixer` never changes the set of tracks |
| Engine.MergedMixerGains | src/main/kotlin/midituutti/engine/engine.kt:279-285 | a known track given a gain takes it, a track not given keeps its gain, an unknown track stays at the default 1.0 |
| Engine.EventMessage | src/main/kotlin/midituutti/engine/engine.kt:203-212 | a message event sends its message; a click is sent as the note `fromNote` builds for its click pitch |
| Engine.OutgoingChangesVelocityOnly | src/main/kotlin/midituutti/engine/engine.kt:214-235 | a message that is not a note-on with positive velocity passes unchanged; an audible note changes only in its velocity, scaled by its strip's gain |
| Engine.OutgoingWithinUnitGain | src/main/kotlin/midituutti/engine/engine.kt:221-231 | with gains in [0, 1] a valid audible note can always be rebuilt, no louder than before |
| Engine.OutgoingAtUnitGain | src/main/kotlin/midituutti/engine/engine.kt:221-231 | with every gain at 1.0 (the initial mixer) every valid message and click is sent unchanged |
| Engine.OutgoingClick | src/main/kotlin/midituutti/engine/engine.kt:205-231 | a click goes out on channel 10 at its click pitch with velocity 100 scaled by the click strip |
| Engine.PlayedFailed | src/main/kotlin/midituutti/engine/engine.kt:180-182 | once `fromNote` has thrown, nothing more is played |
| Engine.PlayedAppend | src/main/kotlin/midituutti/engine/engine.kt:160-168 | playing two event lists one after the other is playing their concatenation |
| Engine.HandleEffect | src/main/kotlin/midituutti/engine/engine.kt:186-238 | one handled event either appends its outgoing message to the port or records the failure that stops the thread |
| Engine.PlayedFails | src/main/kotlin/midituutti/engine/engine.kt:160-168 | playing events fails exactly when one of them cannot be sent, and keeps the current measure |
| Engine.PlayedSends | src/main/kotlin/midituutti/engine/engine.kt:160-168 | until a failure, the i-th event sends exactly its outgoing message as the i-th new entry of the port's log |
| Engine.LastTempoInit | src/main/kotlin/midituutti/engine/engine.kt:190-193 | dropping a final non-tempo event keeps the position of the last tempo message |
| Engine.PlayedTempo | src/main/kotlin/midituutti/engine/engine.kt:190-193 | after playing events the tempo is that of the last tempo message among them, or unchanged when there is none |
| Engine.MeasuresAnnouncedAppend | src/main/kotlin/midituutti/engine/engine.kt:142-145 | the measure announcements of two broadcast logs concatenate |
| Engine.HandleAnnouncesNoMeasure | src/main/kotlin/midituutti/engine/engine.kt:190-193 | handling an event broadcasts at most a tempo change, never a measure |
| Engine.PlayedAnnouncesNoMeasure | src/main/kotlin/midituutti/engine/engine.kt:160-168 | handling events announces no measure |
| Engine.MeasureEndsAtItsTempo | src/main/kotlin/midituutti/engine/engine.kt:140-147 | after a measure the current measure is its number and the tempo its initial tempo unless a tempo message in it set another |
| Engine.MeasureAnnounces | src/main/kotlin/midituutti/engine/engine.kt:140-145 | a measure played from a live state announces its own number exactly once |
| Engine.PassAnnounces | src/main/kotlin/midituutti/engine/engine.kt:138-175 | a pass that does not fail announces the numbers of its measures, in order |
| Engine.PassStep | src/main/kotlin/midituutti/engine/engine.kt:138-175 | a pass plays measure by measure, only its first measure with the initial adjustments |
| Engine.PassTimedShape | src/main/kotlin/midituutti/engine/engine.kt:147 | a pass's timed events are the first measure's adjustments and events followed by the later measures' own events |
| Engine.RunOrder | src/main/kotlin/midituutti/engine/engine.kt:125-179 | a run that does not fail visits from..end first, then start..end on every later pass |
| Engine.PlayedRunNext | src/main/kotlin/midituutti/engine/engine.kt:125-179 | one more pass of a run plays `from..end` if it is the first and `start..end` otherwise, after the passes before it |
| Engine.PassSucceededBefore | src/main/kotlin/midituutti/engine/engine.kt:148 | a pass that does not fail started from a playback that had not failed |
| Engine.PassAnnouncesAfter | src/main/kotlin/midituutti/engine/engine.kt:138-175 | a pass that does not fail appends its measures' numbers to what was announced before it |
| Engine.PassOrderStep | src/main/kotlin/midituutti/engine/engine.kt:138-178 | every pass appends its range to the visiting order |
| Engine.PassFailed | src/main/kotlin/midituutti/engine/engine.kt:148 | a failed state plays no more measures |
| Engine.TickDeltas | src/main/kotlin/midituutti/engine/engine.kt:149 | each chunk's delta is its distance from the previous chunk; the first chunk of a pass has delta 0 |
| Engine.TickDeltasAppend | src/main/kotlin/midituutti/engine/engine.kt:149-170 | tick deltas over two chunk lists concatenate, the second counted from the first's last tick |
| Engine.TickDeltasStep | src/main/kotlin/midituutti/engine/engine.kt:149-170 | one more chunk adds its distance from the previous chunk and becomes `prevTicks` |
| Engine.ChunkStep | src/main/kotlin/midituutti/engine/engine.kt:147-168 | one more chunk plays its events after those of the chunks before |
| Engine.MidiPlayer.constructor | src/main/kotlin/midituutti/engine/engine.kt:86-118 | a new player stands at measure 1 with range start 1, no end, the first measure's tempo, not playing, all gains 1.0 |
| Engine.MidiPlayer.HandleEvent | src/main/kotlin/midituutti/engine/engine.kt:186-238 | handling an event is the specification `Handle`: tempo update and broadcast, then the scaled or passed-through message sent; nothing else changes |
| Engine.MidiPlayer.PlayEvents | src/main/kotlin/midituutti/engine/engine.kt:160-168 | a chunk's events are handled in order, up to the first failure |
| Engine.MidiPlayer.PlayMeasure | src/main/kotlin/midituutti/engine/engine.kt:139-174 | a measure becomes current, its tempo resets, its chunks are played in order with the deltas of `TickDeltas` |
| Engine.MidiPlayer.PlayPass | src/main/kotlin/midituutti/engine/engine.kt:133-176 | a pass plays measures startFrom..end, its chunks flatten to `PassTimed` and deltas start at 0 |
| Engine.MidiPlayer.Run | src/main/kotlin/midituutti/engine/engine.kt:124-184 | the run loop plays its passes from the current measure first and from the range start afterwards |
| Engine.MidiPlayer.Play | src/main/kotlin/midituutti/engine/engine.kt:242-246 | `play()` turns playback on and wakes the thread exactly when it was off |
| Engine.MidiPlayer.StopPlaying | src/main/kotlin/midituutti/engine/engine.kt:248-252 | stopping turns playback off and sends All Sound Off on every channel |
| Engine.MidiPlayer.SetCurrentMeasure | src/main/kotlin/midituutti/engine/engine.kt:254-256 | the measure is clamped into start..end; before an end exists the `as Int` cast fails |
| Engine.MidiPlayer.ResetMeasureRange | src/main/kotlin/midituutti/engine/engine.kt:260-267 | the asserted range becomes the play range and the current measure its start |
| Engine.MidiPlayer.UpdateMixer | src/main/kotlin/midituutti/engine/engine.kt:279-285 | the mixer becomes the merge of the old gains with the given ones; nothing else changes |
| Engine.PlayerControl.Play | src/main/kotlin/midituutti/engine/engine.kt:300-304 | play starts the player and broadcasts PlayEvent(true) |
| Engine.PlayerControl.Stop | src/main/kotlin/midituutti/engine/engine.kt:306-311 | stop stops and broadcasts PlayEvent(false) only when the player was playing, and otherwise changes nothing |
| Engine.PlayerControl.SignalStop | src/main/kotlin/midituutti/engine/engine.kt:313-316 | the player is stopped, the channels silenced and PlayEvent(false) broadcast |
| Engine.PlayerControl.Quit | src/main/kotlin/midituutti/engine/engine.kt:318-320 | quit stops, sends the panic sequence and announces the stop whether or not the player was playing; the current measure, range, tempo, modifier and mixer stay |
| Engine.PlayerControl.SetTempoModifier | src/main/kotlin/midituutti/engine/engine.kt:335-338 | the new modifier takes effect and the tempo with its adjusted value is broadcast |
| Engine.PlayerControl.JumpToBar | src/main/kotlin/midituutti/engine/engine.kt:340-344 | jumping stops, moves to f(current) clamped into the range and always plays again; the listeners hear stop (only if it was playing) then play; a playing player sends the panic sequence, a stopped one sends nothing; range, tempo, modifier and mixer are unchanged |
| Engine.PlayerControl.ResetMeasureRange | src/main/kotlin/midituutti/engine/engine.kt:346-351 | a new range, positioned at its start, playing again only if it was playing; a playing player broadcasts stop then play and sends the panic sequence, a stopped one broadcasts and sends nothing; tempo, modifier and mixer are unchanged |
| Engine.PlayerControl.UpdateMixer | src/main/kotlin/midituutti/engine/engine.kt:294-296 | the control forwards the gains to the player's merge and changes nothing else |
| Engine.CreatePlayer | src/main/kotlin/midituutti/engine/engine.kt:368-380 | a fresh stopped player on the song with range `initialFrom ?: 1`..`initialTo ?: size`, at its start, at the first tempo, all gains 1.0 |
| SongStructure.AtStart | src/main/kotlin/midituutti/engine/SongStructure.kt:15 | with the flag, every initial adjustment is tagged with the measure start, in order |
| SongStructure.AtOwnTicks | src/main/kotlin/midituutti/engine/SongStructure.kt:17 | every event is tagged with its own tick, in order |
| SongStructure.EventsOf | src/main/kotlin/midituutti/engine/SongStructure.kt:30 | a run's events in order, its ticks dropped |
| SongStructure.CloseRun | src/main/kotlin/midituutti/engine/SongStructure.kt:30-31 | yielding a run of equal ticks as a chunk keeps the flattened events and the chunk shape |
| SongStructure.Chunked | src/main/kotlin/midituutti/engine/SongStructure.kt:13-38 | flattening the chunks gives the adjustments (only with the flag) at the measure start followed by the events, nothing dropped, duplicated or reordered; every chunk is non-empty, shares one tick, and differs in tick from its neighbours |
| SongStructure.ChunkRuns | src/main/kotlin/midituutti/engine/SongStructure.kt:22-37 | the loop over `chunkEvents` cuts any timed list into maximal runs of equal ticks that flatten back to it |
| SongStructure.MeasureTicksAsWritten | src/main/kotlin/midituutti/engine/SongStructure.kt:81-82 | the source's formula fails with a division by zero exactly when `unit / 4` truncates to 0 |
| SongStructure.MeasureTicksAsWrittenAgrees | src/main/kotlin/midituutti/engine/SongStructure.kt:81-82 | where the unit is a multiple of 4, the source's formula gives the measure length `tpb * beats / (unit / 4)` |
| SongStructure.CutTimeDividesByZero | src/main/kotlin/midituutti/engine/SongStructure.kt:81-82 | a 2/2 measure makes the source's formula divide by zero although it is four quarter notes long |
| SongStructure.MeasureTicksInQuarters | src/main/kotlin/midituutti/engine/SongStructure.kt:81-82 | a .../4 measure is beats quarter notes, .../2 twice that, .../8 half that |
| SongStructure.ClickDivisor | src/main/kotlin/midituutti/engine/SongStructure.kt:85 | `unit / (2 * unit / 4)` is at least 1, and 2 for every even unit |
| SongStructure.BeatTicksAreEighths | src/main/kotlin/midituutti/engine/SongStructure.kt:84-85 | for an even unit the k-th click is k - 1 eighth notes after the measure start |
| SongStructure.ClickTypeOf | src/main/kotlin/midituutti/engine/SongStructure.kt:88-95 | click 1 is One, later odd clicks are Quarter, even clicks are Eight |
| SongStructure.Clicks | src/main/kotlin/midituutti/engine/SongStructure.kt:98-102 | a measure gets `beats * 8 / unit` clicks (none for a count below 1), click k at start + beatTicks(k) with type clickType(k) |
| SongStructure.MeasureClickSpec | src/main/kotlin/midituutti/engine/SongStructure.kt:97-104 | after `measureClick` only the events change; they are sorted by tick, are a permutation of the clicks and the original events, keep same-tick order with clicks first, and contain exactly the clicks as click events |
| SongStructure.InjectClick | src/main/kotlin/midituutti/engine/SongStructure.kt:87-107 | `injectClick` applies `measureClick` to every measure and keeps their number and order |
| SongStructure.EventTracks | src/main/kotlin/midituutti/engine/SongStructure.kt:42-52 | a track is among the events' tracks exactly when some note plays on its channel or some click exists for the click track |
| SongStructure.Tracks | src/main/kotlin/midituutti/engine/SongStructure.kt:42-52 | `tracks` holds exactly the tracks of the song's note and click events |
| SongStructure.NextMeasureStartSteps | src/main/kotlin/midituutti/engine/SongStructure.kt:119-120 | a start k measures on followed by one more measure is the start k + 1 measures on |
| SongStructure.StartsUpToSpec | src/main/kotlin/midituutti/engine/SongStructure.kt:155-165 | `generateSequence(...).takeWhile` keeps exactly the measure starts at or before the message, one measure apart from the current start |
| SongStructure.CrossingLandsInItsMeasure | src/main/kotlin/midituutti/engine/SongStructure.kt:146-173 | a message a measure length or more after the measure start crosses at least one boundary, and the last start kept is the start of the measure that contains it |
| SongStructure.Intermediates | src/main/kotlin/midituutti/engine/SongStructure.kt:166-170 | the generated measures are numbered on from the current count, have the current signature and tempo, the adjustments at their start, and the pending events only in the first |
| SongStructure.Place | src/main/kotlin/midituutti/engine/SongStructure.kt:146-182 | a message keeps the measures closed before it and a prefix of the accumulator |
| SongStructure.ClosedMeasures | src/main/kotlin/midituutti/engine/SongStructure.kt:154-173 | a crossing closes at least one measure, numbered on, with the current signature |
| SongStructure.ParseRec | src/main/kotlin/midituutti/engine/SongStructure.kt:122-185 | `parseRec` keeps the accumulated measures as a prefix and always adds at least the final measure; measure lengths are the corrected `ticksPerBeat * beats * 4 / unit` (see Findings) |
| SongStructure.MeasureEventsAppend | src/main/kotlin/midituutti/engine/SongStructure.kt:130 | the events of two measure lists concatenate |
| SongStructure.IntermediatesEvents | src/main/kotlin/midituutti/engine/SongStructure.kt:166 | only the first intermediate measure gets the pending events |
| SongStructure.KeptStarts | src/main/kotlin/midituutti/engine/SongStructure.kt:161-173 | the starts that survive `dropLast(1)` begin at the current start and lie before the message |
| SongStructure.NextMeasureStartIncreases | src/main/kotlin/midituutti/engine/SongStructure.kt:119-120 | later measures start later |
| SongStructure.WithinMeasure | src/main/kotlin/midituutti/engine/SongStructure.kt:114-117 | a tick is within the measure exactly when it is before the start of the next measure |
| SongStructure.ClosedMeasuresShape | src/main/kotlin/midituutti/engine/SongStructure.kt:154-180 | the closed measures are one measure apart from the current start, all before the message, which lies in the measure after the last; only the first has the pending events |
| SongStructure.IntermediatesContiguous | src/main/kotlin/midituutti/engine/SongStructure.kt:154-173 | the intermediate measures are contiguous |
| SongStructure.RestPlayable | src/main/kotlin/midituutti/engine/SongStructure.kt:135-138 | the next signature and the rest of the stream stay playable |
| SongStructure.PlaceCrossing | src/main/kotlin/midituutti/engine/SongStructure.kt:150-182 | a crossing message closes the measures up to its own and starts the measure after the last |
| SongStructure.PlaceWithin | src/main/kotlin/midituutti/engine/SongStructure.kt:146-149 | a message within the current measure joins its events |
| SongStructure.ParseRecStep | src/main/kotlin/midituutti/engine/SongStructure.kt:132-183 | `parseRec` on a non-empty rest places the first message and continues with the rest |
| SongStructure.MessageEventsCons | src/main/kotlin/midituutti/engine/SongStructure.kt:143 | wrapping messages as events, read head first |
| SongStructure.PlaceAdds | src/main/kotlin/midituutti/engine/SongStructure.kt:154-176 | the closed measures are numbered on and carry the current signature |
| SongStructure.PlaceContiguous | src/main/kotlin/midituutti/engine/SongStructure.kt:146-182 | a placed message keeps the closed measures contiguous and the current measure one measure after the last |
| SongStructure.CrossingContiguous | src/main/kotlin/midituutti/engine/SongStructure.kt:175-180 | appending the closed measures keeps the measures contiguous and the next one follows the last |
| SongStructure.PlaceEvents | src/main/kotlin/midituutti/engine/SongStructure.kt:146-182 | placing moves the pending events and the message into the measures, in order |
| SongStructure.PlaceAdjustments | src/main/kotlin/midituutti/engine/SongStructure.kt:166-170 | the measures a message closes have seen the adjustment history so far and start before the message |
| SongStructure.ParseRecNumbered | src/main/kotlin/midituutti/engine/SongStructure.kt:130 | the measures are numbered 1, 2, … consecutively |
| SongStructure.ParseRecContiguous | src/main/kotlin/midituutti/engine/SongStructure.kt:130-180 | each measure starts one measure, by its own signature, after the previous one |
| SongStructure.ParseRecFirstStart | src/main/kotlin/midituutti/engine/SongStructure.kt:130-176 | the first measure the call adds starts at the current measure start |
| SongStructure.ParseRecEndContiguous | src/main/kotlin/midituutti/engine/SongStructure.kt:129-131 | closing the last measure keeps the measures contiguous |
| SongStructure.ParseRecEvents | src/main/kotlin/midituutti/engine/SongStructure.kt:122-185 | the measures hold the pending events and then every message, each exactly once, in input order |
| SongStructure.ParseRecSignatures | src/main/kotlin/midituutti/engine/SongStructure.kt:135-138 | every measure's signature is the initial one or one that a message carries |
| SongStructure.ParseRecAdjustments | src/main/kotlin/midituutti/engine/SongStructure.kt:166-169 | with sorted input every added measure has seen every adjustment up to its start |
| SongStructure.HistoryOfAppend | src/main/kotlin/midituutti/engine/SongStructure.kt:144 | the history after one more message is `addPossibleAdjustmentEvent` of the history before |
| SongStructure.Measures | src/main/kotlin/midituutti/engine/SongStructure.kt:75-79 | building fails with a cast error exactly when there is no time-signature or no tempo message; measure lengths are the corrected `ticksPerBeat * beats * 4 / unit` (see Findings) |
| SongStructure.MeasuresSpec | src/main/kotlin/midituutti/engine/SongStructure.kt:75-79 | the song's measures are numbered 1, 2, …, the first starts at the first time-signature tick, each starts one measure after the previous one, each signature is one a message sets, and their events are the messages, none lost, added or reordered |
| SongStructure.MeasuresAdjustments | src/main/kotlin/midituutti/engine/SongStructure.kt:207-216 | with the messages sorted, a measure's adjustments per channel are, per adjustment type, the last one at or before the measure start |
| SongStructure.MeasureCollected | src/main/kotlin/midituutti/engine/SongStructure.kt:166-169 | every measure's adjustments come from the history of a prefix after which every message is later than the measure start |
| SongStructure.MeasuresParse | src/main/kotlin/midituutti/engine/SongStructure.kt:75-79 | a song's measures are those `parseRec` builds from the first signature, tempo and tick |
| SongStructure.ParseSpec | src/main/kotlin/midituutti/engine/SongStructure.kt:122-185 | `parseRec` from a time-signature message of the stream gives the measure facts `MeasuresSpec` states |
| SongStructure.CrossingOnGrid | src/main/kotlin/midituutti/engine/SongStructure.kt:150-183 | a message past the current measure opens a measure a whole number of measures after the current start, at or before the message and less than a measure before it |
| SongStructure.SignatureStep | src/main/kotlin/midituutti/engine/SongStructure.kt:146-183 | a signature change placed on a measure start leaves the pending events in the measure it opens, which starts the new grid |
| SongStructure.ParseRecSegmented | src/main/kotlin/midituutti/engine/SongStructure.kt:122-185 | with sorted messages whose signature changes fall on measure starts, every event `parseRec` builds is at or after its measure's start and before the next measure's start |
| SongStructure.MeasuresSegmented | src/main/kotlin/midituutti/engine/SongStructure.kt:75-79 | for such a song every event is in the measure its tick falls in: at or after its start and before the start of the next |
| SongStructure.StartsUpToNext | src/main/kotlin/midituutti/engine/SongStructure.kt:154-164 | up to a tick in the measure after the current one, the generated starts that `takeWhile` keeps are exactly the current start and the next |
| SongStructure.PlaceInNext | src/main/kotlin/midituutti/engine/SongStructure.kt:150-181 | a message in the measure after the current one closes the current measure alone, with its start and the tempo held so far, and opens the next measure holding only the message |
| SongStructure.TempoChangeInsideMeasure | src/main/kotlin/midituutti/engine/SongStructure.kt:122-183 | as written: when the last message sets a tempo strictly inside the measure after the current one, the current measure keeps the tempo held so far, and the next measure starts before the message yet records the message's tempo |
| SongStructure.TempoAtSpec | src/main/kotlin/midituutti/engine/SongStructure.kt:7 | the tempo in force at a tick: that of the last tempo message at or before it, or the initial tempo when there is none |
| SongStructure.MeasuresAtStartTempo | src/main/kotlin/midituutti/engine/SongStructure.kt:75-79 | the corrected build fails exactly when `measures` does |
| SongStructure.MeasuresAtStartTempoSpec | src/main/kotlin/midituutti/engine/SongStructure.kt:6-11 | each corrected measure is the source's in everything but its tempo, which is the tempo in force at its start |
| SongStructure.CollectedFromIsLatest | src/main/kotlin/midituutti/engine/SongStructure.kt:207-216 | adjustments collected from such a prefix are exactly the latest ones at or before the start |
| Adjustments.AddPossibleAdjustmentEventSpec | src/main/kotlin/midituutti/engine/SongStructure.kt:187-205 | a channel adjustment is prepended to exactly its own (channel, type) list, other lists unchanged, a new channel appended, the history stays a map; other messages change nothing |
| Adjustments.AddLookup | src/main/kotlin/midituutti/engine/SongStructure.kt:187-205 | looking up after adding finds the message in front of its own list and the old list elsewhere |
| Adjustments.AddKeepsWellFormed | src/main/kotlin/midituutti/engine/SongStructure.kt:196-201 | both levels of the history stay maps with unique keys |
| Adjustments.Find | src/main/kotlin/midituutti/engine/SongStructure.kt:212 | `find` returns nothing exactly when every adjustment is after the tick, otherwise an element at or before it |
| Adjustments.LatestPerType | src/main/kotlin/midituutti/engine/SongStructure.kt:210-214 | a channel contributes at most one adjustment per type, each at or before the tick |
| Adjustments.LatestPerTypeMembers | src/main/kotlin/midituutti/engine/SongStructure.kt:210-214 | a message is among a channel's collected adjustments exactly when it is the `find` result of one of its types |
| Adjustments.CollectLatestTypeSpecificAdjustments | src/main/kotlin/midituutti/engine/SongStructure.kt:207-216 | the collected map has the history's channels in the same order, each with its types' latest adjustments |
| Adjustments.HistoryOfIsNewestFirst | src/main/kotlin/midituutti/engine/SongStructure.kt:187-205 | the history built from a stream is well formed and holds, per channel and type, its adjustments newest first |
| Adjustments.FindOnReversed | src/main/kotlin/midituutti/engine/SongStructure.kt:212 | `find` on a newest-first list gives the latest adjustment at or before the tick in input order |
| Adjustments.LatestAdjustment | src/main/kotlin/midituutti/engine/SongStructure.kt:207-216 | what a measure records for a channel and type is the latest such adjustment at or before its start |
| Adjustments.LastAtOrBeforeIgnoresLater | src/main/kotlin/midituutti/engine/SongStructure.kt:207-216 | messages after the tick cannot change the latest adjustment at or before it |
| Adjustments.LookupIsLatest | src/main/kotlin/midituutti/engine/SongStructure.kt:207-216 | with every later message after the tick, the prefix's history finds the latest adjustment of the whole input |
| Adjustments.LatestPerTypeIsLookup | src/main/kotlin/midituutti/engine/SongStructure.kt:210-214 | a channel's latest adjustments are the `find` results of its lists, one per type |
| Adjustments.CollectedPerChannel | src/main/kotlin/midituutti/engine/SongStructure.kt:207-216 | a channel's collected adjustments are the `find` results of its lists |
| Adjustments.CollectedAreLatest | src/main/kotlin/midituutti/engine/SongStructure.kt:207-216 | a channel's collected adjustments are exactly, per adjustment type, the latest adjustment at or before the tick in the whole input |
| LegacySongStructure.Chunked | engine/src/main/kotlin/midituutti/engine/SongStructure.kt:20-43 | `chunked()` always puts the initial adjustments at the measure start before the events; the chunks flatten back to exactly that, are non-empty, and differ in tick from their neighbours |
| LegacySongStructure.NextMeasureStart | engine/src/main/kotlin/midituutti/engine/SongStructure.kt:109-110 | the next measure starts one measure length after the current start, by the corrected `ticksPerBeat * beats * 4 / unit` length (see Findings) |
| LegacySongStructure.ParseRec | engine/src/main/kotlin/midituutti/engine/SongStructure.kt:112-151 | `parseRec` keeps the accumulated measures as a prefix and adds at least the final measure; measure lengths are the corrected `ticksPerBeat * beats * 4 / unit` (see Findings) |
| LegacySongStructure.RestNonZero | engine/src/main/kotlin/midituutti/engine/SongStructure.kt:125-128 | the next signature and the rest of the stream keep non-zero units |
| LegacySongStructure.ParseRecStep | engine/src/main/kotlin/midituutti/engine/SongStructure.kt:122-150 | `parseRec` on a non-empty rest places the first message and continues with the rest |
| LegacySongStructure.ParseRecNumbered | engine/src/main/kotlin/midituutti/engine/SongStructure.kt:120-142 | measure numbers `acc.size + 1` run 1, 2, … without gaps |
| LegacySongStructure.PlaceContiguous | engine/src/main/kotlin/midituutti/engine/SongStructure.kt:136-148 | a placed message keeps the closed measures contiguous and the current measure one measure after the last |
| LegacySongStructure.ParseRecContiguous | engine/src/main/kotlin/midituutti/engine/SongStructure.kt:139-148 | each measure starts one measure, by its own signature, after the previous one |
| LegacySongStructure.ParseRecFirstStart | engine/src/main/kotlin/midituutti/engine/SongStructure.kt:119-148 | the first measure the call adds starts at the current measure start |
| LegacySongStructure.ParseRecOpened | engine/src/main/kotlin/midituutti/engine/SongStructure.kt:139-148 | no empty intermediate measure: every measure after the first begins with the message that crossed into it, at or after its start |
| LegacySongStructure.PlaceOpens | engine/src/main/kotlin/midituutti/engine/SongStructure.kt:136-148 | a message closes at most one measure, the current one as it was, and the measure it opens begins with it |
| LegacySongStructure.ParseRecEvents | engine/src/main/kotlin/midituutti/engine/SongStructure.kt:112-151 | the measures hold the pending events and then every message, each exactly once, in input order |
| LegacySongStructure.PlaceEvents | engine/src/main/kotlin/midituutti/engine/SongStructure.kt:136-148 | placing moves the pending events and the message into the measures, in order |
| LegacySongStructure.ParseRecAdjustments | engine/src/main/kotlin/midituutti/engine/SongStructure.kt:141-142 | with sorted input and positive measure lengths, every added measure has seen every adjustment up to its start |
| LegacySongStructure.ParseRecEndAdjustments | engine/src/main/kotlin/midituutti/engine/SongStructure.kt:119-121 | the last measure has seen the whole stream |
| LegacySongStructure.PlaceAdjustments | engine/src/main/kotlin/midituutti/engine/SongStructure.kt:139-142 | the measure a message closes has seen the history so far and starts before every later message |
| LegacySongStructure.Measures | engine/src/main/kotlin/midituutti/engine/SongStructure.kt:65-69 | building fails with a cast error exactly when there is no time-signature or no tempo message; measure lengths are the corrected `ticksPerBeat * beats * 4 / unit` (see Findings) |
| LegacySongStructure.MeasuresParse | engine/src/main/kotlin/midituutti/engine/SongStructure.kt:65-69 | a song's measures are those `parseRec` builds from the first signature, tempo and tick |
| LegacySongStructure.MeasuresSpec | engine/src/main/kotlin/midituutti/engine/SongStructure.kt:100-151 | the measures are numbered 1, 2, …, the first starts at the first time-signature tick, each starts one measure after the previous one, each later one is opened by a message at or after its start, and their events are the messages in order |
| LegacySongStructure.MeasuresAdjustments | engine/src/main/kotlin/midituutti/engine/SongStructure.kt:173-182 | with sorted input a measure's adjustments per channel are, per type, the last one at or before its start |
| LegacySongStructure.MeasureCollected | engine/src/main/kotlin/midituutti/engine/SongStructure.kt:141-142 | every measure's adjustments come from the history of a prefix after which every message is later than its start |
| LegacySongStructure.ParseRecCollected | engine/src/main/kotlin/midituutti/engine/SongStructure.kt:101-102 | every measure `parse` builds from a sorted stream has seen every adjustment up to its start |
| PrototypeSongStructure.MeasureClickSpec | src/engine/kotlin/midituutti/engine/SongStructure.kt:40-48 | the clicked measure keeps start and signature; its events are sorted by tick, are a permutation of the clicks and the original events, and contain `numerator * 8 / denominator` clicks |
| PrototypeSongStructure.InjectClick | src/engine/kotlin/midituutti/engine/SongStructure.kt:30-51 | every measure gets its clicks, the measures keep their number and order |
| PrototypeSongStructure.IsTimeSignature | src/engine/kotlin/midituutti/engine/SongStructure.kt:20 | `metaType() == TimeSignature` holds exactly for time-signature messages |
| PrototypeSongStructure.ParseRec | src/engine/kotlin/midituutti/engine/SongStructure.kt:66-92 | `parseRec` keeps the accumulated measures as a prefix and always adds the final measure; measure lengths are the corrected `ticksPerBeat * beats * 4 / unit` (see Findings) |
| PrototypeSongStructure.RestNonZero | src/engine/kotlin/midituutti/engine/SongStructure.kt:76-79 | the next signature and the rest of the stream keep non-zero denominators |
| PrototypeSongStructure.Measures | src/engine/kotlin/midituutti/engine/SongStructure.kt:19-22 | building fails with a cast error exactly when there is no time-signature message; measure lengths are the corrected `ticksPerBeat * beats * 4 / unit` (see Findings) |
| PrototypeSongStructure.MeasureEventsSnoc | src/engine/kotlin/midituutti/engine/SongStructure.kt:72 | closing one more measure appends its events |
| PrototypeSongStructure.ParseRecEvents | src/engine/kotlin/midituutti/engine/SongStructure.kt:66-92 | the measures' events are the pending events and then every message wrapped as a `MessageEvent`, in order |
| PrototypeSongStructure.ContiguousSnoc | src/engine/kotlin/midituutti/engine/SongStructure.kt:84-89 | closing a measure the last one is followed by keeps the measures contiguous |
| PrototypeSongStructure.ParseRecContiguous | src/engine/kotlin/midituutti/engine/SongStructure.kt:63-89 | consecutive starts differ by exactly one measure length of the earlier measure's signature |
| PrototypeSongStructure.NextMeasureStart | src/engine/kotlin/midituutti/engine/SongStructure.kt:63-64 | the next measure starts one measure length later, the same length as the newest parser's, and later than the current start for a playable signature |
| PrototypeSongStructure.ParseRecFirstStart | src/engine/kotlin/midituutti/engine/SongStructure.kt:66-89 | the first measure the call adds starts at the current measure start |
| PrototypeSongStructure.ParseRecSignatures | src/engine/kotlin/midituutti/engine/SongStructure.kt:76-89 | every measure's signature is the initial one or one a message carries, used from the next message on |
| PrototypeSongStructure.MeasuresParse | src/engine/kotlin/midituutti/engine/SongStructure.kt:19-22 | a song's measures are those `parseRec` builds from the first time-signature message |
| PrototypeSongStructure.MeasuresSpec | src/engine/kotlin/midituutti/engine/SongStructure.kt:54-92 | the measures start at the first time-signature tick, each one measure after the previous one, each with a signature some message sets, and their events are the messages in order |
| LegacyEngine.MuteOrPass | engine/src/main/kotlin/midituutti/engine/engine.kt:19-34 | a note on a channel whose MidiTrack is muted is sent with velocity 0 at the same tick; every other message, the click track's membership notwithstanding, passes unchanged |
| LegacyEngine.Adjusted | engine/src/main/kotlin/midituutti/engine/engine.kt:227 | the adjusted tempo exists exactly when a tempo is known and is the tempo times the multiplier |
| LegacyEngine.PlayedStep | engine/src/main/kotlin/midituutti/engine/engine.kt:238-291 | the player takes the queued events one at a time, in order |
| LegacyEngine.TicksDelta | engine/src/main/kotlin/midituutti/engine/engine.kt:240 | the delta of the first event of a session is 0; otherwise it is what takes the previous event's tick to this one |
| LegacyEngine.Outgoing | engine/src/main/kotlin/midituutti/engine/engine.kt:265-284 | a marker or a click on a muted click track sends nothing, anything else sends one message at the event's own tick, a click as its click note |
| LegacyEngine.Stepped | engine/src/main/kotlin/midituutti/engine/engine.kt:240-290 | one event appends its delta, records its tick as the previous one, appends the message it sends if any, sets and broadcasts the tempo for a tempo message and the current measure for a marker, and leaves the rest alone |
| LegacyEngine.PlayedAppend | engine/src/main/kotlin/midituutti/engine/engine.kt:238-291 | taking two event lists one after the other is taking their concatenation |
| LegacyEngine.PlayedDeltas | engine/src/main/kotlin/midituutti/engine/engine.kt:241 | one tick delta per event, 0 for the first of a session and the distance from the previous event otherwise; `prevTicks` ends at the last event's tick |
| LegacyEngine.SessionDeltasTotal | engine/src/main/kotlin/midituutti/engine/engine.kt:233-290 | a session's deltas add up to the distance in ticks from its first event to its last |
| LegacyEngine.DropLast | engine/src/main/kotlin/midituutti/engine/engine.kt:251-263 | dropping the final event keeps the positions of the last marker and the last tempo message before it |
| LegacyEngine.PlayedMeasureAndTempo | engine/src/main/kotlin/midituutti/engine/engine.kt:251-263 | after a session the current measure is that of the last marker taken and the tempo that of the last tempo message, each unchanged when there is none |
| LegacyEngine.PlayedUnmuted | engine/src/main/kotlin/midituutti/engine/engine.kt:265-284 | with nothing muted the port receives every message of the file unchanged and every click as its note, in order, and nothing for a marker |
| LegacyEngine.PlayedMuted | engine/src/main/kotlin/midituutti/engine/engine.kt:265-284 | every note sent on a muted channel has velocity 0 unless it is a click of an unmuted click track; with the click track muted no click is sent at all |
| LegacyEngine.Wrapped | engine/src/main/kotlin/midituutti/engine/engine.kt:180-182 | a measure's events are queued one element each, in order |
| LegacyEngine.MarkersAppend | engine/src/main/kotlin/midituutti/engine/engine.kt:176-183 | markers and events of two queue segments concatenate |
| LegacyEngine.WrappedContents | engine/src/main/kotlin/midituutti/engine/engine.kt:180-182 | a measure's own elements hold no marker and give back its events |
| LegacyEngine.MeasureQueuedContents | engine/src/main/kotlin/midituutti/engine/engine.kt:177-182 | a measure is queued as its one marker followed by its events |
| LegacyEngine.PassQueuedContents | engine/src/main/kotlin/midituutti/engine/engine.kt:176-183 | a pass announces first..last in order and holds exactly those measures' events between the markers |
| LegacyEngine.MeasureEventsSlice | engine/src/main/kotlin/midituutti/engine/engine.kt:176-183 | a pass to `last` is the pass to `last - 1` followed by measure `last` |
| LegacyEngine.MarkerThenEvents | engine/src/main/kotlin/midituutti/engine/engine.kt:257-260 | a marker followed by marker-free events leaves the player at the marker's measure |
| LegacyEngine.PassEndsAtLast | engine/src/main/kotlin/midituutti/engine/engine.kt:257-260 | a player that has taken a whole non-empty pass stands at its last measure |
| LegacyEngine.PassRead | engine/src/main/kotlin/midituutti/engine/engine.kt:176-177 | one pass succeeds exactly when it is empty or its cursors stay in the song; otherwise `measures[readerCursor - 1]` throws IndexOutOfBounds |
| LegacyEngine.RunReadOrder | engine/src/main/kotlin/midituutti/engine/engine.kt:171-187 | with cursors inside the song the reader never fails and announces startFrom..to once, then from..to on every later pass |
| LegacyEngine.RunReadStops | engine/src/main/kotlin/midituutti/engine/engine.kt:173-191 | once a pass has failed, later passes add nothing |
| LegacyEngine.WrappedStep | engine/src/main/kotlin/midituutti/engine/engine.kt:180-182 | one more event of a measure is queued after the ones before |
| LegacyEngine.PassQueuedStep | engine/src/main/kotlin/midituutti/engine/engine.kt:176-183 | one more cursor queues its measure after the ones before |
| LegacyEngine.ClampReal | engine/src/main/kotlin/midituutti/engine/engine.kt:357 | `minOf(maxOf(x, lo), hi)` on reals lies in lo..hi, is x inside it, lo below it and hi above it |
| LegacyEngine.PlayControl.constructor | engine/src/main/kotlin/midituutti/engine/engine.kt:99-105 | the play control starts at measure 1, not playing |
| LegacyEngine.PlayControl.Play | engine/src/main/kotlin/midituutti/engine/engine.kt:107-111 | play sets playing and wakes the waiting threads exactly on a change from stopped to playing |
| LegacyEngine.PlayControl.Stop | engine/src/main/kotlin/midituutti/engine/engine.kt:113-115 | stop clears playing and keeps the measure |
| LegacyEngine.PlayControl.SetCurrentMeasure | engine/src/main/kotlin/midituutti/engine/engine.kt:131-133 | the measure is stored as given |
| LegacyEngine.PlayControl.AtMeasureStart | engine/src/main/kotlin/midituutti/engine/engine.kt:138-140 | a measure marker makes its measure current |
| LegacyEngine.EventQueue.Put | engine/src/main/kotlin/midituutti/engine/engine.kt:178-181 | `put` appends the event at the end of the queue |
| LegacyEngine.EventQueue.Take | engine/src/main/kotlin/midituutti/engine/engine.kt:239 | `take` removes and returns the oldest event |
| LegacyEngine.EventQueue.Clear | engine/src/main/kotlin/midituutti/engine/engine.kt:189 | `clear` empties the queue |
| LegacyEngine.Listeners.Notify | engine/src/main/kotlin/midituutti/engine/engine.kt:367 | every playback listener is told the event |
| LegacyEngine.Reader.ReadPass | engine/src/main/kotlin/midituutti/engine/engine.kt:176-183 | one pass appends `PassRead`'s elements to the queue and reports its failure |
| LegacyEngine.Reader.PutMeasure | engine/src/main/kotlin/midituutti/engine/engine.kt:177-182 | a measure's marker with the cursor, then its events, are put on the queue |
| LegacyEngine.Reader.Run | engine/src/main/kotlin/midituutti/engine/engine.kt:167-193 | the reading loop appends, from the current measure and then from `from`, what `RunRead` reads |
| LegacyEngine.Reader.Interrupted | engine/src/main/kotlin/midituutti/engine/engine.kt:188-190 | an interrupt while reading clears the queue |
| LegacyEngine.Player.constructor | engine/src/main/kotlin/midituutti/engine/engine.kt:196-213 | a new player has nothing muted and no tempo |
| LegacyEngine.Player.Mute | engine/src/main/kotlin/midituutti/engine/engine.kt:215-217 | mute adds the track to the muted set and changes nothing else |
| LegacyEngine.Player.UnMute | engine/src/main/kotlin/midituutti/engine/engine.kt:219-221 | unMute removes the track from the muted set and changes nothing else |
| LegacyEngine.Player.TempoChanged | engine/src/main/kotlin/midituutti/engine/engine.kt:347-350 | the engine's listeners hear the tempo, the multiplier and the adjusted tempo |
| LegacyEngine.Player.HandleEvent | engine/src/main/kotlin/midituutti/engine/engine.kt:241-289 | one element taken is `Stepped`: its delta, the listener calls, the message sent if `Outgoing` yields one |
| LegacyEngine.Player.PlaySession | engine/src/main/kotlin/midituutti/engine/engine.kt:238-291 | a session of n events takes them off the queue in order and leaves what `Played` describes |
| LegacyEngine.PlayerEngine.Play | engine/src/main/kotlin/midituutti/engine/engine.kt:304-308 | play starts the play control and broadcasts PlayEvent(true) |
| LegacyEngine.PlayerEngine.SignalStop | engine/src/main/kotlin/midituutti/engine/engine.kt:317-323 | the engine stops, the reader's queue is cleared, every channel gets All Sound Off and PlayEvent(false) is broadcast |
| LegacyEngine.PlayerEngine.Stop | engine/src/main/kotlin/midituutti/engine/engine.kt:310-315 | stop signals only when playing and otherwise changes nothing |
| LegacyEngine.PlayerEngine.Quit | engine/src/main/kotlin/midituutti/engine/engine.kt:325-327 | quit always signals the stop: not playing, queue cleared, panic sent, the stop announced, the current measure kept |
| LegacyEngine.PlayerEngine.Mute | engine/src/main/kotlin/midituutti/engine/engine.kt:329-333 | mute adds the track to the muted set and broadcasts MutePlaybackEvent(track, true) |
| LegacyEngine.PlayerEngine.UnMute | engine/src/main/kotlin/midituutti/engine/engine.kt:335-339 | unMute removes it and broadcasts MutePlaybackEvent(track, false) |
| LegacyEngine.PlayerEngine.UpdateTempoMultiplier | engine/src/main/kotlin/midituutti/engine/engine.kt:356-359 | the multiplier becomes f(old) held to 0.1..3.0 and the listeners hear the new adjusted tempo |
| LegacyEngine.PlayerEngine.JumpToBar | engine/src/main/kotlin/midituutti/engine/engine.kt:361-365 | jumping stops, moves to f(current) held to 1..size, and plays; the listeners hear stop (only if it was playing) then play; a playing player's queue is cleared and the panic sequence sent, a stopped one's queue and port are untouched; tempo, multiplier and muted tracks are unchanged |
| LegacyEngine.CreateEngine | engine/src/main/kotlin/midituutti/engine/engine.kt:372-392 | a stopped engine at measure 1 with multiplier 1.0, nothing muted, no tempo, an empty queue, the reader over `initialFrom ?: 1`..`initialTo ?: size`, returned with the measure count |
| PrototypeEngine.PlayedStep | src/engine/kotlin/midituutti/engine/engine.kt:215-248 | the player takes the handed-over events one at a time, in order |
| PrototypeEngine.Outgoing | src/engine/kotlin/midituutti/engine/engine.kt:228-245 | a tempo message or a click on a muted click track sends nothing, anything else sends one message at the event's own tick, a click as its click note |
| PrototypeEngine.Stepped | src/engine/kotlin/midituutti/engine/engine.kt:218-247 | one event appends its delta and records its tick; a tempo message sets and broadcasts the tempo and sends nothing; anything else keeps the tempo and sends what `Outgoing` gives |
| PrototypeEngine.PlayedDeltas | src/engine/kotlin/midituutti/engine/engine.kt:218 | one tick delta per event, 0 for the first of a session and the distance from the previous event otherwise |
| PrototypeEngine.PlayedSendsNoTempo | src/engine/kotlin/midituutti/engine/engine.kt:228-234 | tempo messages are consumed, never forwarded to the port |
| PrototypeEngine.TempoStep | src/engine/kotlin/midituutti/engine/engine.kt:228-231 | a tempo message sets the tempo and is what the listeners hear last; any other event keeps the tempo |
| PrototypeEngine.PlayedTempo | src/engine/kotlin/midituutti/engine/engine.kt:228-231 | after a session the tempo is that of the last tempo message, which is also the listeners' last tempo event; unchanged without one |
| PrototypeEngine.PlayedUnmuted | src/engine/kotlin/midituutti/engine/engine.kt:227-245 | with nothing muted the port receives every message except tempo messages unchanged, and every click as its note |
| PrototypeEngine.PlayedMuted | src/engine/kotlin/midituutti/engine/engine.kt:233-244 | every note sent on a muted channel has velocity 0 unless it is a click of an unmuted click track |
| PrototypeEngine.PassRead | src/engine/kotlin/midituutti/engine/engine.kt:155-166 | a pass succeeds exactly when it is empty or stays in the song, and then leaves the cursor at `from`; otherwise it throws IndexOutOfBounds with the cursor outside the song |
| PrototypeEngine.RunReadEvents | src/engine/kotlin/midituutti/engine/engine.kt:155-167 | with cursors inside the song the reader never fails, hands over startFrom..to then from..to on every later pass, and leaves the cursor at `from` |
| PrototypeEngine.RunReadStops | src/engine/kotlin/midituutti/engine/engine.kt:154-170 | once a pass has failed, later passes hand over nothing and leave the cursor |
| PrototypeEngine.MeasureEventsSlice | src/engine/kotlin/midituutti/engine/engine.kt:158-165 | a pass to `last` is the pass to `last - 1` followed by measure `last` |
| PrototypeEngine.PlayControl.constructor | src/engine/kotlin/midituutti/engine/engine.kt:95-100 | the play control starts stopped |
| PrototypeEngine.PlayControl.Play | src/engine/kotlin/midituutti/engine/engine.kt:102-106 | play sets playing and wakes waiters exactly on a change from stopped to playing |
| PrototypeEngine.PlayControl.Stop | src/engine/kotlin/midituutti/engine/engine.kt:108-110 | stop clears playing |
| PrototypeEngine.HandOff.Put | src/engine/kotlin/midituutti/engine/engine.kt:163 | a handed-over event waits behind the earlier ones |
| PrototypeEngine.HandOff.Take | src/engine/kotlin/midituutti/engine/engine.kt:216 | `take` returns the oldest event handed over |
| PrototypeEngine.Reader.ReadPass | src/engine/kotlin/midituutti/engine/engine.kt:156-166 | one pass hands over what `PassRead` reads, moves the cursor along and sets it back to `from` |
| PrototypeEngine.Reader.PutMeasure | src/engine/kotlin/midituutti/engine/engine.kt:162-164 | a measure's events are handed over in order |
| PrototypeEngine.Reader.Run | src/engine/kotlin/midituutti/engine/engine.kt:149-172 | the reading loop hands over what `RunRead` reads, each pass from where the previous one left the cursor |
| PrototypeEngine.Player.constructor | src/engine/kotlin/midituutti/engine/engine.kt:175-192 | a new player has nothing muted and no tempo |
| PrototypeEngine.Player.Mute | src/engine/kotlin/midituutti/engine/engine.kt:194-196 | mute adds the track to the muted set |
| PrototypeEngine.Player.UnMute | src/engine/kotlin/midituutti/engine/engine.kt:198-200 | unMute removes the track from the muted set |
| PrototypeEngine.Player.TempoChanged | src/engine/kotlin/midituutti/engine/engine.kt:302-305 | the engine's listeners hear the tempo, the multiplier and the adjusted tempo |
| PrototypeEngine.Player.HandleEvent | src/engine/kotlin/midituutti/engine/engine.kt:216-247 | one event taken is `Stepped`: its delta, then the tempo consumed or the message sent |
| PrototypeEngine.Player.PlaySession | src/engine/kotlin/midituutti/engine/engine.kt:215-248 | a session of n events takes them in order and leaves what `Played` describes |
| PrototypeEngine.PlayerEngine.Play | src/engine/kotlin/midituutti/engine/engine.kt:261-264 | play starts the play control and broadcasts PlayEvent(true) |
| PrototypeEngine.PlayerEngine.SignalStop | src/engine/kotlin/midituutti/engine/engine.kt:272-278 | the engine stops, every channel gets All Sound Off and PlayEvent(false) is broadcast; the cursor stays |
| PrototypeEngine.PlayerEngine.Stop | src/engine/kotlin/midituutti/engine/engine.kt:266-270 | stop signals only when playing and otherwise changes nothing |
| PrototypeEngine.PlayerEngine.Quit | src/engine/kotlin/midituutti/engine/engine.kt:280-282 | quit always signals the stop |
| PrototypeEngine.PlayerEngine.Mute | src/engine/kotlin/midituutti/engine/engine.kt:284-288 | mute adds the track and broadcasts MutePlaybackEvent(track, true) |
| PrototypeEngine.PlayerEngine.UnMute | src/engine/kotlin/midituutti/engine/engine.kt:290-294 | unMute removes the track and broadcasts MutePlaybackEvent(track, false) |
| PrototypeEngine.PlayerEngine.UpdateTempoMultiplier | src/engine/kotlin/midituutti/engine/engine.kt:307-310 | the multiplier becomes f(old) held to 0.1..3.0 and the listeners hear the new adjusted tempo |
| PrototypeEngine.PlayerEngine.JumpToBar | src/engine/kotlin/midituutti/engine/engine.kt:312-316 | jumping stops, moves the reader's cursor to f(cursor) held to 1..size, keeps from and to, and plays; the listeners hear stop (only if it was playing) then play; a playing player sends the panic sequence, a stopped one sends nothing; multiplier and muted tracks are unchanged |
| PrototypeEngine.CreateEngine | src/engine/kotlin/midituutti/engine/engine.kt:323-342 | a stopped engine with multiplier 1.0, nothing muted, no tempo, the cursor and `from` both at `initialFrom ?: 1`, `to` at `initialTo ?: size`, returned with the measure count |
| Controller.AssociateBy | src/main/kotlin/midituutti/playerController.kt:33 | `associateBy { it.track }` yields a map that holds each track once |
| Controller.AssociateByDistinct | src/main/kotlin/midituutti/playerController.kt:33 | channels of distinct tracks become one entry each, in order |
| Controller.AssociatedChannels | src/main/kotlin/midituutti/playerController.kt:33 | channels of distinct tracks are each found under their own track, and the map's values are the channels in order |
| Controller.InitialMixerState | src/main/kotlin/midituutti/playerController.kt:25-33 | the initial mixer holds each track once |
| Controller.InitialChannelsDistinct | src/main/kotlin/midituutti/playerController.kt:26-32 | the initial channels are MidiTrack(1)..MidiTrack(16) and then ClickTrack, each once, all nominal |
| Controller.InitialMixerTracks | src/main/kotlin/midituutti/playerController.kt:25-33 | the initial mixer's tracks are the sixteen MIDI channels and then the click track |
| Controller.InitialMixerChannels | src/main/kotlin/midituutti/playerController.kt:28-31 | every track starts at volume 1.0 and not soloed; only the click track starts muted |
| Controller.InitialMixerNoSolo | src/main/kotlin/midituutti/playerController.kt:28-31 | no channel starts soloed |
| Controller.MaximumVolume | src/main/kotlin/midituutti/playerController.kt:83 | the maximum volume is at least 1.0 and every channel's volume, and it is 1.0 or one of those volumes |
| Controller.SomeSolo | src/main/kotlin/midituutti/playerController.kt:84 | `someSolo` holds exactly when some channel is soloed |
| Controller.TrackVolumes | src/main/kotlin/midituutti/playerController.kt:86-93 | the gain map has exactly the tracks of the channels |
| Controller.TrackVolumesAt | src/main/kotlin/midituutti/playerController.kt:86-93 | a channel that no later channel of the same track replaces has its resolved volume in the map |
| Controller.ResolvedVolume | src/main/kotlin/midituutti/playerController.kt:89 | a muted channel or one left out of a solo is silent; a volume between 0 and the maximum gives a gain between 0 and 1, the loudest channel gain 1 |
| Controller.EngineGainsOf | src/main/kotlin/midituutti/playerController.kt:82-93 | every track of the mixer, and no other, gets a gain: 0 when muted or left out of a solo, else its volume over the maximum |
| Controller.GainInUnitRange | src/main/kotlin/midituutti/playerController.kt:83-89 | with non-negative volumes every gain lies in [0, 1] |
| Controller.MutedIsSilent | src/main/kotlin/midituutti/playerController.kt:89 | a muted channel is silent, whatever its volume and solo flag |
| Controller.SoloSilencesOthers | src/main/kotlin/midituutti/playerController.kt:84-89 | once any channel is soloed, every channel that is not is silent |
| Controller.SoloedIsHeard | src/main/kotlin/midituutti/playerController.kt:89 | a soloed, unmuted channel keeps its volume over the maximum |
| Controller.NominalGains | src/main/kotlin/midituutti/playerController.kt:83-89 | with nothing muted or soloed and no volume above 1.0 each gain is the channel's volume itself |
| Controller.UpdatedEntry | src/main/kotlin/midituutti/playerController.kt:77 | `mixerState.plus(track to channel)` replaces or adds that track's channel and keeps every other one |
| Controller.PushedGains | src/main/kotlin/midituutti/playerController.kt:94 | after the push every track both sides know plays at the controller's resolved gain |
| Controller.PlayerController.constructor | src/main/kotlin/midituutti/playerController.kt:21-33 | a new controller has no player and no song, and the initial mixer |
| Controller.PlayerController.Load | src/main/kotlin/midituutti/playerController.kt:35-48 | the old player is quit (stopped, its port panicked, the stop announced) and a new, stopped player over the whole song takes its place; the mixer is pushed to it and kept; the song is the new player's |
| Controller.PlayerController.TogglePlay | src/main/kotlin/midituutti/playerController.kt:50-57 | a playing player stops, a stopped one plays; before `load` IllegalStateException |
| Controller.PlayerController.Jump | src/main/kotlin/midituutti/playerController.kt:55-59 | the player's jumpToBar: playing at f(current) held to the range; before `load` IllegalStateException |
| Controller.PlayerController.ResetMeasureRange | src/main/kotlin/midituutti/playerController.kt:61-63 | the player's range becomes the pair, the cursor its start, playing unchanged; before `load` IllegalStateException |
| Controller.PlayerController.SetTempoModifier | src/main/kotlin/midituutti/playerController.kt:65 | the player's tempo modifier becomes f with the tempo kept; before `load` IllegalStateException |
| Controller.PlayerController.Song | src/main/kotlin/midituutti/playerController.kt:67-69 | the loaded song, or IllegalStateException before `load` |
| Controller.PlayerController.MixerChannelState | src/main/kotlin/midituutti/playerController.kt:74 | the track's channel, or NoSuchElementException when the mixer does not hold the track |
| Controller.PlayerController.UpdateEngineMixer | src/main/kotlin/midituutti/playerController.kt:82-95 | the player's mixer becomes its old mixer merged with the resolved gains, nothing else of it changes; before `load` IllegalStateException |
| Controller.PlayerController.UpdateMixerChannel | src/main/kotlin/midituutti/playerController.kt:71-80 | the updated channel is stored under its track and the engine hears the new gains; a missing track or no player leaves the mixer as it was and reports the failure |
| AppController.AppPlayer.constructor | app/src/main/kotlin/midituutti/playerController.kt:33-36 | the player as the app controller sees it starts stopped, with nothing muted and no gains |
| AppController.AppPlayer.Mute | app/src/main/kotlin/midituutti/playerController.kt:43 | mute adds the track to the muted set |
| AppController.AppPlayer.UnMute | app/src/main/kotlin/midituutti/playerController.kt:44 | unMute removes the track from the muted set |
| AppController.AppPlayer.Play | app/src/main/kotlin/midituutti/playerController.kt:51 | play sets playing and nothing else |
| AppController.AppPlayer.Stop | app/src/main/kotlin/midituutti/playerController.kt:50 | stop clears playing and nothing else |
| AppController.AppPlayer.UpdateMixer | app/src/main/kotlin/midituutti/playerController.kt:91 | updateMixer hands the gains over |
| AppController.InitialMixerState | app/src/main/kotlin/midituutti/playerController.kt:26-30 | the initial mixer holds each track once |
| AppController.InitialChannelsDistinct | app/src/main/kotlin/midituutti/playerController.kt:26-29 | the initial channels are MidiTrack(1)..MidiTrack(16) and then ClickTrack, each once, all nominal and unmuted |
| AppController.InitialMixerTracks | app/src/main/kotlin/midituutti/playerController.kt:26-30 | the initial mixer's tracks are the sixteen MIDI channels and then the click track |
| AppController.InitialMixerChannels | app/src/main/kotlin/midituutti/playerController.kt:28 | every track, the click included, starts at volume 1.0, unmuted and not soloed |
| AppController.MuteGainsOf | app/src/main/kotlin/midituutti/playerController.kt:82-90 | every track of the mixer, and no other, gets a gain: 0 when muted, otherwise its volume over the maximum, whatever the solo flags |
| AppController.MuteGainInUnitRange | app/src/main/kotlin/midituutti/playerController.kt:82-90 | a non-negative volume yields a gain in [0, 1] |
| AppController.PlayerController.constructor | app/src/main/kotlin/midituutti/playerController.kt:22-30 | a new controller has no player and no song, and the initial mixer |
| AppController.PlayerController.Load | app/src/main/kotlin/midituutti/playerController.kt:32-47 | the old player is stopped, the new one takes its place with the click muted and the drum track unmuted, the mixer is kept and the song is the new player's |
| AppController.PlayerController.TogglePlay | app/src/main/kotlin/midituutti/playerController.kt:49-52 | a playing player stops, a stopped one plays; before `load` IllegalStateException |
| AppController.PlayerController.ToggleTrack | app/src/main/kotlin/midituutti/playerController.kt:54-57 | the track's muted flag flips and every other track's stays; before `load` IllegalStateException |
| AppController.PlayerController.ToggleClick | app/src/main/kotlin/midituutti/playerController.kt:59-62 | the click track's muted flag flips and every other track's stays; before `load` IllegalStateException |
| AppController.PlayerController.Song | app/src/main/kotlin/midituutti/playerController.kt:76-78 | the loaded song, or IllegalStateException before `load` |
| AppController.PlayerController.UpdateMixer | app/src/main/kotlin/midituutti/playerController.kt:80-93 | the channel is stored under its track and the player is handed the mute-only gains of the new state; before `load` nothing changes and IllegalStateException |
| Bars.MidoMessage.WithTime | src/bars.py:31 | `message.copy(time=t)` has delta time t and is of the same kind |
| Bars.BarTicksExamples | src/test.py:9-15 | the bar lengths `test_bar_ticks` expects: 8 ticks for 4/4, 10 for 5/4 and 14 for 7/8 at two ticks per beat |
| Bars.InjectBarMeta | src/bars.py:13-34 | the loop's output is that of `Injected`, the message-by-message definition of its body, from no signature and `bar_tick` 0 |
| Bars.InjectedAppend | src/bars.py:17-32 | running over `a + b` is running over `a` and then over `b` |
| Bars.DroppedBeforeSignature | src/bars.py:18-22 | before the first time_signature messages are dropped and nothing changes |
| Bars.OutputSkipsUnsignedPrefix | src/bars.py:18-22 | so the output for `prefix + rest` is the output for `rest` alone |
| Bars.TotalTimeAppend | src/bars.py:17-32 | the total delta time of `a + b` is the sum of theirs |
| Bars.TotalTimeSnoc | src/bars.py:17-32 | appending a message adds its delta time |
| Bars.StepTime | src/bars.py:22-32 | once a signature is known, a marker and the rewritten message split the message's delta between them, so each step adds exactly its delta |
| Bars.TimePreserved | src/bars.py:17-32 | once a signature is known the output takes exactly as long as the input |
| Bars.OutputTime | src/bars.py:17-34 | the output takes as long as the input from its first time_signature on |
| Bars.InjectedSnoc | src/bars.py:17-32 | one more message is one more step |
| Bars.InBarKept | src/bars.py:21-32 | with positive bars and non-negative deltas `bar_tick` stays inside the bar and no emitted delta is negative |
| Bars.OutputTimesNonNegative | src/bars.py:13-34 | from the start, over such input, every emitted delta time is non-negative |
| Bars.SignedState | src/bars.py:18-22 | a signature is current exactly when some time_signature has been read |
| Bars.EachMessageEmits | src/bars.py:17-32 | each input message adds exactly: nothing before the first signature, itself for a signature or a message inside the bar, else a 4/4 marker followed by the message with the rest of its delta |
| Bars.MarkerSplitsDelta | src/bars.py:23-31 | over such input an inserted marker takes a positive part of the delta and leaves a non-negative rest |
| Bars.FixtureInjected | src/test.py:17-50 | `test_inject_bar_meta`: the expected output, markers at deltas 5 and 4 included |
| Bars.MarkerForgetsOffset | src/bars.py:32 | as written: after a marker `bar_tick` restarts at 0, so three notes 6 ticks apart in 4/4 at two ticks per beat leave the last note 10 ticks past the output's last bar line, beyond the 8-tick bar |
| Bars.BarMarkers | src/bars.py:27-29 | `count` 4/4 markers, the first at the given delta and the others a bar apart |
| Bars.SinceBarAfterMarkers | src/bars.py:27-31 | after a marker, a message's position in the bar is its own delta |
| Bars.CorrectedStepOnBarLines | src/bars.py:22-32 | corrected: one step keeps `bar_tick` equal to the output's position in its bar and inside the bar |
| Bars.CorrectedOnBarLines | src/bars.py:17-32 | corrected: over positive bars and non-negative deltas the whole run keeps that |
| Bars.BarMarkersTime | src/bars.py:27-31 | the markers of a corrected crossing take the first delta and then a bar each |
| Bars.CorrectedStepTime | src/bars.py:22-32 | corrected: each crossing still splits the delta exactly |
| Bars.CrossingSplitsDelta | src/bars.py:22-32 | a delta crossing at least one bar line is the rest of the current bar, whole bars, and the remainder in the new bar |
| Bars.CorrectedTimePreserved | src/bars.py:17-32 | corrected: once a signature is known the output takes exactly as long as the input |
| Bars.CorrectedSnoc | src/bars.py:17-32 | corrected: one more message is one more corrected step |
| Bars.CorrectedMarksEveryBar | src/bars.py:26-32 | corrected: the three notes 6 ticks apart get markers at both bar lines they cross, at 8 and 16 ticks |

## Left out

- Threads and timing. The model leaves out `Thread.sleep`, the monotonic `TimeMark`, `waitForPlay` with wait/notify, and the asynchronous delivery of `interrupt`. Each engine's run loop is its sequence of state changes; an interrupt is the `stop`/`quit` call that ends a session.
- Blocking queues. The `LinkedBlockingQueue(1000)` and the `SynchronousQueue` between reader and player are sequences. Their capacity and blocking are not modelled, nor are the interleavings of the two threads.
- The endless `while (playing)` loops are bounded by a number of passes or events given as a parameter. Behaviour beyond that bound is not stated.
- Floating point. Tempo, volumes, gains and tempo multipliers are `real`, so rounding of IEEE doubles is not modelled. `roundToInt` is exact rounding with ties up.
- Integer overflow. `Int`/`Long` wrap-around is not modelled: ticks, measure numbers and sizes are unbounded integers.
- Kotlin `assert` calls in `resetMeasureRange` are preconditions. The JVM runs with assertions off unless enabled, so an unchecked call with a bad range is not modelled.
- `EngineTraceLogger` and tracelogger.kt write timing samples to a CSV file. This is diagnostic and has no effect on playback.
- File I/O. This covers `openFile`, `MidiSystem` loading, `createDefaultSynthesizerPort` and `MidiDecoder.decodeMessage`. The decoded events and the port are parameters, and classification is the `Midi.Classify` function over already-decoded payloads.
- `SongStructure.withClick` and `SongStructure.of` only compose `Measures` with `InjectClick` over a file's messages. They are not separate members.
- `trackInstruments` maps program changes to instrument names through the Java MIDI library's name tables, a foreign library.
- The SongStructureTest fixtures read a .mid file that is not part of this model. Their expected measure starts and adjustments are not restated as concrete lemmas.
- Listener registration: `addPlaybackListener` and `addPlayerListener`. Listeners are modelled by the log of events they receive.
- The JavaFX/TornadoFX user interface and its event bus (`fire(UiPlaybackEvent)`).
- The app/ controller's `jump`, `resetMeasureRange` and `setTempoModifier` are not modelled. They forward to a player interface that is not part of this model, so `AppController.AppPlayer` holds only the state that `mute`, `unMute`, `isMuted`, `play`, `stop` and `updateMixer` touch.
- AppController.PlayerController.Load: `player?.quit()` of the old player is modelled as its `stop`; the rest of quitting belongs to the unmodelled player interface.
- The CLI mains (midiTuuttiCommand.kt, singleHitCommand.kt) and the Python scripts src/tuutti.py and src/play.py. They only drive the transport from stdin or mido ports.
- `extract_bars` and `Bar` in src/bars.py are stubs, and their test calls them with other arguments.
- Bars.CorrectedStep: for a signature whose bar is zero or negative ticks long, the corrected step passes messages through without markers. The source puts a marker before every such message instead, and the corrected properties are stated for positive bars only.
- SongStructure.Measures: measure lengths are the corrected `ticksPerBeat * beats * 4 / unit` (see Findings). Under a signature with unit 1, 2 or 3 the source's `measureTicks` divides by zero as soon as a message is placed, and the whole build throws ArithmeticException; the model returns measures instead.
- SongStructure.Measures: `AllPlayable` requires every signature to give a positive measure length. For a zero-length measure (0 beats, or a unit so large that the length rounds to 0) `generateSequence` steps by 0 ticks, `takeWhile` never ends and the source hangs; the model does not describe that non-termination.
- LegacySongStructure.Measures: measure lengths are the corrected `ticksPerBeat * beats * 4 / unit` (see Findings). Under a signature with unit 1, 2 or 3 the source's `measureTicks` divides by zero as soon as a message is placed and the build throws ArithmeticException; the model returns measures instead. A unit of 0, which throws in both, is excluded by `UnitsNonZero`.
- PrototypeSongStructure.Measures: measure lengths are the corrected `ticksPerBeat * beats * 4 / unit` (see Findings). Under a signature with unit 1, 2 or 3 the source's `measureTicks` divides by zero as soon as a message is placed and the build throws ArithmeticException; the model returns measures instead. A unit of 0 is excluded by `UnitsNonZero`.
- SongStructure.InjectClick: requires every unit to be at least 2. For unit 1 the source's `beatTicks` divides by `2 * 1 / 4 = 0` and throws; the model does not describe that exception.
- PrototypeSongStructure.InjectClick: requires every unit to be at least 2. For unit 1 the source's `beatTicks` divides by `2 * 1 / 4 = 0` and throws; the model does not describe that exception.
- SongStructure.Measures and LegacySongStructure.Measures keep the source's recorded tempo, the last one set up to the end of each measure's messages (see Findings). The corrected measures, with the tempo at each start, are defined for the newest builder only, as `SongStructure.MeasuresAtStartTempo`; the engines take the song as a parameter and do not depend on which one is used.

## Findings

| source | as written | input that shows it | evidently intended | confidence | as-written member | corrected member |
|---|---|---|---|---|---|---|
| src/main/kotlin/midituutti/engine/SongStructure.kt:81-82 | `measureTicks` is `ticksPerBeat * beats / (unit / 4)`, and `unit / 4` is 0 for units 1, 2 and 3 | TimeSignature(2, 2) (cut time) at 480 ticks per beat throws ArithmeticException | a measure of `beats` notes of `4 / unit` quarter notes, `ticksPerBeat * beats * 4 / unit`, 1920 ticks for 2/2 | not executed; high | SongStructure.MeasureTicksAsWritten (with SongStructure.CutTimeDividesByZero) | SongStructure.MeasureTicks (with SongStructure.MeasureTicksAsWrittenAgrees and SongStructure.MeasureTicksInQuarters) |
| src/main/kotlin/midituutti/engine/SongStructure.kt:122-185 | `parseRec` builds each measure with `currTempo`, which already holds any tempo message placed in the measure (lines 129-131, 137-141 and 168), while the class comment at line 7 says `initialTempo` is the tempo at the beginning of the measure, and the player sets it at every measure start | a tempo message strictly inside the measure after the current one, for example 480 ticks per beat, [time signature 4/4 at 0, tempo 120 at 0, tempo 60 at 2880]: the second measure starts at 1920 but records 60 bpm, so the player times its first half, from 1920 to 2880, at 60 instead of 120 | each measure records the tempo in force at its start | not executed; medium | SongStructure.TempoChangeInsideMeasure | SongStructure.MeasuresAtStartTempo (with SongStructure.TempoAtSpec and SongStructure.MeasuresAtStartTempoSpec) |
| src/bars.py:32 | after inserting a marker, `bar_tick` restarts at 0 although the message landed `delta - next_bar_start_delta` ticks into the new bar, and a message that crosses several bar lines gets one marker | ticks_per_beat 2, [time_signature 4/4 at 0, note 6, note 6, note 6] gives [TS 0, note 6, TS 2, note 4, note 6]: the last note is 10 ticks past the last marker in an 8-tick bar | `bar_tick` set to where the message lands in its bar, and a marker at every bar line crossed | not executed; medium | Bars.MarkerForgetsOffset | Bars.CorrectedOnBarLines (with Bars.CorrectedStep, Bars.CorrectedTimePreserved and Bars.CorrectedMarksEveryBar) |
