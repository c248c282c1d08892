/**
 * Value types and thin wrappers around the Java MIDI system (midi/src/main/kotlin/midituutti/midi/midi.kt):
 * ticks, tempo, time signatures, notes, the classified message variant, the output port and
 * the merged message stream of a MIDI file.
 */
module Midi {
  import opened Collections
  import opened Outcomes

  // ---------------------------------------------------------------------------
  // Tick
  // ---------------------------------------------------------------------------

  /** An absolute musical time stamp. The Kotlin class wraps a 64-bit Long; here it is unbounded. */
  datatype Tick = Tick(tick: int) {

    function Plus(other: Tick): Tick { Tick(tick + other.tick) }

    function Minus(other: Tick): Tick { Tick(tick - other.tick) }

    /** `Comparable.compareTo`, ordering by the underlying number (Long.compareTo gives -1, 0 or 1). */
    function CompareTo(other: Tick): (r: int)
      ensures r < 0 <==> tick < other.tick
      ensures r == 0 <==> this == other
      ensures r > 0 <==> tick > other.tick
      ensures -1 <= r <= 1
    {
      if tick < other.tick then -1 else if tick == other.tick then 0 else 1
    }

    /**
     * `toDuration(resolution, tempo)` in microseconds: a tick lasts `1 / (resolution * bpm / 60)` seconds.
     * A zero resolution or tempo makes the Kotlin Double division infinite; that case is excluded here.
     */
    function ToDuration(resolution: int, tempo: Tempo): (micros: real)
      requires resolution > 0 && tempo.bpm > 0.0
    {
      var ticksPerSecond := resolution as real * (tempo.bpm / 60.0);
      var tickSize := 1.0 / ticksPerSecond;
      tick as real * tickSize * 1000.0 * 1000.0
    }
  }

  /** Tick addition and subtraction are inverse (absent the Long overflow the model does not have). */
  lemma PlusMinus(a: Tick, b: Tick)
    ensures a.Plus(b).Minus(b) == a
    ensures a.Minus(b).Plus(b) == a
    ensures a.Plus(b).CompareTo(a) == b.CompareTo(Tick(0))
  {
  }

  /** The duration formula: `tick * 60 * 10^6 / (resolution * bpm)` microseconds. */
  lemma ToDurationFormula(t: Tick, resolution: int, tempo: Tempo)
    requires resolution > 0 && tempo.bpm > 0.0
    ensures t.ToDuration(resolution, tempo)
         == t.tick as real * 60_000_000.0 / (resolution as real * tempo.bpm)
  {
    var r := resolution as real;
    var tps := r * (tempo.bpm / 60.0);
    assert tps == r * tempo.bpm / 60.0;
    assert 1.0 / tps == 60.0 / (r * tempo.bpm);
  }

  /** Durations add up: the duration of a sum of tick deltas is the sum of their durations. */
  lemma ToDurationAdditive(a: Tick, b: Tick, resolution: int, tempo: Tempo)
    requires resolution > 0 && tempo.bpm > 0.0
    ensures a.Plus(b).ToDuration(resolution, tempo)
         == a.ToDuration(resolution, tempo) + b.ToDuration(resolution, tempo)
  {
    var k := 1.0 / (resolution as real * (tempo.bpm / 60.0));
    assert (a.tick + b.tick) as real * k == a.tick as real * k + b.tick as real * k;
  }

  /** Doubling the tempo halves the duration of the same tick delta. */
  lemma ToDurationDoubleTempo(t: Tick, resolution: int, tempo: Tempo)
    requires resolution > 0 && tempo.bpm > 0.0
    ensures t.ToDuration(resolution, tempo.Times(2.0)) * 2.0 == t.ToDuration(resolution, tempo)
  {
    ToDurationFormula(t, resolution, tempo);
    ToDurationFormula(t, resolution, tempo.Times(2.0));
    var x := t.tick as real * 60_000_000.0;
    var d := resolution as real * tempo.bpm;
    assert resolution as real * (tempo.bpm * 2.0) == 2.0 * d;
    assert x / (2.0 * d) * 2.0 == x / d;
  }

  // ---------------------------------------------------------------------------
  // Tempo, time signature, note
  // ---------------------------------------------------------------------------

  /** Beats per minute. */
  datatype Tempo = Tempo(bpm: real) {
    function Times(other: real): Tempo { Tempo(bpm * other) }
    function Plus(other: real): Tempo { Tempo(bpm + other) }
    function Minus(other: real): Tempo { Tempo(bpm - other) }
  }

  /** The tempo operators scale or shift the bpm and nothing else. */
  lemma TempoOperators(t: Tempo, a: real, b: real)
    ensures t.Plus(a).Minus(a) == t
    ensures t.Times(a).Times(b) == t.Times(a * b)
    ensures t.Times(1.0) == t
    ensures t.Plus(a).Plus(b) == t.Plus(a + b)
  {
  }

  /** Numerator and denominator; the newest builder calls them `beats` and `unit`. */
  datatype TimeSignature = TimeSignature(beats: int, unit: int)

  datatype OnOff = On | Off

  /** A note event with a 1-based channel. */
  datatype Note = Note(onOff: OnOff, channel: int, note: int, velocity: int)

  // ---------------------------------------------------------------------------
  // Messages
  // ---------------------------------------------------------------------------

  /**
   * A decoded message with its tick. `ChannelAdjustmentMessage` (program change, controller change,
   * pitch wheel: `channel` is the decoder's channel, `typeId` distinguishes the kinds of adjustment)
   * is produced by the newer message module the newest song-structure builder is written against.
   */
  datatype MidiMessage =
    | NoteMessage(ticks: Tick, note: Note)
    | TempoMessage(ticks: Tick, tempo: Tempo)
    | TimeSignatureMessage(ticks: Tick, timeSignature: TimeSignature)
    | ChannelAdjustmentMessage(ticks: Tick, channel: int, typeId: string, data: seq<int>)
    | UnspecifiedMessage(ticks: Tick, data: seq<int>)

  /** A three-byte MIDI channel message as javax.sound.midi.ShortMessage holds it. */
  datatype ShortMessage = ShortMessage(status: int, data1: int, data2: int) {
    function Command(): int { status - status % 16 }
    function Channel(): int { status % 16 }
  }

  const NOTE_OFF := 0x80
  const NOTE_ON := 0x90
  const CONTROL_CHANGE := 0xB0
  /** Controller 120, All Sound Off, a Channel Mode message of the MIDI 1.0 Detailed Specification. */
  const CONTROL_ALL_SOUND_OFF := 0x78

  /**
   * The wire form `NoteMessage.fromNote` builds: `ShortMessage(command, channel - 1, note, velocity)`.
   * ShortMessage rejects a channel outside 0..15 or a data byte outside 0..127.
   */
  function EncodeNote(note: Note): (r: Result<ShortMessage>)
    ensures r.Ok? <==> 1 <= note.channel <= 16 && 0 <= note.note < 128 && 0 <= note.velocity < 128
    ensures r.Ok? ==> r.value.data1 == note.note && r.value.data2 == note.velocity
  {
    var channel := note.channel - 1;
    if 0 <= channel < 16 && 0 <= note.note < 128 && 0 <= note.velocity < 128 then
      // A command has a zero low nibble, so `command | channel` is `command + channel`.
      Ok(ShortMessage((if note.onOff == On then NOTE_ON else NOTE_OFF) + channel, note.note, note.velocity))
    else
      Err(InvalidMidiData)
  }

  /** The status byte of an encoded note carries the note-on or note-off command and the channel less one. */
  lemma EncodeNoteStatus(note: Note)
    requires EncodeNote(note).Ok?
    ensures EncodeNote(note).value.Channel() == note.channel - 1
    ensures EncodeNote(note).value.Command() == (if note.onOff == On then NOTE_ON else NOTE_OFF)
  {
  }

  /** `NoteMessage.fromNote(ticks, note)`: the note message whose wire form is `EncodeNote(note)`. */
  function FromNote(ticks: Tick, note: Note): (r: Result<MidiMessage>)
    ensures r.Ok? <==> EncodeNote(note).Ok?
    ensures r.Ok? ==> r.value == NoteMessage(ticks, note)
  {
    match EncodeNote(note)
    case Ok(_) => Ok(NoteMessage(ticks, note))
    case Err(e) => Err(e)
  }

  /** What the foreign decoder (`MidiDecoder.decodeMessage`) makes of a raw MIDI event. */
  datatype Decoded =
    | DecodedNote(note: Note)
    | DecodedTempo(tempo: Tempo)
    | DecodedTimeSignature(timeSignature: TimeSignature)
    | DecodedOther(data: seq<int>)

  /** The classification in `MidiFile.messages`. */
  function Classify(ticks: Tick, dm: Decoded): (m: MidiMessage)
    ensures m.ticks == ticks
    ensures dm.DecodedNote? <==> m.NoteMessage?
    ensures dm.DecodedTempo? <==> m.TempoMessage?
    ensures dm.DecodedTimeSignature? <==> m.TimeSignatureMessage?
    ensures dm.DecodedOther? <==> m.UnspecifiedMessage?
  {
    match dm
    case DecodedNote(n) => NoteMessage(ticks, n)
    case DecodedTempo(t) => TempoMessage(ticks, t)
    case DecodedTimeSignature(ts) => TimeSignatureMessage(ticks, ts)
    case DecodedOther(d) => UnspecifiedMessage(ticks, d)
  }

  /** One event of a track of a javax.sound.midi.Sequence. */
  datatype TrackEvent = TrackEvent(tick: int, decoded: Decoded)

  function ClassifyEvent(e: TrackEvent): MidiMessage {
    Classify(Tick(e.tick), e.decoded)
  }

  /** The classified messages of all tracks, track after track, each track in event order. */
  function Flattened(tracks: seq<seq<TrackEvent>>): (r: seq<MidiMessage>)
  {
    if tracks == [] then []
    else Flattened(tracks[..|tracks| - 1]) + Classified(tracks[|tracks| - 1])
  }

  function Classified(track: seq<TrackEvent>): (r: seq<MidiMessage>)
    ensures |r| == |track|
    ensures forall i :: 0 <= i < |track| ==> r[i] == ClassifyEvent(track[i])
  {
    if track == [] then [] else Classified(track[..|track| - 1]) + [ClassifyEvent(track[|track| - 1])]
  }

  function TickKey(m: MidiMessage): int { m.ticks.tick }

  /**
   * `MidiFile.messages`: every event of every track exactly once, classified with its tick, sorted by
   * tick with a stable sort, so that messages with the same tick keep track-then-index order.
   */
  method Messages(tracks: seq<seq<TrackEvent>>) returns (messages: seq<MidiMessage>)
    ensures SortedBy(messages, TickKey)
    ensures multiset(messages) == multiset(Flattened(tracks))
    ensures forall k :: KeyFilter(messages, TickKey, k) == KeyFilter(Flattened(tracks), TickKey, k)
  {
    var all: seq<MidiMessage> := [];
    for t := 0 to |tracks|
      invariant all == Flattened(tracks[..t])
    {
      var track := tracks[t];
      var fromTrack: seq<MidiMessage> := [];
      for eventI := 0 to |track|
        invariant fromTrack == Classified(track[..eventI])
      {
        fromTrack := fromTrack + [ClassifyEvent(track[eventI])];
        assert track[..eventI + 1][..eventI] == track[..eventI];
      }
      assert track[..|track|] == track;
      assert tracks[..t + 1][..t] == tracks[..t];
      all := all + fromTrack;
    }
    assert tracks[..|tracks|] == tracks;
    messages := SortBy(all, TickKey);
    SortByIsStableSort(all, TickKey);
  }

  // ---------------------------------------------------------------------------
  // Output port
  // ---------------------------------------------------------------------------

  /** What reached the receiver: a message's own wire form, or a short message built in place. */
  datatype Sent = SentMessage(message: MidiMessage) | SentShort(short: ShortMessage)

  /** The All Sound Off control change for a 0-based channel; below 16, `CONTROL_CHANGE or channel` is a sum. */
  function AllSoundOff(channel: int): Sent {
    SentShort(ShortMessage(CONTROL_CHANGE + channel, CONTROL_ALL_SOUND_OFF, 0))
  }

  /** `MidiPort`: a receiver, modelled by the log of what was sent to it. */
  class MidiPort {
    var sent: seq<Sent>

    constructor ()
      ensures sent == []
    {
      sent := [];
    }

    method Send(message: MidiMessage)
      modifies this
      ensures sent == old(sent) + [SentMessage(message)]
    {
      sent := sent + [SentMessage(message)];
    }

    /** All Sound Off on every channel: 16 control changes, channels 0..15 in order. */
    method Panic()
      modifies this
      ensures |sent| == |old(sent)| + 16
      ensures sent[..|old(sent)|] == old(sent)
      ensures forall i :: |old(sent)| <= i < |sent| ==> sent[i] == AllSoundOff(i - |old(sent)|)
    {
      for channel := 0 to 16
        invariant |sent| == |old(sent)| + channel
        invariant sent[..|old(sent)|] == old(sent)
        invariant forall i :: |old(sent)| <= i < |sent| ==> sent[i] == AllSoundOff(i - |old(sent)|)
      {
        sent := sent + [SentShort(ShortMessage(CONTROL_CHANGE + channel, CONTROL_ALL_SOUND_OFF, 0))];
      }
    }
  }
}
