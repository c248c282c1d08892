/**
 * The event and track types every engine variant declares at the top of its engine.kt
 * (src/main/kotlin/midituutti/engine/engine.kt and its two predecessors): what a measure holds,
 * what a mixer addresses, and what the player tells its listeners.
 */
module EngineTypes {
  import opened Midi

  datatype ClickType = One | Quarter | Eight

  /** An element of a measure: a message of the file, or a metronome click. */
  datatype EngineEvent = MessageEvent(message: MidiMessage) | ClickEvent(clickTicks: Tick, click: ClickType) {
    function Ticks(): Tick {
      match this
      case MessageEvent(m) => m.ticks
      case ClickEvent(t, _) => t
    }
  }

  function EventTickKey(e: EngineEvent): int { e.Ticks().tick }

  /** A mixer strip: one of the sixteen MIDI channels (1-based) or the metronome. */
  datatype EngineTrack = MidiTrack(channel: int) | ClickTrack

  /** `MixerChannel` of the newest engine: a volume in 0..∞ (1.0 is nominal), mute and solo flags. */
  datatype MixerChannel = MixerChannel(track: EngineTrack, volumeAdjustment: real, muted: bool, solo: bool)

  datatype PlaybackEvent =
    | PlayEvent(playing: bool)
    | MeasurePlaybackEvent(measure: int, timeSignature: TimeSignature)
    | TempoEvent(tempo: Tempo, adjustedTempo: Tempo)
    | MutePlaybackEvent(track: EngineTrack, muted: bool)

  /** The seventeen tracks every mixer knows: `MidiTrack(1..16)` followed by `ClickTrack`. */
  function AllTracks(): (r: seq<EngineTrack>)
    ensures |r| == 17
    ensures forall i :: 0 <= i < 16 ==> r[i] == MidiTrack(i + 1)
    ensures r[16] == ClickTrack
  {
    MidiTracks(16) + [ClickTrack]
  }

  function MidiTracks(n: nat): (r: seq<EngineTrack>)
    ensures |r| == n
    ensures forall i :: 0 <= i < n ==> r[i] == MidiTrack(i + 1)
  {
    if n == 0 then [] else MidiTracks(n - 1) + [MidiTrack(n)]
  }

  /** The click pitches on the General MIDI percussion channel 10: 31 (sticks), 77 and 75. */
  function ClickPitch(click: ClickType): int {
    match click
    case One => 31
    case Quarter => 77
    case Eight => 75
  }

  /** The note a click is played as: a note-on of velocity 100 on channel 10. */
  function ClickNote(click: ClickType): (n: Note)
    ensures n.onOff == On && n.channel == 10 && n.velocity == 100
    ensures n.note == 31 <==> click == One
  {
    Note(On, 10, ClickPitch(click), 100)
  }
}
