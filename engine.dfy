/**
 * The playback engine of src/main/kotlin/midituutti/engine/engine.kt without its threads: the
 * `MidiPlayer` state (range, current measure, tempo, mixer gains), what `handleEvent` sends for an
 * event, the order in which the run loop plays measures and chunks, and the `PlayerControl`
 * operations built on them.
 *
 * The player's observable effects are the port's send log and `broadcast`, the events the
 * `PlayerControl` registered as the player's listener hands to its playback listeners.
 */
module Engine {
  import opened Midi
  import opened Outcomes
  import opened Collections
  import opened EngineTypes
  import Jvm
  import SS = SongStructure

  // ---------------------------------------------------------------------------
  // Durations
  // ---------------------------------------------------------------------------

  /** `Duration.millisPart()` of a duration in whole nanoseconds: the milliseconds, truncated toward zero. */
  function MillisPart(nanos: int): int {
    Jvm.Div(nanos, 1_000_000)
  }

  /** `Duration.nanosPart()`: the nanoseconds left over after the whole milliseconds. */
  function NanosPart(nanos: int): int {
    nanos - MillisPart(nanos) * 1000 * 1000
  }

  /** The two parts make up the duration, and the nanosecond part is below one millisecond with the sign of the duration. */
  lemma DurationParts(nanos: int)
    ensures MillisPart(nanos) * 1_000_000 + NanosPart(nanos) == nanos
    ensures nanos >= 0 ==> MillisPart(nanos) >= 0 && 0 <= NanosPart(nanos) < 1_000_000
    ensures nanos < 0 ==> MillisPart(nanos) <= 0 && -1_000_000 < NanosPart(nanos) <= 0
  {
    Jvm.DivTruncates(nanos, 1_000_000);
  }

  // ---------------------------------------------------------------------------
  // Ranges
  // ---------------------------------------------------------------------------

  /** `minOf(maxOf(x, lo), hi)`. */
  function Clamp(x: int, lo: int, hi: int): (r: int)
    ensures lo <= hi ==> lo <= r <= hi
    ensures lo <= x <= hi ==> r == x
    ensures x < lo && lo <= hi ==> r == lo
    ensures x > hi || lo > hi ==> r == hi
  {
    var atLeast := if x < lo then lo else x;
    if atLeast > hi then hi else atLeast
  }

  /** The measure numbers `first..last`. */
  function Range(first: int, last: int): (r: seq<int>)
    ensures |r| == if first <= last then last - first + 1 else 0
    ensures forall i :: 0 <= i < |r| ==> r[i] == first + i
    decreases last - first
  {
    if first > last then [] else Range(first, last - 1) + [last]
  }

  function Repeat(s: seq<int>, times: nat): (r: seq<int>)
    ensures |r| == |s| * times
  {
    if times == 0 then [] else Repeat(s, times - 1) + s
  }

  function Numbers(measures: seq<SS.Measure>): (r: seq<int>)
    ensures |r| == |measures|
    ensures forall i :: 0 <= i < |r| ==> r[i] == measures[i].number
  {
    if measures == [] then [] else Numbers(measures[..|measures| - 1]) + [measures[|measures| - 1].number]
  }

  /** `drop(from - 1).take(to - from + 1)` of numbered measures visits the measures numbered `from..to`. */
  lemma NumbersOfSlice(song: seq<SS.Measure>, from: int, to: int)
    requires SS.Numbered(song)
    requires 1 <= from <= to + 1 && to <= |song|
    ensures Numbers(song[from - 1 .. to]) == Range(from, to)
  {
    var slice := song[from - 1 .. to];
    forall i | 0 <= i < |slice|
      ensures Numbers(slice)[i] == Range(from, to)[i]
    {
      assert slice[i] == song[from - 1 + i];
    }
  }

  // ---------------------------------------------------------------------------
  // The mixer
  // ---------------------------------------------------------------------------

  /** The initial `mixerState`: every track at gain 1.0. */
  function InitialMixer(): map<EngineTrack, real> {
    map t | t in AllTracks() :: 1.0
  }

  /** The initial mixer holds the sixteen MIDI channels and the click, each at 1.0. */
  lemma InitialMixerTracks()
    ensures forall t :: t in InitialMixer() <==> t == ClickTrack || (t.MidiTrack? && 1 <= t.channel <= 16)
    ensures forall t :: t in InitialMixer() ==> InitialMixer()[t] == 1.0
  {
    var all := AllTracks();
    forall t | t == ClickTrack || (t.MidiTrack? && 1 <= t.channel <= 16)
      ensures t in all
    {
      if t == ClickTrack {
        assert all[16] == t;
      } else {
        assert all[t.channel - 1] == t;
      }
    }
  }

  /** `mixerState.getOrDefault(track, 1.0)`. */
  function GainOf(mixer: map<EngineTrack, real>, track: EngineTrack): real {
    if track in mixer then mixer[track] else 1.0
  }

  /** `updateMixer`: every track already present takes its gain from `state` when `state` has one. */
  function MergedMixer(mixer: map<EngineTrack, real>, state: map<EngineTrack, real>): (r: map<EngineTrack, real>)
    ensures r.Keys == mixer.Keys
  {
    map t | t in mixer :: if t in state then state[t] else mixer[t]
  }

  /** Merging overwrites the given tracks, keeps the rest and ignores tracks the mixer does not know. */
  lemma MergedMixerGains(mixer: map<EngineTrack, real>, state: map<EngineTrack, real>, t: EngineTrack)
    ensures t in mixer && t in state ==> GainOf(MergedMixer(mixer, state), t) == state[t]
    ensures t !in state ==> GainOf(MergedMixer(mixer, state), t) == GainOf(mixer, t)
    ensures t !in mixer ==> GainOf(MergedMixer(mixer, state), t) == 1.0
  {
  }

  // ---------------------------------------------------------------------------
  // handleEvent
  // ---------------------------------------------------------------------------

  predicate IsTempoEvent(event: EngineEvent) {
    event.MessageEvent? && event.message.TempoMessage?
  }

  /** `midiMessage` of `handleEvent`: a message event's message, or a click played as a note. */
  function EventMessage(event: EngineEvent): (m: MidiMessage)
    ensures event.MessageEvent? ==> m == event.message
    ensures event.ClickEvent? ==> FromNote(event.clickTicks, ClickNote(event.click)) == Ok(m)
  {
    match event
    case MessageEvent(message) => message
    case ClickEvent(ticks, click) => NoteMessage(ticks, ClickNote(click))
  }

  /** A note-on with a positive velocity; a note-on of velocity 0 stands for a note-off and is not scaled. */
  predicate Audible(m: MidiMessage) {
    m.NoteMessage? && m.note.onOff == On && m.note.velocity > 0
  }

  /** The mixer strip a note is scaled by: its channel for a message, the click strip for a click. */
  function TrackOf(event: EngineEvent, m: MidiMessage): EngineTrack
    requires m.NoteMessage?
  {
    if event.MessageEvent? then MidiTrack(m.note.channel) else ClickTrack
  }

  /** `(velocity * gain).roundToInt()`. */
  function ScaledVelocity(velocity: int, gain: real): int {
    Jvm.RoundToInt(velocity as real * gain)
  }

  /**
   * What `handleEvent` sends for an event: an audible note rebuilt by `NoteMessage.fromNote` with its
   * velocity scaled by the gain of its strip (which fails when the scaled velocity is not a data byte),
   * every other message as it is.
   */
  function Outgoing(event: EngineEvent, mixer: map<EngineTrack, real>): Result<MidiMessage> {
    var m := EventMessage(event);
    if Audible(m) then
      FromNote(m.ticks, m.note.(velocity := ScaledVelocity(m.note.velocity, GainOf(mixer, TrackOf(event, m)))))
    else
      Ok(m)
  }

  /** A note is passed on unchanged unless it is audible; an audible one changes in its velocity only. */
  lemma OutgoingChangesVelocityOnly(event: EngineEvent, mixer: map<EngineTrack, real>)
    ensures !Audible(EventMessage(event)) ==> Outgoing(event, mixer) == Ok(EventMessage(event))
    ensures Outgoing(event, mixer).Ok? && Audible(EventMessage(event)) ==>
      var m := EventMessage(event);
      var g := GainOf(mixer, TrackOf(event, m));
      Outgoing(event, mixer).value == NoteMessage(m.ticks, Note(On, m.note.channel, m.note.note, ScaledVelocity(m.note.velocity, g)))
  {
  }

  /** A message whose notes are valid MIDI data. */
  predicate ValidNotes(m: MidiMessage) {
    m.NoteMessage? ==> EncodeNote(m.note).Ok?
  }

  /** With a gain in [0, 1] an audible valid note stays a valid note, at most as loud as before. */
  lemma OutgoingWithinUnitGain(event: EngineEvent, mixer: map<EngineTrack, real>)
    requires ValidNotes(EventMessage(event))
    requires Audible(EventMessage(event))
    requires 0.0 <= GainOf(mixer, TrackOf(event, EventMessage(event))) <= 1.0
    ensures Outgoing(event, mixer).Ok?
    ensures 0 <= Outgoing(event, mixer).value.note.velocity <= EventMessage(event).note.velocity
  {
    var m := EventMessage(event);
    var v := m.note.velocity;
    var g := GainOf(mixer, TrackOf(event, m));
    assert 0 <= v;
    Jvm.RoundScaledWithin(v, g);
    var v' := ScaledVelocity(v, g);
    assert 0 <= v' <= v;
    var note := m.note.(velocity := v');
    assert EncodeNote(note).Ok?;
    assert Outgoing(event, mixer) == Ok(NoteMessage(m.ticks, note));
  }

  /** Every track at gain 1.0, as in the initial mixer: valid messages and clicks are all sent unchanged. */
  lemma OutgoingAtUnitGain(event: EngineEvent, mixer: map<EngineTrack, real>)
    requires ValidNotes(EventMessage(event))
    requires forall t :: t in mixer ==> mixer[t] == 1.0
    ensures Outgoing(event, mixer) == Ok(EventMessage(event))
  {
    var m := EventMessage(event);
    if Audible(m) {
      Jvm.RoundToIntProperties(m.note.velocity, 0.0, 0.0);
      assert m.note.(velocity := ScaledVelocity(m.note.velocity, 1.0)) == m.note;
    }
  }

  /** A click is sent as a note-on of pitch `ClickPitch` on channel 10, its velocity 100 scaled by the click strip. */
  lemma OutgoingClick(ticks: Tick, click: ClickType, mixer: map<EngineTrack, real>)
    requires 0.0 <= GainOf(mixer, ClickTrack) <= 1.0
    ensures Outgoing(ClickEvent(ticks, click), mixer)
         == Ok(NoteMessage(ticks, Note(On, 10, ClickPitch(click), ScaledVelocity(100, GainOf(mixer, ClickTrack)))))
  {
    OutgoingWithinUnitGain(ClickEvent(ticks, click), mixer);
  }

  // ---------------------------------------------------------------------------
  // The observable playback state
  // ---------------------------------------------------------------------------

  /**
   * What the player has made observable: the current measure and tempo, the port's send log, the
   * broadcast events, and the exception (from `NoteMessage.fromNote`) that ended the playing thread, if any.
   */
  datatype Playback = Playback(measure: int, tempo: Tempo, sent: seq<Sent>, broadcast: seq<PlaybackEvent>,
                               failure: Option<Failure>)

  /** The tempo part of `handleEvent`: a tempo message sets the tempo, which is broadcast with its adjusted value. */
  function TempoHandled(s: Playback, event: EngineEvent, modifier: Tempo -> Tempo): Playback {
    if IsTempoEvent(event) then
      var t := event.message.tempo;
      s.(tempo := t, broadcast := s.broadcast + [TempoEvent(t, modifier(t))])
    else s
  }

  /** The sending part of `handleEvent`: the outgoing message is logged, or its exception ends playback. */
  function Delivered(s: Playback, outgoing: Result<MidiMessage>): Playback {
    match outgoing
    case Ok(m) => s.(sent := s.sent + [SentMessage(m)])
    case Err(e) => s.(failure := Some(e))
  }

  /** `handleEvent`: first the tempo, then the outgoing message. */
  function Handle(s: Playback, event: EngineEvent, mixer: map<EngineTrack, real>, modifier: Tempo -> Tempo): Playback {
    Delivered(TempoHandled(s, event, modifier), Outgoing(event, mixer))
  }

  /** Handling the events in order; once one has failed nothing more happens. */
  function Played(s: Playback, events: seq<EngineEvent>, mixer: map<EngineTrack, real>, modifier: Tempo -> Tempo): Playback {
    if events == [] then s
    else
      var p := Played(s, events[..|events| - 1], mixer, modifier);
      if p.failure.Some? then p else Handle(p, events[|events| - 1], mixer, modifier)
  }

  lemma PlayedFailed(s: Playback, events: seq<EngineEvent>, mixer: map<EngineTrack, real>, modifier: Tempo -> Tempo)
    requires s.failure.Some?
    ensures Played(s, events, mixer, modifier) == s
  {
  }

  lemma {:induction false} PlayedAppend(s: Playback, a: seq<EngineEvent>, b: seq<EngineEvent>,
                                        mixer: map<EngineTrack, real>, modifier: Tempo -> Tempo)
    ensures Played(s, a + b, mixer, modifier) == Played(Played(s, a, mixer, modifier), b, mixer, modifier)
    decreases |b|
  {
    if b == [] {
      assert a + b == a;
    } else {
      var b' := b[..|b| - 1];
      assert (a + b)[..|a + b| - 1] == a + b';
      assert (a + b)[|a + b| - 1] == b[|b| - 1];
      PlayedAppend(s, a, b', mixer, modifier);
    }
  }

  /** One event from a state that has not failed: sent if it can be sent, the failure otherwise. */
  lemma HandleEffect(s: Playback, event: EngineEvent, mixer: map<EngineTrack, real>, modifier: Tempo -> Tempo)
    requires s.failure.None?
    ensures var h := Handle(s, event, mixer, modifier);
      && h.measure == s.measure
      && (h.failure.None? <==> Outgoing(event, mixer).Ok?)
      && (Outgoing(event, mixer).Ok? ==> h.sent == s.sent + [SentMessage(Outgoing(event, mixer).value)])
      && (Outgoing(event, mixer).Err? ==> h.sent == s.sent && h.failure == Some(Outgoing(event, mixer).error))
  {
  }

  /** Handling events from a state that has not failed fails exactly when one of them cannot be sent; the measure is kept. */
  lemma {:induction false} PlayedFails(s: Playback, events: seq<EngineEvent>, mixer: map<EngineTrack, real>,
                                       modifier: Tempo -> Tempo)
    requires s.failure.None?
    ensures Played(s, events, mixer, modifier).measure == s.measure
    ensures Played(s, events, mixer, modifier).failure.None? <==> forall i :: 0 <= i < |events| ==> Outgoing(events[i], mixer).Ok?
  {
    if events != [] {
      var init := events[..|events| - 1];
      var last := events[|events| - 1];
      PlayedFails(s, init, mixer, modifier);
      var p := Played(s, init, mixer, modifier);
      assert Played(s, events, mixer, modifier) == if p.failure.Some? then p else Handle(p, last, mixer, modifier);
      if p.failure.Some? {
        var k :| 0 <= k < |init| && Outgoing(init[k], mixer).Err?;
        assert events[k] == init[k];
      } else {
        HandleEffect(p, last, mixer, modifier);
        assert forall i :: 0 <= i < |init| ==> events[i] == init[i];
      }
    }
  }

  /** Until a failure each event appends its outgoing message to the send log. */
  lemma {:induction false} PlayedSends(s: Playback, events: seq<EngineEvent>, mixer: map<EngineTrack, real>,
                                       modifier: Tempo -> Tempo)
    requires s.failure.None?
    requires Played(s, events, mixer, modifier).failure.None?
    ensures var r := Played(s, events, mixer, modifier);
      && |r.sent| == |s.sent| + |events| && r.sent[..|s.sent|] == s.sent
      && forall i :: 0 <= i < |events| ==> Outgoing(events[i], mixer).Ok? && r.sent[|s.sent| + i] == SentMessage(Outgoing(events[i], mixer).value)
  {
    if events != [] {
      var init := events[..|events| - 1];
      var last := events[|events| - 1];
      var p := Played(s, init, mixer, modifier);
      var r := Played(s, events, mixer, modifier);
      assert r == if p.failure.Some? then p else Handle(p, last, mixer, modifier);
      assert p.failure.None?;
      PlayedSends(s, init, mixer, modifier);
      HandleEffect(p, last, mixer, modifier);
      assert r.sent == p.sent + [SentMessage(Outgoing(last, mixer).value)];
      forall i | 0 <= i < |events|
        ensures Outgoing(events[i], mixer).Ok? && r.sent[|s.sent| + i] == SentMessage(Outgoing(events[i], mixer).value)
      {
        if i < |init| {
          assert events[i] == init[i];
        }
      }
    }
  }

  /** `events[i]` is a tempo message and no tempo message follows it. */
  ghost predicate LastTempoAt(events: seq<EngineEvent>, i: int) {
    0 <= i < |events| && IsTempoEvent(events[i]) && forall j :: i < j < |events| ==> !IsTempoEvent(events[j])
  }

  ghost predicate NoTempo(events: seq<EngineEvent>) {
    forall i :: 0 <= i < |events| ==> !IsTempoEvent(events[i])
  }

  /** Dropping a last event that is not a tempo message keeps the last tempo message where it was. */
  lemma LastTempoInit(events: seq<EngineEvent>, i: int)
    requires events != [] && !IsTempoEvent(events[|events| - 1])
    ensures LastTempoAt(events, i) ==> i < |events| - 1 && LastTempoAt(events[..|events| - 1], i)
    ensures NoTempo(events) <==> NoTempo(events[..|events| - 1])
  {
    var init := events[..|events| - 1];
    assert forall j :: 0 <= j < |init| ==> init[j] == events[j];
  }

  /** After playing events the tempo is that of the last tempo message among them, or the one before if there is none. */
  lemma {:induction false} PlayedTempo(s: Playback, events: seq<EngineEvent>, mixer: map<EngineTrack, real>,
                                       modifier: Tempo -> Tempo)
    requires Played(s, events, mixer, modifier).failure.None?
    ensures NoTempo(events) ==> Played(s, events, mixer, modifier).tempo == s.tempo
    ensures forall i :: LastTempoAt(events, i) ==> Played(s, events, mixer, modifier).tempo == events[i].message.tempo
  {
    if events != [] {
      var init := events[..|events| - 1];
      var last := events[|events| - 1];
      var p := Played(s, init, mixer, modifier);
      var r := Played(s, events, mixer, modifier);
      assert r == if p.failure.Some? then p else Handle(p, last, mixer, modifier);
      assert p.failure.None?;
      assert r.tempo == if IsTempoEvent(last) then last.message.tempo else p.tempo;
      if IsTempoEvent(last) {
        assert !NoTempo(events);
        forall i | LastTempoAt(events, i)
          ensures r.tempo == events[i].message.tempo
        {
          assert i == |events| - 1;
        }
      } else {
        PlayedTempo(s, init, mixer, modifier);
        forall i | LastTempoAt(events, i)
          ensures r.tempo == events[i].message.tempo
        {
          LastTempoInit(events, i);
          assert init[i] == events[i];
        }
        LastTempoInit(events, 0);
      }
    }
  }

  /** The measure numbers among broadcast events. */
  function MeasuresAnnounced(events: seq<PlaybackEvent>): seq<int> {
    if events == [] then []
    else
      var last := events[|events| - 1];
      MeasuresAnnounced(events[..|events| - 1]) + (if last.MeasurePlaybackEvent? then [last.measure] else [])
  }

  lemma {:induction false} MeasuresAnnouncedAppend(a: seq<PlaybackEvent>, b: seq<PlaybackEvent>)
    ensures MeasuresAnnounced(a + b) == MeasuresAnnounced(a) + MeasuresAnnounced(b)
    decreases |b|
  {
    if b == [] {
      assert a + b == a;
    } else {
      var b' := b[..|b| - 1];
      assert (a + b)[..|a + b| - 1] == a + b';
      MeasuresAnnouncedAppend(a, b');
    }
  }

  /** One handled event broadcasts at most a tempo event, never a measure. */
  lemma HandleAnnouncesNoMeasure(s: Playback, event: EngineEvent, mixer: map<EngineTrack, real>, modifier: Tempo -> Tempo)
    ensures MeasuresAnnounced(Handle(s, event, mixer, modifier).broadcast) == MeasuresAnnounced(s.broadcast)
  {
    var tempoHandled := TempoHandled(s, event, modifier);
    assert Handle(s, event, mixer, modifier).broadcast == tempoHandled.broadcast;
    if IsTempoEvent(event) {
      var t := event.message.tempo;
      var added := [TempoEvent(t, modifier(t))];
      assert tempoHandled.broadcast == s.broadcast + added;
      MeasuresAnnouncedAppend(s.broadcast, added);
      assert MeasuresAnnounced(added) == [] by {
        assert added[..0] == [];
      }
    }
  }

  /** Handling events broadcasts tempo events only, never a measure. */
  lemma {:induction false} PlayedAnnouncesNoMeasure(s: Playback, events: seq<EngineEvent>, mixer: map<EngineTrack, real>,
                                                    modifier: Tempo -> Tempo)
    ensures MeasuresAnnounced(Played(s, events, mixer, modifier).broadcast) == MeasuresAnnounced(s.broadcast)
  {
    if events != [] {
      var init := events[..|events| - 1];
      var last := events[|events| - 1];
      PlayedAnnouncesNoMeasure(s, init, mixer, modifier);
      var p := Played(s, init, mixer, modifier);
      assert Played(s, events, mixer, modifier) == if p.failure.Some? then p else Handle(p, last, mixer, modifier);
      HandleAnnouncesNoMeasure(p, last, mixer, modifier);
    }
  }

  // ---------------------------------------------------------------------------
  // Measures and passes
  // ---------------------------------------------------------------------------

  /** Entering a measure: it becomes current, the tempo resets to its initial tempo, and both are broadcast. */
  function Entered(s: Playback, m: SS.Measure, modifier: Tempo -> Tempo): Playback {
    s.(measure := m.number, tempo := m.initialTempo,
       broadcast := s.broadcast + [MeasurePlaybackEvent(m.number, m.timeSignature),
                                   TempoEvent(m.initialTempo, modifier(m.initialTempo))])
  }

  /** Playing a measure: entering it, then its chunked events in order, the adjustments only when asked. */
  function PlayedMeasure(s: Playback, m: SS.Measure, includeAdjustments: bool, mixer: map<EngineTrack, real>,
                         modifier: Tempo -> Tempo): Playback {
    if s.failure.Some? then s
    else Played(Entered(s, m, modifier), SS.EventsOf(SS.EventsToChunk(m, includeAdjustments)), mixer, modifier)
  }

  /** A pass over measures; only the first is played with its initial adjustments. */
  function PlayedPass(s: Playback, measures: seq<SS.Measure>, mixer: map<EngineTrack, real>,
                      modifier: Tempo -> Tempo): Playback {
    if measures == [] then s
    else PlayedMeasure(PlayedPass(s, measures[..|measures| - 1], mixer, modifier), measures[|measures| - 1],
                       |measures| == 1, mixer, modifier)
  }

  /**
   * After a measure the current measure is its number and the tempo is its initial tempo, unless one of
   * its events is a tempo message: then it is that of the last one.
   */
  lemma MeasureEndsAtItsTempo(s: Playback, m: SS.Measure, includeAdjustments: bool, mixer: map<EngineTrack, real>,
                              modifier: Tempo -> Tempo)
    requires s.failure.None?
    requires PlayedMeasure(s, m, includeAdjustments, mixer, modifier).failure.None?
    ensures var r := PlayedMeasure(s, m, includeAdjustments, mixer, modifier);
            var events := SS.EventsOf(SS.EventsToChunk(m, includeAdjustments));
      && r.measure == m.number
      && (NoTempo(events) ==> r.tempo == m.initialTempo)
      && (forall i :: LastTempoAt(events, i) ==> r.tempo == events[i].message.tempo)
  {
    var events := SS.EventsOf(SS.EventsToChunk(m, includeAdjustments));
    PlayedTempo(Entered(s, m, modifier), events, mixer, modifier);
    PlayedFails(Entered(s, m, modifier), events, mixer, modifier);
  }

  /** A measure played from a state that has not failed broadcasts its own number once. */
  lemma MeasureAnnounces(s: Playback, m: SS.Measure, includeAdjustments: bool, mixer: map<EngineTrack, real>,
                         modifier: Tempo -> Tempo)
    requires s.failure.None?
    ensures MeasuresAnnounced(PlayedMeasure(s, m, includeAdjustments, mixer, modifier).broadcast)
         == MeasuresAnnounced(s.broadcast) + [m.number]
  {
    var entered := Entered(s, m, modifier);
    var entering := [MeasurePlaybackEvent(m.number, m.timeSignature), TempoEvent(m.initialTempo, modifier(m.initialTempo))];
    assert entered.broadcast == s.broadcast + entering;
    MeasuresAnnouncedAppend(s.broadcast, entering);
    assert MeasuresAnnounced(entering) == [m.number] by {
      var opening := [MeasurePlaybackEvent(m.number, m.timeSignature)];
      assert entering[..1] == opening && opening[..0] == [];
      assert MeasuresAnnounced(opening) == MeasuresAnnounced([]) + [m.number];
      assert MeasuresAnnounced(entering) == MeasuresAnnounced(opening) + [];
    }
    PlayedAnnouncesNoMeasure(entered, SS.EventsOf(SS.EventsToChunk(m, includeAdjustments)), mixer, modifier);
  }

  /** A pass that does not fail broadcasts the numbers of its measures, in order. */
  lemma {:induction false} PassAnnounces(s: Playback, measures: seq<SS.Measure>, mixer: map<EngineTrack, real>,
                                         modifier: Tempo -> Tempo)
    requires PlayedPass(s, measures, mixer, modifier).failure.None?
    ensures MeasuresAnnounced(PlayedPass(s, measures, mixer, modifier).broadcast)
         == MeasuresAnnounced(s.broadcast) + Numbers(measures)
  {
    if measures != [] {
      var init := measures[..|measures| - 1];
      var m := measures[|measures| - 1];
      var p := PlayedPass(s, init, mixer, modifier);
      assert PlayedPass(s, measures, mixer, modifier) == PlayedMeasure(p, m, |measures| == 1, mixer, modifier);
      assert p.failure.None?;
      PassAnnounces(s, init, mixer, modifier);
      MeasureAnnounces(p, m, |measures| == 1, mixer, modifier);
      assert Numbers(measures) == Numbers(init) + [m.number];
      AppendAssoc(MeasuresAnnounced(s.broadcast), Numbers(init), [m.number]);
    }
  }

  /** One more measure of a pass: played after the ones before it, with adjustments only if it is the first. */
  lemma PassStep(s: Playback, pass: seq<SS.Measure>, i: int, mixer: map<EngineTrack, real>, modifier: Tempo -> Tempo)
    requires 0 <= i < |pass|
    ensures PlayedPass(s, pass[..i + 1], mixer, modifier)
         == PlayedMeasure(PlayedPass(s, pass[..i], mixer, modifier), pass[i], i == 0, mixer, modifier)
    ensures PassTimed(pass[..i + 1]) == PassTimed(pass[..i]) + SS.EventsToChunk(pass[i], i == 0)
  {
    assert pass[..i + 1][..i] == pass[..i];
  }

  /** The timed events a pass chunks, measure by measure: the initial adjustments of the first, then events. */
  function PassTimed(measures: seq<SS.Measure>): seq<SS.Timed> {
    if measures == [] then []
    else PassTimed(measures[..|measures| - 1]) + SS.EventsToChunk(measures[|measures| - 1], |measures| == 1)
  }

  /** Only the first measure of a pass contributes its adjustments; the rest contribute their events. */
  lemma {:induction false} PassTimedShape(measures: seq<SS.Measure>)
    requires measures != []
    ensures PassTimed(measures) == SS.EventsToChunk(measures[0], true) + OwnEvents(measures[1..])
    decreases |measures|
  {
    if |measures| == 1 {
      assert measures[1..] == [];
    } else {
      var init := measures[..|measures| - 1];
      var last := measures[|measures| - 1];
      PassTimedShape(init);
      assert PassTimed(measures) == PassTimed(init) + SS.AtOwnTicks(last.events) by {
        assert SS.EventsToChunk(last, false) == SS.AtOwnTicks(last.events);
      }
      TailSnoc(measures);
      OwnEventsSnoc(init[1..], last);
      assert init[0] == measures[0];
      AppendAssoc(SS.EventsToChunk(measures[0], true), OwnEvents(init[1..]), SS.AtOwnTicks(last.events));
    }
  }

  /** The measures' events at their own ticks, one measure after the other. */
  function OwnEvents(measures: seq<SS.Measure>): seq<SS.Timed> {
    if measures == [] then []
    else OwnEvents(measures[..|measures| - 1]) + SS.AtOwnTicks(measures[|measures| - 1].events)
  }

  lemma OwnEventsSnoc(measures: seq<SS.Measure>, m: SS.Measure)
    ensures OwnEvents(measures + [m]) == OwnEvents(measures) + SS.AtOwnTicks(m.events)
  {
    assert (measures + [m])[..|measures|] == measures;
  }

  /** The run loop's passes: the first from `from`, every later one from the range start. */
  function PlayedRun(s: Playback, song: seq<SS.Measure>, from: int, start: int, end: int, passes: nat,
                     mixer: map<EngineTrack, real>, modifier: Tempo -> Tempo): Playback
    requires 1 <= start <= from <= end <= |song|
  {
    if passes == 0 then s
    else
      var first := if passes == 1 then from else start;
      PlayedPass(PlayedRun(s, song, from, start, end, passes - 1, mixer, modifier), song[first - 1 .. end], mixer, modifier)
  }

  /** One more pass of `PlayedRun` plays `first..end` after the passes before it. */
  lemma PlayedRunNext(s: Playback, song: seq<SS.Measure>, from: int, start: int, end: int, p: nat,
                      mixer: map<EngineTrack, real>, modifier: Tempo -> Tempo, first: int)
    requires 1 <= start <= from <= end <= |song|
    requires first == if p == 0 then from else start
    ensures PlayedRun(s, song, from, start, end, p + 1, mixer, modifier)
         == PlayedPass(PlayedRun(s, song, from, start, end, p, mixer, modifier), song[first - 1 .. end], mixer, modifier)
  {
  }

  /** The visiting order of `passes` passes: `from..end`, then `start..end` again and again. */
  function PassOrder(from: int, start: int, end: int, passes: nat): seq<int> {
    if passes == 0 then [] else Range(from, end) + Repeat(Range(start, end), passes - 1)
  }

  /** A run that does not fail visits measures in `PassOrder`. */
  lemma {:induction false} RunOrder(s: Playback, song: seq<SS.Measure>, from: int, start: int, end: int, passes: nat,
                                    mixer: map<EngineTrack, real>, modifier: Tempo -> Tempo)
    requires 1 <= start <= from <= end <= |song|
    requires SS.Numbered(song)
    requires PlayedRun(s, song, from, start, end, passes, mixer, modifier).failure.None?
    ensures MeasuresAnnounced(PlayedRun(s, song, from, start, end, passes, mixer, modifier).broadcast)
         == MeasuresAnnounced(s.broadcast) + PassOrder(from, start, end, passes)
  {
    if passes > 0 {
      var first := if passes == 1 then from else start;
      var p := PlayedRun(s, song, from, start, end, passes - 1, mixer, modifier);
      var pass := song[first - 1 .. end];
      assert PlayedRun(s, song, from, start, end, passes, mixer, modifier) == PlayedPass(p, pass, mixer, modifier);
      PassSucceededBefore(p, pass, mixer, modifier);
      RunOrder(s, song, from, start, end, passes - 1, mixer, modifier);
      NumbersOfSlice(song, first, end);
      PassAnnouncesAfter(s, p, pass, PassOrder(from, start, end, passes - 1), mixer, modifier);
      PassOrderStep(from, start, end, passes);
    }
  }

  /** A pass that does not fail started from a playback that had not failed. */
  lemma PassSucceededBefore(s: Playback, measures: seq<SS.Measure>, mixer: map<EngineTrack, real>,
                            modifier: Tempo -> Tempo)
    requires PlayedPass(s, measures, mixer, modifier).failure.None?
    ensures s.failure.None?
  {
    if s.failure.Some? {
      PassFailed(s, measures, mixer, modifier);
    }
  }

  /** A pass that does not fail appends its measures' numbers to what was announced before it. */
  lemma PassAnnouncesAfter(s: Playback, p: Playback, pass: seq<SS.Measure>, order: seq<int>,
                           mixer: map<EngineTrack, real>, modifier: Tempo -> Tempo)
    requires PlayedPass(p, pass, mixer, modifier).failure.None?
    requires MeasuresAnnounced(p.broadcast) == MeasuresAnnounced(s.broadcast) + order
    ensures MeasuresAnnounced(PlayedPass(p, pass, mixer, modifier).broadcast)
         == MeasuresAnnounced(s.broadcast) + (order + Numbers(pass))
  {
    PassAnnounces(p, pass, mixer, modifier);
    AppendAssoc(MeasuresAnnounced(s.broadcast), order, Numbers(pass));
  }

  /** Each pass adds its range to the order: the first `from..end`, later ones `start..end`. */
  lemma PassOrderStep(from: int, start: int, end: int, passes: nat)
    requires passes >= 1
    ensures PassOrder(from, start, end, passes)
         == PassOrder(from, start, end, passes - 1) + Range(if passes == 1 then from else start, end)
  {
    if passes == 1 {
      assert PassOrder(from, start, end, 1) == Range(from, end) + [];
    } else {
      AppendAssoc(Range(from, end), Repeat(Range(start, end), passes - 2), Range(start, end));
    }
  }

  lemma {:induction false} PassFailed(s: Playback, measures: seq<SS.Measure>, mixer: map<EngineTrack, real>,
                                      modifier: Tempo -> Tempo)
    requires s.failure.Some?
    ensures PlayedPass(s, measures, mixer, modifier) == s
  {
    if measures != [] {
      PassFailed(s, measures[..|measures| - 1], mixer, modifier);
    }
  }

  // ---------------------------------------------------------------------------
  // Tick deltas
  // ---------------------------------------------------------------------------

  /** `prevTicks` after the chunks: the last chunk's tick, or the one before them. */
  function LastTicks(prev: Option<Tick>, chunks: seq<SS.Chunk>): Option<Tick> {
    if chunks == [] then prev else Some(chunks[|chunks| - 1].ticks)
  }

  /** `ticks - (prevTicks ?: ticks)` for each chunk; the first chunk of a pass has no predecessor. */
  function TickDeltas(prev: Option<Tick>, chunks: seq<SS.Chunk>): (r: seq<Tick>)
    ensures |r| == |chunks|
    ensures forall k :: 0 < k < |chunks| ==> r[k] == chunks[k].ticks.Minus(chunks[k - 1].ticks)
    ensures chunks != [] ==> r[0] == chunks[0].ticks.Minus(prev.GetOr(chunks[0].ticks))
    ensures chunks != [] && prev.None? ==> r[0] == Tick(0)
  {
    if chunks == [] then []
    else
      var init := chunks[..|chunks| - 1];
      var last := chunks[|chunks| - 1];
      TickDeltas(prev, init) + [last.ticks.Minus(LastTicks(prev, init).GetOr(last.ticks))]
  }

  lemma TickDeltasAppend(prev: Option<Tick>, a: seq<SS.Chunk>, b: seq<SS.Chunk>)
    ensures TickDeltas(prev, a + b) == TickDeltas(prev, a) + TickDeltas(LastTicks(prev, a), b)
    ensures LastTicks(prev, a + b) == LastTicks(LastTicks(prev, a), b)
  {
    var l := TickDeltas(prev, a + b);
    var r := TickDeltas(prev, a) + TickDeltas(LastTicks(prev, a), b);
    forall k | 0 <= k < |l|
      ensures l[k] == r[k]
    {
      TickDeltaAt(prev, a, b, k);
    }
    if b != [] {
      assert (a + b)[|a + b| - 1] == b[|b| - 1];
    } else {
      assert a + b == a;
    }
  }

  /** One position of `TickDeltasAppend`, read off the element-wise contract of `TickDeltas`. */
  lemma TickDeltaAt(prev: Option<Tick>, a: seq<SS.Chunk>, b: seq<SS.Chunk>, k: int)
    requires 0 <= k < |a| + |b|
    ensures TickDeltas(prev, a + b)[k] == (TickDeltas(prev, a) + TickDeltas(LastTicks(prev, a), b))[k]
  {
    var ab := a + b;
    var l := TickDeltas(prev, ab);
    var la := TickDeltas(prev, a);
    var lb := TickDeltas(LastTicks(prev, a), b);
    if k >= |a| {
      var i := k - |a|;
      assert (la + lb)[k] == lb[i];
      assert ab[k] == b[i];
      if i > 0 {
        assert ab[k - 1] == b[i - 1];
        assert lb[i] == b[i].ticks.Minus(b[i - 1].ticks);
      } else if a != [] {
        assert ab[k - 1] == a[|a| - 1];
        assert lb[0] == b[0].ticks.Minus(a[|a| - 1].ticks);
      } else {
        assert lb[0] == b[0].ticks.Minus(prev.GetOr(b[0].ticks));
      }
    } else {
      assert (la + lb)[k] == la[k];
      assert ab[k] == a[k];
      if k > 0 {
        assert ab[k - 1] == a[k - 1];
      }
    }
  }

  lemma UnchunkAppend(a: seq<SS.Chunk>, b: seq<SS.Chunk>)
    ensures SS.Unchunk(a + b) == SS.Unchunk(a) + SS.Unchunk(b)
    decreases |b|
  {
    if b == [] {
      assert a + b == a;
    } else {
      var b' := b[..|b| - 1];
      assert (a + b)[..|a + b| - 1] == a + b';
      UnchunkAppend(a, b');
      AppendAssoc(SS.Unchunk(a), SS.Unchunk(b'), SS.Tagged(b[|b| - 1]));
    }
  }

  lemma EventsOfAppend(a: seq<SS.Timed>, b: seq<SS.Timed>)
    ensures SS.EventsOf(a + b) == SS.EventsOf(a) + SS.EventsOf(b)
  {
    var l := SS.EventsOf(a + b);
    var r := SS.EventsOf(a) + SS.EventsOf(b);
    forall k | 0 <= k < |l|
      ensures l[k] == r[k]
    {
      if k < |a| {
        assert (a + b)[k] == a[k];
      } else {
        assert (a + b)[k] == b[k - |a|];
      }
    }
  }

  lemma EventsOfTagged(c: SS.Chunk)
    ensures SS.EventsOf(SS.Tagged(c)) == c.events
  {
  }

  /** One more chunk adds its events to the flattened events of the chunks before it. */
  lemma ChunkStep(chunks: seq<SS.Chunk>, j: int)
    requires 0 <= j < |chunks|
    ensures SS.EventsOf(SS.Unchunk(chunks[..j + 1])) == SS.EventsOf(SS.Unchunk(chunks[..j])) + chunks[j].events
  {
    assert chunks[..j + 1][..j] == chunks[..j];
    assert SS.Unchunk(chunks[..j + 1]) == SS.Unchunk(chunks[..j]) + SS.Tagged(chunks[j]);
    EventsOfAppend(SS.Unchunk(chunks[..j]), SS.Tagged(chunks[j]));
    EventsOfTagged(chunks[j]);
  }

  /** One more chunk adds its distance from the chunk before, and becomes the previous chunk. */
  lemma TickDeltasStep(prev: Option<Tick>, chunks: seq<SS.Chunk>, j: int)
    requires 0 <= j < |chunks|
    ensures TickDeltas(prev, chunks[..j + 1])
         == TickDeltas(prev, chunks[..j]) + [chunks[j].ticks.Minus(LastTicks(prev, chunks[..j]).GetOr(chunks[j].ticks))]
    ensures LastTicks(prev, chunks[..j + 1]) == Some(chunks[j].ticks)
  {
    assert chunks[..j + 1][..j] == chunks[..j];
  }

  /** The send log grew by one All Sound Off per channel 0..15. */
  ghost predicate Panicked(before: seq<Sent>, after: seq<Sent>) {
    |after| == |before| + 16 && after[..|before|] == before
    && forall i :: |before| <= i < |after| ==> after[i] == AllSoundOff(i - |before|)
  }

  // ---------------------------------------------------------------------------
  // MidiPlayer
  // ---------------------------------------------------------------------------

  class MidiPlayer {
    const song: seq<SS.Measure>
    const port: MidiPort
    var tempoModifier: Tempo -> Tempo
    var tempo: Tempo
    var playing: bool
    var currentMeasure: int
    var start: int
    var end: Option<int>
    var mixerState: map<EngineTrack, real>
    /** The events handed to the playback listeners, oldest first. */
    var broadcast: seq<PlaybackEvent>

    /**
     * A song whose last measure is numbered by the song's size, and once a range is set the current
     * measure in it. (The set of mixer tracks is kept by every method: see `MergedMixer`.)
     */
    ghost predicate Valid()
      reads this
    {
      && |song| >= 1 && song[|song| - 1].number == |song|
      && 1 <= start
      && (end.Some? ==> start <= currentMeasure <= end.value <= |song|)
    }

    function Snapshot(failure: Option<Failure>): Playback
      reads this, port
    {
      Playback(currentMeasure, tempo, port.sent, broadcast, failure)
    }

    constructor (song: seq<SS.Measure>, tempoModifier: Tempo -> Tempo, port: MidiPort)
      requires |song| >= 1 && SS.Numbered(song)
      ensures Valid()
      ensures this.song == song && this.port == port && this.tempoModifier == tempoModifier
      ensures tempo == song[0].initialTempo && !playing && currentMeasure == 1 && start == 1 && end.None?
      ensures mixerState == InitialMixer() && broadcast == []
    {
      this.song := song;
      this.port := port;
      this.tempoModifier := tempoModifier;
      tempo := song[0].initialTempo;
      playing := false;
      currentMeasure := 1;
      start := 1;
      end := None;
      mixerState := InitialMixer();
      broadcast := [];
    }

    /** `currentAdjustedTempo()`. */
    function CurrentAdjustedTempo(): Tempo
      reads this
    {
      tempoModifier(tempo)
    }

    method HandleEvent(event: EngineEvent) returns (midiMessage: MidiMessage, failure: Option<Failure>)
      modifies this, port
      ensures playing == old(playing) && start == old(start) && end == old(end)
      ensures mixerState == old(mixerState) && tempoModifier == old(tempoModifier)
      ensures currentMeasure == old(currentMeasure) && midiMessage == EventMessage(event)
      ensures Snapshot(failure) == Handle(old(Snapshot(None)), event, mixerState, tempoModifier)
    {
      ghost var s1 := TempoHandled(Snapshot(None), event, tempoModifier);
      if event.MessageEvent? && event.message.TempoMessage? {
        tempo := event.message.tempo;
        broadcast := broadcast + [TempoEvent(tempo, tempoModifier(tempo))];
      }
      assert Snapshot(None) == s1;
      midiMessage := EventMessage(event);
      failure := None;
      if Audible(midiMessage) {
        var track := TrackOf(event, midiMessage);
        var gain := GainOf(mixerState, track);
        var note := midiMessage.note.(velocity := ScaledVelocity(midiMessage.note.velocity, gain));
        var scaled := FromNote(midiMessage.ticks, note);
        assert scaled == Outgoing(event, mixerState);
        match scaled
        case Ok(m) => port.Send(m);
        case Err(e) => failure := Some(e);
      } else {
        assert Outgoing(event, mixerState) == Ok(midiMessage);
        port.Send(midiMessage);
      }
    }

    /** The events of one chunk, in order; an exception ends the thread, so nothing after it is sent. */
    method PlayEvents(events: seq<EngineEvent>) returns (failure: Option<Failure>)
      modifies this, port
      ensures playing == old(playing) && start == old(start) && end == old(end)
      ensures mixerState == old(mixerState) && tempoModifier == old(tempoModifier)
      ensures currentMeasure == old(currentMeasure)
      ensures Snapshot(failure) == Played(old(Snapshot(None)), events, mixerState, tempoModifier)
    {
      failure := None;
      ghost var s0 := Snapshot(None);
      for i := 0 to |events|
        invariant playing == old(playing) && start == old(start) && end == old(end) && currentMeasure == old(currentMeasure)
        invariant mixerState == old(mixerState) && tempoModifier == old(tempoModifier)
        invariant Snapshot(failure) == Played(s0, events[..i], mixerState, tempoModifier)
      {
        assert events[..i + 1][..i] == events[..i];
        if failure.None? {
          var _, f := HandleEvent(events[i]);
          failure := f;
        }
      }
      assert events[..|events|] == events;
    }

    /**
     * One measure of the pass: it becomes current, its tempo is reset, and its chunks are played in
     * order, each after computing its tick distance from the chunk before.
     */
    method PlayMeasure(measure: SS.Measure, includeAdjustments: bool, prevTicks: Option<Tick>)
      returns (chunks: seq<SS.Chunk>, deltas: seq<Tick>, lastTicks: Option<Tick>, failure: Option<Failure>)
      modifies this, port
      ensures playing == old(playing) && start == old(start) && end == old(end)
      ensures mixerState == old(mixerState) && tempoModifier == old(tempoModifier)
      ensures currentMeasure == measure.number
      ensures SS.Unchunk(chunks) == SS.EventsToChunk(measure, includeAdjustments)
      ensures Snapshot(failure) == PlayedMeasure(old(Snapshot(None)), measure, includeAdjustments, mixerState, tempoModifier)
      ensures failure.None? ==> deltas == TickDeltas(prevTicks, chunks) && lastTicks == LastTicks(prevTicks, chunks)
    {
      currentMeasure := measure.number;
      tempo := measure.initialTempo;
      broadcast := broadcast + [MeasurePlaybackEvent(measure.number, measure.timeSignature),
                                TempoEvent(tempo, tempoModifier(tempo))];
      ghost var entered := Snapshot(None);
      assert entered == Entered(old(Snapshot(None)), measure, tempoModifier);
      chunks := SS.Chunked(measure, includeAdjustments);
      deltas := [];
      lastTicks := prevTicks;
      failure := None;
      for j := 0 to |chunks|
        invariant playing == old(playing) && start == old(start) && end == old(end)
        invariant mixerState == old(mixerState) && tempoModifier == old(tempoModifier)
        invariant currentMeasure == measure.number
        invariant Snapshot(failure) == Played(entered, SS.EventsOf(SS.Unchunk(chunks[..j])), mixerState, tempoModifier)
        invariant failure.None? ==> deltas == TickDeltas(prevTicks, chunks[..j]) && lastTicks == LastTicks(prevTicks, chunks[..j])
      {
        ghost var before := Snapshot(failure);
        var chunk := chunks[j];
        ChunkStep(chunks, j);
        TickDeltasStep(prevTicks, chunks, j);
        PlayedAppend(entered, SS.EventsOf(SS.Unchunk(chunks[..j])), chunk.events, mixerState, tempoModifier);
        if failure.None? {
          deltas := deltas + [chunk.ticks.Minus(lastTicks.GetOr(chunk.ticks))];
          failure := PlayEvents(chunk.events);
          lastTicks := Some(chunk.ticks);
        } else {
          PlayedFailed(before, chunk.events, mixerState, tempoModifier);
        }
      }
      assert chunks[..|chunks|] == chunks;
    }

    /**
     * One pass of the run loop: the measures `startFrom..end` in order, only the first with its initial
     * adjustments, the tick deltas counted from the pass's first chunk.
     */
    method PlayPass(startFrom: int) returns (chunks: seq<SS.Chunk>, deltas: seq<Tick>, failure: Option<Failure>)
      requires Valid() && SS.Numbered(song) && end.Some? && start <= startFrom <= end.value
      modifies this, port
      ensures Valid()
      ensures playing == old(playing) && start == old(start) && end == old(end)
      ensures mixerState == old(mixerState) && tempoModifier == old(tempoModifier)
      ensures Snapshot(failure) == PlayedPass(old(Snapshot(None)), song[startFrom - 1 .. end.value], mixerState, tempoModifier)
      ensures failure.None? ==> SS.Unchunk(chunks) == PassTimed(song[startFrom - 1 .. end.value])
      ensures failure.None? ==> deltas == TickDeltas(None, chunks)
    {
      var pass := song[startFrom - 1 .. end.value];
      ghost var s0 := Snapshot(None);
      var afterJump := true;
      var prevTicks: Option<Tick> := None;
      chunks, deltas, failure := [], [], None;
      for i := 0 to |pass|
        invariant Valid()
        invariant playing == old(playing) && start == old(start) && end == old(end)
        invariant mixerState == old(mixerState) && tempoModifier == old(tempoModifier)
        invariant afterJump == (i == 0)
        invariant Snapshot(failure) == PlayedPass(s0, pass[..i], mixerState, tempoModifier)
        invariant failure.None? ==> SS.Unchunk(chunks) == PassTimed(pass[..i])
        invariant failure.None? ==> deltas == TickDeltas(None, chunks) && prevTicks == LastTicks(None, chunks)
      {
        var measure := pass[i];
        PassStep(s0, pass, i, mixerState, tempoModifier);
        assert measure == song[startFrom - 1 + i] && measure.number == startFrom + i;
        if failure.None? {
          var measureChunks, measureDeltas;
          measureChunks, measureDeltas, prevTicks, failure := PlayMeasure(measure, afterJump, prevTicks);
          UnchunkAppend(chunks, measureChunks);
          TickDeltasAppend(None, chunks, measureChunks);
          chunks := chunks + measureChunks;
          deltas := deltas + measureDeltas;
        }
        afterJump := false;
      }
      assert pass[..|pass|] == pass;
    }

    /** The run loop once playing: `passes` passes, the first from the current measure, then from `start`. */
    method Run(passes: nat) returns (failure: Option<Failure>)
      requires Valid() && SS.Numbered(song) && end.Some?
      modifies this, port
      ensures Valid()
      ensures playing == old(playing) && start == old(start) && end == old(end)
      ensures mixerState == old(mixerState) && tempoModifier == old(tempoModifier)
      ensures Snapshot(failure) == PlayedRun(old(Snapshot(None)), song, old(currentMeasure), start, end.value, passes,
                                             mixerState, tempoModifier)
    {
      ghost var s0 := Snapshot(None);
      var startFrom := currentMeasure;
      ghost var from, last, mixer, modifier := startFrom, end.value, mixerState, tempoModifier;
      failure := None;
      for p := 0 to passes
        invariant Valid()
        invariant playing == old(playing) && start == old(start) && end == old(end)
        invariant mixerState == mixer && tempoModifier == modifier
        invariant startFrom == if p == 0 then from else start
        invariant Snapshot(failure) == PlayedRun(s0, song, from, start, last, p, mixer, modifier)
      {
        ghost var before := Snapshot(failure);
        PlayedRunNext(s0, song, from, start, last, p, mixer, modifier, startFrom);
        if failure.None? {
          var _, _, f := PlayPass(startFrom);
          failure := f;
        } else {
          PassFailed(before, song[startFrom - 1 .. end.value], mixerState, tempoModifier);
        }
        startFrom := start;
      }
    }

    /** `play()`: the waiting thread is woken only when playback was off. */
    method Play() returns (woken: bool)
      modifies this
      ensures playing && woken == !old(playing)
      ensures tempo == old(tempo) && currentMeasure == old(currentMeasure) && start == old(start) && end == old(end)
      ensures mixerState == old(mixerState) && tempoModifier == old(tempoModifier) && broadcast == old(broadcast)
    {
      var before := playing;
      playing := true;
      woken := !before;
    }

    /** `stopPlaying()`: playback off and All Sound Off on every channel. */
    method StopPlaying()
      modifies this, port
      ensures !playing && Panicked(old(port.sent), port.sent)
      ensures tempo == old(tempo) && currentMeasure == old(currentMeasure) && start == old(start) && end == old(end)
      ensures mixerState == old(mixerState) && tempoModifier == old(tempoModifier) && broadcast == old(broadcast)
    {
      playing := false;
      port.Panic();
    }

    /** `setCurrentMeasure`: the measure clamped into the range; before a range is set the cast of `end` fails. */
    method SetCurrentMeasure(measure: int) returns (failure: Option<Failure>)
      modifies this
      ensures end.None? ==> failure == Some(ClassCast) && currentMeasure == old(currentMeasure)
      ensures end.Some? ==> failure.None? && currentMeasure == Clamp(measure, start, end.value)
      ensures tempo == old(tempo) && playing == old(playing) && start == old(start) && end == old(end)
      ensures mixerState == old(mixerState) && tempoModifier == old(tempoModifier) && broadcast == old(broadcast)
    {
      match end
      case None => failure := Some(ClassCast);
      case Some(e) =>
        failure := None;
        currentMeasure := Clamp(measure, start, e);
    }

    /** `resetMeasureRange`: the asserted range becomes the play range and playback moves to its start. */
    method ResetMeasureRange(newStart: int, newEnd: int)
      requires Valid()
      requires 1 <= newEnd <= song[|song| - 1].number
      requires 1 <= newStart <= newEnd
      modifies this
      ensures Valid()
      ensures start == newStart && end == Some(newEnd) && currentMeasure == newStart
      ensures tempo == old(tempo) && playing == old(playing)
      ensures mixerState == old(mixerState) && tempoModifier == old(tempoModifier) && broadcast == old(broadcast)
    {
      start := newStart;
      end := Some(newEnd);
      var _ := SetCurrentMeasure(start);
    }

    /** `updateMixer`: known tracks take the given gains; the set of tracks never changes. */
    method UpdateMixer(state: map<EngineTrack, real>)
      requires Valid()
      modifies this
      ensures Valid()
      ensures mixerState == MergedMixer(old(mixerState), state)
      ensures tempo == old(tempo) && playing == old(playing) && currentMeasure == old(currentMeasure)
      ensures start == old(start) && end == old(end) && tempoModifier == old(tempoModifier) && broadcast == old(broadcast)
    {
      mixerState := map t | t in mixerState :: if t in state then state[t] else mixerState[t];
    }

    /** What the `PlayerControl` passes to its playback listeners. */
    method Notify(event: PlaybackEvent)
      modifies this
      ensures broadcast == old(broadcast) + [event]
      ensures tempo == old(tempo) && playing == old(playing) && currentMeasure == old(currentMeasure)
      ensures start == old(start) && end == old(end) && mixerState == old(mixerState) && tempoModifier == old(tempoModifier)
    {
      broadcast := broadcast + [event];
    }
  }

  // ---------------------------------------------------------------------------
  // PlayerControl
  // ---------------------------------------------------------------------------

  class PlayerControl {
    const player: MidiPlayer

    /** A control exists only after `createPlayer` has set a range. */
    ghost predicate Valid()
      reads this, player
    {
      player.Valid() && player.end.Some?
    }

    constructor (player: MidiPlayer)
      ensures this.player == player
    {
      this.player := player;
    }

    method Play()
      requires Valid()
      modifies player
      ensures Valid() && player.playing
      ensures player.broadcast == old(player.broadcast) + [PlayEvent(true)]
      ensures player.currentMeasure == old(player.currentMeasure) && player.start == old(player.start)
      ensures player.end == old(player.end) && player.tempo == old(player.tempo)
      ensures player.tempoModifier == old(player.tempoModifier) && player.mixerState == old(player.mixerState)
      ensures player.port.sent == old(player.port.sent)
    {
      var _ := player.Play();
      player.Notify(PlayEvent(true));
    }

    /** `stop()`: only a playing player is stopped and announced as stopped. */
    method Stop()
      requires Valid()
      modifies player, player.port
      ensures Valid() && !player.playing
      ensures old(player.playing) ==> player.broadcast == old(player.broadcast) + [PlayEvent(false)]
                                      && Panicked(old(player.port.sent), player.port.sent)
      ensures !old(player.playing) ==> player.broadcast == old(player.broadcast) && player.port.sent == old(player.port.sent)
      ensures player.currentMeasure == old(player.currentMeasure) && player.start == old(player.start)
      ensures player.end == old(player.end) && player.tempo == old(player.tempo)
      ensures player.tempoModifier == old(player.tempoModifier) && player.mixerState == old(player.mixerState)
    {
      if player.playing {
        SignalStop();
      }
    }

    method SignalStop()
      requires Valid()
      modifies player, player.port
      ensures Valid() && !player.playing
      ensures player.broadcast == old(player.broadcast) + [PlayEvent(false)] && Panicked(old(player.port.sent), player.port.sent)
      ensures player.currentMeasure == old(player.currentMeasure) && player.start == old(player.start)
      ensures player.end == old(player.end) && player.tempo == old(player.tempo)
      ensures player.tempoModifier == old(player.tempoModifier) && player.mixerState == old(player.mixerState)
    {
      player.StopPlaying();
      player.Notify(PlayEvent(false));
    }

    /** `quit()` stops and announces it whether or not the player was playing. */
    method Quit()
      requires Valid()
      modifies player, player.port
      ensures Valid() && !player.playing
      ensures player.broadcast == old(player.broadcast) + [PlayEvent(false)] && Panicked(old(player.port.sent), player.port.sent)
      ensures player.currentMeasure == old(player.currentMeasure) && player.start == old(player.start)
      ensures player.end == old(player.end) && player.tempo == old(player.tempo)
      ensures player.tempoModifier == old(player.tempoModifier) && player.mixerState == old(player.mixerState)
    {
      SignalStop();
    }

    /** `setTempoModifier`: the new modifier takes effect and the adjusted tempo is broadcast. */
    method SetTempoModifier(f: Tempo -> Tempo)
      requires Valid()
      modifies player
      ensures Valid() && player.tempoModifier == f && player.tempo == old(player.tempo)
      ensures player.broadcast == old(player.broadcast) + [TempoEvent(player.tempo, f(player.tempo))]
    {
      player.tempoModifier := f;
      player.Notify(TempoEvent(player.tempo, player.CurrentAdjustedTempo()));
    }

    /** `jumpToBar(f)`: stop, move to `f(current)` clamped into the range, and play. */
    method JumpToBar(f: int -> int)
      requires Valid()
      modifies player, player.port
      ensures Valid() && player.playing
      ensures player.currentMeasure == Clamp(f(old(player.currentMeasure)), player.start, player.end.value)
      ensures player.start <= player.currentMeasure <= player.end.value
      ensures player.start == old(player.start) && player.end == old(player.end)
      ensures player.broadcast == old(player.broadcast) + (if old(player.playing) then [PlayEvent(false)] else []) + [PlayEvent(true)]
      ensures old(player.playing) ==> Panicked(old(player.port.sent), player.port.sent)
      ensures !old(player.playing) ==> player.port.sent == old(player.port.sent)
      ensures player.tempo == old(player.tempo) && player.tempoModifier == old(player.tempoModifier)
      ensures player.mixerState == old(player.mixerState)
    {
      Stop();
      var _ := player.SetCurrentMeasure(f(player.currentMeasure));
      Play();
    }

    /** `resetMeasureRange`: a new range, at its start, and playing again only if it was playing. */
    method ResetMeasureRange(start: int, end: int)
      requires Valid()
      requires 1 <= end <= player.song[|player.song| - 1].number
      requires 1 <= start <= end
      modifies player, player.port
      ensures Valid() && player.playing == old(player.playing)
      ensures player.start == start && player.end == Some(end) && player.currentMeasure == start
      ensures player.broadcast == old(player.broadcast) + (if old(player.playing) then [PlayEvent(false), PlayEvent(true)] else [])
      ensures old(player.playing) ==> Panicked(old(player.port.sent), player.port.sent)
      ensures !old(player.playing) ==> player.port.sent == old(player.port.sent)
      ensures player.tempo == old(player.tempo) && player.tempoModifier == old(player.tempoModifier)
      ensures player.mixerState == old(player.mixerState)
    {
      var wasPlaying := player.playing;
      Stop();
      player.ResetMeasureRange(start, end);
      if wasPlaying {
        Play();
      }
    }

    method UpdateMixer(state: map<EngineTrack, real>)
      requires Valid()
      modifies player
      ensures Valid() && player.mixerState == MergedMixer(old(player.mixerState), state)
      ensures player.playing == old(player.playing) && player.currentMeasure == old(player.currentMeasure)
      ensures player.start == old(player.start) && player.end == old(player.end) && player.broadcast == old(player.broadcast)
    {
      player.UpdateMixer(state);
    }
  }

  /** `noOpTempoModifier`. */
  function NoOpTempoModifier(tempo: Tempo): Tempo { tempo }

  /**
   * `PlaybackEngine.createPlayer` after the file is read and its song built: a stopped player over the
   * range `initialFrom ?: 1` .. `initialTo ?: song size`, at the range start.
   */
  method CreatePlayer(song: seq<SS.Measure>, port: MidiPort, initialFrom: Option<int>, initialTo: Option<int>)
    returns (control: PlayerControl)
    requires |song| >= 1 && SS.Numbered(song)
    requires 1 <= initialTo.GetOr(|song|) <= |song|
    requires 1 <= initialFrom.GetOr(1) <= initialTo.GetOr(|song|)
    ensures fresh(control) && fresh(control.player) && control.Valid()
    ensures control.player.song == song && control.player.port == port && !control.player.playing
    ensures control.player.start == initialFrom.GetOr(1) && control.player.end == Some(initialTo.GetOr(|song|))
    ensures control.player.currentMeasure == control.player.start
    ensures control.player.tempo == song[0].initialTempo && control.player.mixerState == InitialMixer()
  {
    var player := new MidiPlayer(song, NoOpTempoModifier, port);
    player.ResetMeasureRange(initialFrom.GetOr(1), initialTo.GetOr(|song|));
    control := new PlayerControl(player);
  }
}
