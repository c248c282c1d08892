/**
 * The second playback engine (engine/src/main/kotlin/midituutti/engine/engine.kt): a reader thread puts
 * every measure of the song, announced by a measure marker, on a blocking queue; a player thread takes the
 * events one by one, sleeps for the tick delta, tells its listeners about tempo messages and measure
 * markers, mutes notes of muted channels and clicks of a muted click track, and sends the rest to the port.
 *
 * The two threads are modelled as methods of the reader and the player that put, respectively take, a given
 * number of events; the queue between them is a sequence both share.
 */
module LegacyEngine {
  import opened Midi
  import opened Collections
  import opened Outcomes
  import opened EngineTypes
  import MessageDecoder
  import SS = SongStructure
  import Engine

  // ---------------------------------------------------------------------------
  // Events on the queue and events for the listeners
  // ---------------------------------------------------------------------------

  /** What the reader puts on the queue: an event of a measure, or the marker that opens measure `measure`. */
  datatype QueuedEvent = Event(event: EngineEvent) | MeasureEvent(measureTicks: Tick, measure: int) {
    function Ticks(): Tick {
      match this
      case Event(e) => e.Ticks()
      case MeasureEvent(t, _) => t
    }
  }

  /** This engine's `PlaybackEvent`: a tempo event carries the tempo (unknown before the first one) and the multiplier. */
  datatype LegacyPlaybackEvent =
    | PlayEvent(playing: bool)
    | MutePlaybackEvent(track: EngineTrack, muted: bool)
    | TempoEvent(tempo: Option<Tempo>, multiplier: real, adjustedTempo: Option<Tempo>)

  // ---------------------------------------------------------------------------
  // muteOrPass and the outgoing message
  // ---------------------------------------------------------------------------

  /** `mutedTracks.any { it is MidiTrack && it.channel == channel }`. */
  predicate MutesChannel(mutedTracks: set<EngineTrack>, channel: int) {
    exists t :: t in mutedTracks && t.MidiTrack? && t.channel == channel
  }

  /**
   * `muteOrPass`: a note on a channel whose track is muted is sent with velocity 0; every other message,
   * a note of an unmuted channel included, passes unchanged.
   */
  function MuteOrPass(mutedTracks: set<EngineTrack>, message: MidiMessage): (r: MidiMessage)
    ensures r.ticks == message.ticks
    ensures message.NoteMessage? && MidiTrack(message.note.channel) in mutedTracks
            ==> r == NoteMessage(message.ticks, message.note.(velocity := 0))
    ensures !(message.NoteMessage? && MidiTrack(message.note.channel) in mutedTracks) ==> r == message
  {
    if message.NoteMessage? then
      var note := message.note;
      if MutesChannel(mutedTracks, note.channel) then NoteMessage(message.ticks, note.(velocity := 0)) else message
    else message
  }

  /**
   * The message the player sends for an event: a message of the file through `muteOrPass`, the click note
   * unless the click track is muted, and nothing for a measure marker.
   */
  function Outgoing(event: QueuedEvent, mutedTracks: set<EngineTrack>): (r: Option<MidiMessage>)
    ensures r.None? <==> event.MeasureEvent? || (event.event.ClickEvent? && ClickTrack in mutedTracks)
    ensures r.Some? ==> r.value.ticks == event.Ticks()
    ensures r.Some? && event.event.ClickEvent? ==> r.value.NoteMessage? && r.value.note == ClickNote(event.event.click)
  {
    match event
    case Event(MessageEvent(m)) => Some(MuteOrPass(mutedTracks, m))
    case Event(ClickEvent(t, click)) => if ClickTrack !in mutedTracks then Some(NoteMessage(t, ClickNote(click))) else None
    case MeasureEvent(_, _) => None
  }

  /** `tempo?.let { t -> t * tempoMultiplier }`. */
  function Adjusted(tempo: Option<Tempo>, multiplier: real): (r: Option<Tempo>)
    ensures r.Some? <==> tempo.Some?
    ensures r.Some? ==> r.value.bpm == tempo.value.bpm * multiplier
  {
    if tempo.Some? then Some(tempo.value.Times(multiplier)) else None
  }

  /** A tempo message of the file: `message.metaType() == MetaType.Tempo`. */
  predicate IsTempoEvent(event: QueuedEvent) {
    event.Event? && event.event.MessageEvent? && MessageDecoder.MessageMetaType(event.event.message) == MessageDecoder.TempoMeta
  }

  /** `event.ticks() - (prevTicks ?: event.ticks())`: 0 for the first event of a session. */
  function TicksDelta(prevTicks: Option<Tick>, ticks: Tick): (r: Tick)
    ensures prevTicks.None? ==> r == Tick(0)
    ensures prevTicks.Some? ==> prevTicks.value.Plus(r) == ticks
  {
    ticks.Minus(prevTicks.GetOr(ticks))
  }

  // ---------------------------------------------------------------------------
  // One playing session of the player thread
  // ---------------------------------------------------------------------------

  /**
   * What a playing session changes: the play control's current measure, the player's tempo, the port's send
   * log, the playback listeners' log, the ticks of the last event and the tick deltas between events so far.
   */
  datatype Session = Session(measure: int, tempo: Option<Tempo>, sent: seq<Sent>, broadcast: seq<LegacyPlaybackEvent>,
                             prevTicks: Option<Tick>, deltas: seq<Tick>)

  /**
   * The listener calls for one event: a tempo message sets the tempo and `tempoChanged` broadcasts it with
   * the multiplier; a marker makes the play control's `atMeasureStart` set the current measure.
   */
  function Noticed(s: Session, event: QueuedEvent, multiplier: real): Session {
    if IsTempoEvent(event) then
      var t := Some(event.event.message.tempo);
      s.(tempo := t, broadcast := s.broadcast + [LegacyPlaybackEvent.TempoEvent(t, multiplier, Adjusted(t, multiplier))])
    else if event.MeasureEvent? then s.(measure := event.measure)
    else s
  }

  /** One event: the delta, the listener calls, the message sent if there is one, and `prevTicks = event.ticks()`. */
  function Stepped(s: Session, event: QueuedEvent, mutedTracks: set<EngineTrack>, multiplier: real): (r: Session)
    ensures r.deltas == s.deltas + [TicksDelta(s.prevTicks, event.Ticks())]
    ensures r.prevTicks == Some(event.Ticks())
    ensures r.sent == s.sent + (if Outgoing(event, mutedTracks).Some? then [SentMessage(Outgoing(event, mutedTracks).value)] else [])
    ensures IsTempoEvent(event) ==> r.tempo == Some(event.event.message.tempo) && |r.broadcast| == |s.broadcast| + 1
    ensures !IsTempoEvent(event) ==> r.tempo == s.tempo && r.broadcast == s.broadcast
    ensures event.MeasureEvent? ==> r.measure == event.measure
    ensures !event.MeasureEvent? ==> r.measure == s.measure
  {
    var n := Noticed(s.(deltas := s.deltas + [TicksDelta(s.prevTicks, event.Ticks())]), event, multiplier);
    var out := Outgoing(event, mutedTracks);
    n.(sent := if out.Some? then n.sent + [SentMessage(out.value)] else n.sent, prevTicks := Some(event.Ticks()))
  }

  /** Taking the events in order. */
  function Played(s: Session, events: seq<QueuedEvent>, mutedTracks: set<EngineTrack>, multiplier: real): Session {
    if events == [] then s
    else Stepped(Played(s, events[..|events| - 1], mutedTracks, multiplier), events[|events| - 1], mutedTracks, multiplier)
  }

  lemma PlayedStep(s: Session, events: seq<QueuedEvent>, i: int, mutedTracks: set<EngineTrack>, multiplier: real)
    requires 0 <= i < |events|
    ensures Played(s, events[..i + 1], mutedTracks, multiplier)
         == Stepped(Played(s, events[..i], mutedTracks, multiplier), events[i], mutedTracks, multiplier)
  {
    assert events[..i + 1][..i] == events[..i];
  }

  lemma {:induction false} PlayedAppend(s: Session, a: seq<QueuedEvent>, b: seq<QueuedEvent>,
                                        mutedTracks: set<EngineTrack>, multiplier: real)
    ensures Played(s, a + b, mutedTracks, multiplier) == Played(Played(s, a, mutedTracks, multiplier), b, mutedTracks, multiplier)
    decreases |b|
  {
    if b == [] {
      assert a + b == a;
    } else {
      var b' := b[..|b| - 1];
      assert (a + b)[..|a + b| - 1] == a + b';
      assert (a + b)[|a + b| - 1] == b[|b| - 1];
      PlayedAppend(s, a, b', mutedTracks, multiplier);
    }
  }

  /**
   * The deltas the player sleeps for: one per event, the first of a session 0, every other the distance from
   * the previous event; afterwards `prevTicks` is the last event's ticks.
   */
  lemma {:induction false} PlayedDeltas(s: Session, events: seq<QueuedEvent>, mutedTracks: set<EngineTrack>, multiplier: real)
    ensures var r := Played(s, events, mutedTracks, multiplier);
      && |r.deltas| == |s.deltas| + |events| && r.deltas[..|s.deltas|] == s.deltas
      && (events != [] ==> r.prevTicks == Some(events[|events| - 1].Ticks()))
      && (events == [] ==> r.prevTicks == s.prevTicks)
      && (forall i :: 0 < i < |events| ==> r.deltas[|s.deltas| + i] == events[i].Ticks().Minus(events[i - 1].Ticks()))
      && (events != [] ==> r.deltas[|s.deltas|] == TicksDelta(s.prevTicks, events[0].Ticks()))
  {
    if events != [] {
      var init := events[..|events| - 1];
      var p := Played(s, init, mutedTracks, multiplier);
      var r := Played(s, events, mutedTracks, multiplier);
      PlayedDeltas(s, init, mutedTracks, multiplier);
      assert r.deltas == p.deltas + [TicksDelta(p.prevTicks, events[|events| - 1].Ticks())];
      forall i | 0 < i < |events|
        ensures r.deltas[|s.deltas| + i] == events[i].Ticks().Minus(events[i - 1].Ticks())
      {
        assert events[i - 1] == init[i - 1];
        if i < |init| {
          assert events[i] == init[i];
        }
      }
      if init != [] {
        assert events[0] == init[0];
      }
    }
  }

  /** The sum of tick deltas. */
  function Total(deltas: seq<Tick>): int {
    if deltas == [] then 0 else Total(deltas[..|deltas| - 1]) + deltas[|deltas| - 1].tick
  }

  /**
   * The deltas of a session add up to the distance from its first event to its last: the player sleeps,
   * in ticks, exactly as long as the events it played span.
   */
  lemma {:induction false} SessionDeltasTotal(events: seq<QueuedEvent>, mutedTracks: set<EngineTrack>, multiplier: real,
                                              s: Session)
    requires s.prevTicks == None && s.deltas == [] && events != []
    ensures Total(Played(s, events, mutedTracks, multiplier).deltas) == events[|events| - 1].Ticks().tick - events[0].Ticks().tick
  {
    var init := events[..|events| - 1];
    var r := Played(s, events, mutedTracks, multiplier);
    var p := Played(s, init, mutedTracks, multiplier);
    assert r == Stepped(p, events[|events| - 1], mutedTracks, multiplier);
    PlayedDeltas(s, init, mutedTracks, multiplier);
    assert r.deltas[..|r.deltas| - 1] == p.deltas;
    if init == [] {
      assert p.deltas == [];
      assert r.deltas == [TicksDelta(None, events[0].Ticks())];
    } else {
      SessionDeltasTotal(init, mutedTracks, multiplier, s);
      assert init[0] == events[0] && init[|init| - 1] == events[|events| - 2];
      assert p.prevTicks == Some(events[|events| - 2].Ticks());
    }
  }

  /** `events[i]` is a measure marker and no marker follows it. */
  ghost predicate LastMarkerAt(events: seq<QueuedEvent>, i: int) {
    0 <= i < |events| && events[i].MeasureEvent? && forall j :: i < j < |events| ==> !events[j].MeasureEvent?
  }

  ghost predicate NoMarker(events: seq<QueuedEvent>) {
    forall i :: 0 <= i < |events| ==> !events[i].MeasureEvent?
  }

  /** `events[i]` is a tempo message and no tempo message follows it. */
  ghost predicate LastTempoAt(events: seq<QueuedEvent>, i: int) {
    0 <= i < |events| && IsTempoEvent(events[i]) && forall j :: i < j < |events| ==> !IsTempoEvent(events[j])
  }

  ghost predicate NoTempo(events: seq<QueuedEvent>) {
    forall i :: 0 <= i < |events| ==> !IsTempoEvent(events[i])
  }

  /** Dropping the last event keeps every earlier event where it was. */
  lemma DropLast(events: seq<QueuedEvent>, i: int)
    requires events != []
    ensures var last := events[|events| - 1]; var init := events[..|events| - 1];
      && (!last.MeasureEvent? ==>
            && (LastMarkerAt(events, i) ==> i < |init| && LastMarkerAt(init, i))
            && (NoMarker(events) <==> NoMarker(init)))
      && (!IsTempoEvent(last) ==>
            && (LastTempoAt(events, i) ==> i < |init| && LastTempoAt(init, i))
            && (NoTempo(events) <==> NoTempo(init)))
  {
    var init := events[..|events| - 1];
    assert forall j :: 0 <= j < |init| ==> init[j] == events[j];
  }

  /**
   * After a session the current measure is that of the last marker taken, or the one before if there was
   * none; the tempo likewise is that of the last tempo message.
   */
  lemma {:induction false} PlayedMeasureAndTempo(s: Session, events: seq<QueuedEvent>, mutedTracks: set<EngineTrack>,
                                                 multiplier: real)
    ensures NoMarker(events) ==> Played(s, events, mutedTracks, multiplier).measure == s.measure
    ensures forall i :: LastMarkerAt(events, i) ==> Played(s, events, mutedTracks, multiplier).measure == events[i].measure
    ensures NoTempo(events) ==> Played(s, events, mutedTracks, multiplier).tempo == s.tempo
    ensures forall i :: LastTempoAt(events, i) ==> Played(s, events, mutedTracks, multiplier).tempo == Some(events[i].event.message.tempo)
  {
    if events != [] {
      var init := events[..|events| - 1];
      var last := events[|events| - 1];
      var p := Played(s, init, mutedTracks, multiplier);
      var r := Played(s, events, mutedTracks, multiplier);
      assert r == Stepped(p, last, mutedTracks, multiplier);
      PlayedMeasureAndTempo(s, init, mutedTracks, multiplier);
      assert r.measure == if last.MeasureEvent? then last.measure else p.measure;
      assert r.tempo == if IsTempoEvent(last) then Some(last.event.message.tempo) else p.tempo;
      forall i | LastMarkerAt(events, i)
        ensures r.measure == events[i].measure
      {
        if last.MeasureEvent? {
          assert i == |events| - 1;
        } else {
          DropLast(events, i);
          assert init[i] == events[i];
        }
      }
      forall i | LastTempoAt(events, i)
        ensures r.tempo == Some(events[i].event.message.tempo)
      {
        if IsTempoEvent(last) {
          assert i == |events| - 1;
        } else {
          DropLast(events, i);
          assert init[i] == events[i];
        }
      }
      if last.MeasureEvent? {
        assert !NoMarker(events);
      } else {
        DropLast(events, 0);
      }
      if IsTempoEvent(last) {
        assert !NoTempo(events);
      } else {
        DropLast(events, 0);
      }
    }
  }

  /** What the events would sound like with nothing muted: every message of the file and every click, in order. */
  function Sounding(events: seq<QueuedEvent>): (r: seq<Sent>) {
    if events == [] then []
    else
      var e := events[|events| - 1];
      Sounding(events[..|events| - 1])
      + match e
        case Event(MessageEvent(m)) => [SentMessage(m)]
        case Event(ClickEvent(t, click)) => [SentMessage(NoteMessage(t, ClickNote(click)))]
        case MeasureEvent(_, _) => []
  }

  /** With no track muted the port receives every message of the file unchanged and every click, and nothing else. */
  lemma {:induction false} PlayedUnmuted(s: Session, events: seq<QueuedEvent>, multiplier: real)
    ensures Played(s, events, {}, multiplier).sent == s.sent + Sounding(events)
  {
    if events != [] {
      var init := events[..|events| - 1];
      PlayedUnmuted(s, init, multiplier);
      var p := Played(s, init, {}, multiplier);
      assert Played(s, events, {}, multiplier) == Stepped(p, events[|events| - 1], {}, multiplier);
    }
  }

  /** One of the three click notes. */
  predicate IsClick(n: Note) {
    n == ClickNote(One) || n == ClickNote(Quarter) || n == ClickNote(Eight)
  }

  /** A note in the send log on a muted channel has velocity 0, unless it is a click of an unmuted click track. */
  ghost predicate Silenced(sent: seq<Sent>, mutedTracks: set<EngineTrack>) {
    forall i :: 0 <= i < |sent| && sent[i].SentMessage? && sent[i].message.NoteMessage?
                && MidiTrack(sent[i].message.note.channel) in mutedTracks
                ==> sent[i].message.note.velocity == 0 || (ClickTrack !in mutedTracks && IsClick(sent[i].message.note))
  }

  /**
   * A muted channel sounds nothing of the file: every note a session sends on it has velocity 0, except the
   * clicks, which bypass `muteOrPass` and only the click track mutes; with the click track muted the session
   * sends one message per message of the file and nothing for a click.
   */
  lemma {:induction false} PlayedMuted(s: Session, events: seq<QueuedEvent>, mutedTracks: set<EngineTrack>, multiplier: real)
    requires Silenced(s.sent, mutedTracks)
    ensures Silenced(Played(s, events, mutedTracks, multiplier).sent, mutedTracks)
    ensures ClickTrack in mutedTracks ==> |Played(s, events, mutedTracks, multiplier).sent| == |s.sent| + |Messages(events)|
  {
    if events != [] {
      var init := events[..|events| - 1];
      var last := events[|events| - 1];
      PlayedMuted(s, init, mutedTracks, multiplier);
      var p := Played(s, init, mutedTracks, multiplier);
      var r := Played(s, events, mutedTracks, multiplier);
      assert r == Stepped(p, last, mutedTracks, multiplier);
      var out := Outgoing(last, mutedTracks);
      assert r.sent == if out.Some? then p.sent + [SentMessage(out.value)] else p.sent;
      if out.Some? && out.value.NoteMessage? && MidiTrack(out.value.note.channel) in mutedTracks {
        assert out.value.note.velocity == 0 || (ClickTrack !in mutedTracks && IsClick(out.value.note));
      }
      assert Silenced(r.sent, mutedTracks) by {
        forall i | 0 <= i < |r.sent| && r.sent[i].SentMessage? && r.sent[i].message.NoteMessage?
                   && MidiTrack(r.sent[i].message.note.channel) in mutedTracks
          ensures r.sent[i].message.note.velocity == 0 || (ClickTrack !in mutedTracks && IsClick(r.sent[i].message.note))
        {
          if i < |p.sent| {
            assert r.sent[i] == p.sent[i];
          }
        }
      }
    }
  }

  /** The messages of the file among the events. */
  function Messages(events: seq<QueuedEvent>): seq<MidiMessage> {
    if events == [] then []
    else
      var e := events[|events| - 1];
      Messages(events[..|events| - 1]) + if e.Event? && e.event.MessageEvent? then [e.event.message] else []
  }

  // ---------------------------------------------------------------------------
  // What the reader queues
  // ---------------------------------------------------------------------------

  /** The events of a measure as queue elements. */
  function Wrapped(events: seq<EngineEvent>): (r: seq<QueuedEvent>)
    ensures |r| == |events|
    ensures forall i :: 0 <= i < |r| ==> r[i] == Event(events[i])
  {
    if events == [] then [] else Wrapped(events[..|events| - 1]) + [Event(events[|events| - 1])]
  }

  /** One measure: `MeasureEvent(measure.start, readerCursor)`, then `measure.events`. */
  function MeasureQueued(m: SS.Measure, cursor: int): seq<QueuedEvent> {
    [MeasureEvent(m.start, cursor)] + Wrapped(m.events)
  }

  /** The measures `first..last` of the song, each opened by its marker; nothing when `first > last`. */
  function PassQueued(song: seq<SS.Measure>, first: int, last: int): seq<QueuedEvent>
    requires first > last || (1 <= first && last <= |song|)
    decreases last - first
  {
    if last < first then [] else PassQueued(song, first, last - 1) + MeasureQueued(song[last - 1], last)
  }

  /** The measure numbers the markers among the events announce, in order. */
  function Markers(events: seq<QueuedEvent>): seq<int> {
    if events == [] then []
    else
      var e := events[|events| - 1];
      Markers(events[..|events| - 1]) + if e.MeasureEvent? then [e.measure] else []
  }

  /** The measure events among the queue elements, without the markers. */
  function Unwrapped(events: seq<QueuedEvent>): seq<EngineEvent> {
    if events == [] then []
    else
      var e := events[|events| - 1];
      Unwrapped(events[..|events| - 1]) + if e.Event? then [e.event] else []
  }

  lemma {:induction false} MarkersAppend(a: seq<QueuedEvent>, b: seq<QueuedEvent>)
    ensures Markers(a + b) == Markers(a) + Markers(b)
    ensures Unwrapped(a + b) == Unwrapped(a) + Unwrapped(b)
    decreases |b|
  {
    if b == [] {
      assert a + b == a;
    } else {
      var b' := b[..|b| - 1];
      assert (a + b)[..|a + b| - 1] == a + b';
      assert (a + b)[|a + b| - 1] == b[|b| - 1];
      MarkersAppend(a, b');
    }
  }

  lemma {:induction false} WrappedContents(events: seq<EngineEvent>)
    ensures Markers(Wrapped(events)) == []
    ensures Unwrapped(Wrapped(events)) == events
    ensures NoMarker(Wrapped(events))
  {
    if events != [] {
      var init := events[..|events| - 1];
      WrappedContents(init);
      assert Wrapped(events)[..|events| - 1] == Wrapped(init);
    }
  }

  /** A measure's elements: its one marker, then its events. */
  lemma MeasureQueuedContents(m: SS.Measure, cursor: int)
    ensures Markers(MeasureQueued(m, cursor)) == [cursor]
    ensures Unwrapped(MeasureQueued(m, cursor)) == m.events
  {
    var marker := [MeasureEvent(m.start, cursor)];
    MarkersAppend(marker, Wrapped(m.events));
    WrappedContents(m.events);
    assert marker[..0] == [];
    assert Markers(marker) == [cursor];
    assert Unwrapped(marker) == [];
  }

  /**
   * A pass announces the measures `first..last` in order, and between the markers holds exactly the events
   * of those measures of the song, in order.
   */
  lemma {:induction false} PassQueuedContents(song: seq<SS.Measure>, first: int, last: int)
    requires 1 <= first <= last + 1 && last <= |song|
    ensures Markers(PassQueued(song, first, last)) == Engine.Range(first, last)
    ensures Unwrapped(PassQueued(song, first, last)) == SS.MeasureEvents(song[first - 1 .. last])
    decreases last - first
  {
    if last >= first {
      var m := song[last - 1];
      var before := PassQueued(song, first, last - 1);
      var queued := MeasureQueued(m, last);
      assert PassQueued(song, first, last) == before + queued;
      PassQueuedContents(song, first, last - 1);
      MarkersAppend(before, queued);
      MeasureQueuedContents(m, last);
      assert Markers(before + queued) == Engine.Range(first, last) by {
        assert Engine.Range(first, last) == Engine.Range(first, last - 1) + [last];
      }
      assert Unwrapped(before + queued) == SS.MeasureEvents(song[first - 1 .. last]) by {
        MeasureEventsSlice(song, first, last);
      }
    } else {
      assert song[first - 1 .. last] == [];
    }
  }

  lemma MeasureEventsSlice(song: seq<SS.Measure>, first: int, last: int)
    requires 1 <= first <= last <= |song|
    ensures SS.MeasureEvents(song[first - 1 .. last]) == SS.MeasureEvents(song[first - 1 .. last - 1]) + song[last - 1].events
  {
    var slice := song[first - 1 .. last];
    assert slice[..|slice| - 1] == song[first - 1 .. last - 1];
  }

  /** A marker followed by events without markers leaves the player at the marker's measure. */
  lemma MarkerThenEvents(s: Session, marker: QueuedEvent, events: seq<QueuedEvent>, mutedTracks: set<EngineTrack>,
                         multiplier: real)
    requires marker.MeasureEvent? && NoMarker(events)
    ensures Played(s, [marker] + events, mutedTracks, multiplier).measure == marker.measure
  {
    PlayedAppend(s, [marker], events, mutedTracks, multiplier);
    assert [marker][..0] == [];
    var p := Played(s, [marker], mutedTracks, multiplier);
    assert p == Stepped(s, marker, mutedTracks, multiplier);
    PlayedMeasureAndTempo(p, events, mutedTracks, multiplier);
  }

  /** The player, having taken a whole non-empty pass, is at the pass's last measure. */
  lemma PassEndsAtLast(s: Session, song: seq<SS.Measure>, first: int, last: int, mutedTracks: set<EngineTrack>,
                       multiplier: real)
    requires 1 <= first <= last <= |song|
    ensures Played(s, PassQueued(song, first, last), mutedTracks, multiplier).measure == last
  {
    var m := song[last - 1];
    var before := PassQueued(song, first, last - 1);
    assert PassQueued(song, first, last) == before + MeasureQueued(m, last);
    PlayedAppend(s, before, MeasureQueued(m, last), mutedTracks, multiplier);
    WrappedContents(m.events);
    MarkerThenEvents(Played(s, before, mutedTracks, multiplier), MeasureEvent(m.start, last), Wrapped(m.events),
                     mutedTracks, multiplier);
  }

  /** One outcome of the reader: what it put on the queue, and the exception that ended its thread, if any. */
  datatype Read = Read(queued: seq<QueuedEvent>, failure: Option<Failure>)

  /**
   * One pass `for (readerCursor in startFrom..to)` over `song.measures[readerCursor - 1]`: the measures
   * `startFrom..to`, or, when a cursor leaves the song, the measures before it and `IndexOutOfBounds`.
   */
  function PassRead(song: seq<SS.Measure>, startFrom: int, to: int): (r: Read)
    ensures r.failure.None? <==> startFrom > to || (1 <= startFrom && to <= |song|)
    ensures r.failure.Some? ==> r.failure == Some(IndexOutOfBounds)
  {
    if startFrom > to || (1 <= startFrom && to <= |song|) then Read(PassQueued(song, startFrom, to), None)
    else if startFrom < 1 then Read([], Some(IndexOutOfBounds))
    else Read(PassQueued(song, startFrom, |song|), Some(IndexOutOfBounds))
  }

  /** `passes` passes of the reading loop: the first from `startFrom`, every later one from `from`; a failure ends them. */
  function RunRead(song: seq<SS.Measure>, startFrom: int, from: int, to: int, passes: nat): Read {
    if passes == 0 then Read([], None)
    else
      var r := RunRead(song, startFrom, from, to, passes - 1);
      if r.failure.Some? then r
      else
        var p := PassRead(song, if passes == 1 then startFrom else from, to);
        Read(r.queued + p.queued, p.failure)
  }

  /**
   * With the first cursor and the loop range inside the song the reader never fails, and its markers
   * announce `startFrom..to` once, then `from..to` on every later pass.
   */
  lemma {:induction false} RunReadOrder(song: seq<SS.Measure>, startFrom: int, from: int, to: int, passes: nat)
    requires 1 <= startFrom <= to + 1 && 1 <= from <= to + 1 && to <= |song|
    ensures RunRead(song, startFrom, from, to, passes).failure.None?
    ensures Markers(RunRead(song, startFrom, from, to, passes).queued) == Engine.PassOrder(startFrom, from, to, passes)
  {
    if passes > 0 {
      RunReadOrder(song, startFrom, from, to, passes - 1);
      var r := RunRead(song, startFrom, from, to, passes - 1);
      var first := if passes == 1 then startFrom else from;
      var p := PassRead(song, first, to);
      assert RunRead(song, startFrom, from, to, passes) == Read(r.queued + p.queued, p.failure);
      PassQueuedContents(song, first, to);
      MarkersAppend(r.queued, p.queued);
      Engine.PassOrderStep(startFrom, from, to, passes);
    }
  }

  /** Once a pass has failed, later passes add nothing. */
  lemma {:induction false} RunReadStops(song: seq<SS.Measure>, startFrom: int, from: int, to: int, k: nat, passes: nat)
    requires k <= passes && RunRead(song, startFrom, from, to, k).failure.Some?
    ensures RunRead(song, startFrom, from, to, passes) == RunRead(song, startFrom, from, to, k)
    decreases passes
  {
    if passes > k {
      RunReadStops(song, startFrom, from, to, k, passes - 1);
    }
  }

  lemma WrappedStep(events: seq<EngineEvent>, j: int)
    requires 0 <= j < |events|
    ensures Wrapped(events[..j + 1]) == Wrapped(events[..j]) + [Event(events[j])]
  {
    assert events[..j + 1][..j] == events[..j];
  }

  lemma PassQueuedStep(song: seq<SS.Measure>, first: int, cursor: int)
    requires 1 <= first <= cursor <= |song|
    ensures PassQueued(song, first, cursor) == PassQueued(song, first, cursor - 1) + MeasureQueued(song[cursor - 1], cursor)
  {
  }

  /** A real `minOf(maxOf(x, lo), hi)`. */
  function ClampReal(x: real, lo: real, hi: real): (r: real)
    ensures lo <= hi ==> lo <= r <= hi
    ensures lo <= x <= hi ==> r == x
    ensures x < lo && lo <= hi ==> r == lo
    ensures x > hi ==> r == hi
  {
    var atLeast := if x < lo then lo else x;
    if atLeast > hi then hi else atLeast
  }

  // ---------------------------------------------------------------------------
  // The objects the threads share
  // ---------------------------------------------------------------------------

  /** `PlayControl`: the current measure (1 at first) and whether the engine plays; the player's first listener. */
  class PlayControl {
    var currentMeasure: int
    var playing: bool

    constructor ()
      ensures currentMeasure == 1 && !playing
    {
      currentMeasure := 1;
      playing := false;
    }

    /** `play()`: only a change from stopped to playing wakes the threads waiting in `waitForPlay`. */
    method Play() returns (woken: bool)
      modifies this
      ensures playing && woken == !old(playing)
      ensures currentMeasure == old(currentMeasure)
    {
      var before := playing;
      playing := true;
      woken := !before;
    }

    method Stop()
      modifies this
      ensures !playing && currentMeasure == old(currentMeasure)
    {
      playing := false;
    }

    /** `setCurrentMeasure` stores the measure as given; the engine clamps it before. */
    method SetCurrentMeasure(measure: int)
      modifies this
      ensures currentMeasure == measure && playing == old(playing)
    {
      currentMeasure := measure;
    }

    /** The listener call for a measure marker. */
    method AtMeasureStart(measure: int)
      modifies this
      ensures currentMeasure == measure && playing == old(playing)
    {
      currentMeasure := measure;
    }
  }

  /** The `LinkedBlockingQueue` between the reader and the player. */
  class EventQueue {
    var events: seq<QueuedEvent>

    constructor ()
      ensures events == []
    {
      events := [];
    }

    method Put(event: QueuedEvent)
      modifies this
      ensures events == old(events) + [event]
    {
      events := events + [event];
    }

    /** `take()` of a queue that holds an event: the oldest one. */
    method Take() returns (event: QueuedEvent)
      requires events != []
      modifies this
      ensures event == old(events)[0] && events == old(events)[1..]
    {
      event := events[0];
      events := events[1..];
    }

    method Clear()
      modifies this
      ensures events == []
    {
      events := [];
    }
  }

  /** The engine's playback listeners, modelled by the log of what they were told. */
  class Listeners {
    var events: seq<LegacyPlaybackEvent>

    constructor ()
      ensures events == []
    {
      events := [];
    }

    method Notify(event: LegacyPlaybackEvent)
      modifies this
      ensures events == old(events) + [event]
    {
      events := events + [event];
    }
  }

  // ---------------------------------------------------------------------------
  // Reader
  // ---------------------------------------------------------------------------

  /** The reader thread: it puts the measures `from..to` of the song on the queue, pass after pass. */
  class Reader {
    const playControl: PlayControl
    var from: int
    var to: int
    const queue: EventQueue
    const song: seq<SS.Measure>

    constructor (playControl: PlayControl, from: int, to: int, queue: EventQueue, song: seq<SS.Measure>)
      ensures this.playControl == playControl && this.from == from && this.to == to
      ensures this.queue == queue && this.song == song
    {
      this.playControl := playControl;
      this.from := from;
      this.to := to;
      this.queue := queue;
      this.song := song;
    }

    /** One pass from `startFrom` to `to`: every measure's marker, then its events. */
    method ReadPass(startFrom: int) returns (failure: Option<Failure>)
      modifies queue
      ensures Read(queue.events, failure) == Read(old(queue.events) + PassRead(song, startFrom, to).queued,
                                                  PassRead(song, startFrom, to).failure)
    {
      var cursor := startFrom;
      assert PassQueued(song, startFrom, cursor - 1) == [];
      while cursor <= to
        invariant cursor == startFrom || (1 <= startFrom < cursor <= to + 1 && cursor - 1 <= |song|)
        invariant queue.events == old(queue.events) + PassQueued(song, startFrom, cursor - 1)
      {
        if cursor < 1 || cursor > |song| {
          return Some(IndexOutOfBounds);
        }
        PutMeasure(song[cursor - 1], cursor);
        PassQueuedStep(song, startFrom, cursor);
        cursor := cursor + 1;
      }
      return None;
    }

    /** `queue.put(MeasureEvent(measure.start, readerCursor))`, then every event of the measure. */
    method PutMeasure(measure: SS.Measure, cursor: int)
      modifies queue
      ensures queue.events == old(queue.events) + MeasureQueued(measure, cursor)
    {
      queue.Put(MeasureEvent(measure.start, cursor));
      for j := 0 to |measure.events|
        invariant queue.events == old(queue.events) + [MeasureEvent(measure.start, cursor)] + Wrapped(measure.events[..j])
      {
        WrappedStep(measure.events, j);
        queue.Put(Event(measure.events[j]));
      }
      assert measure.events[..|measure.events|] == measure.events;
    }

    /**
     * The reading loop of one play, `passes` passes long: it starts at the play control's current measure,
     * reads to `to`, and starts again from `from`; an index outside the song ends the thread.
     */
    method Run(passes: nat) returns (failure: Option<Failure>)
      modifies queue
      ensures Read(queue.events, failure)
           == Read(old(queue.events) + RunRead(song, old(playControl.currentMeasure), from, to, passes).queued,
                   RunRead(song, old(playControl.currentMeasure), from, to, passes).failure)
    {
      var startFrom := playControl.currentMeasure;
      ghost var first := startFrom;
      failure := None;
      var pass := 0;
      while pass < passes
        invariant 0 <= pass <= passes
        invariant Read(queue.events, failure) == Read(old(queue.events) + RunRead(song, first, from, to, pass).queued,
                                                     RunRead(song, first, from, to, pass).failure)
        invariant startFrom == if pass == 0 then first else from
      {
        if failure.Some? {
          RunReadStops(song, first, from, to, pass, passes);
          return;
        }
        failure := ReadPass(startFrom);
        startFrom := from;
        pass := pass + 1;
      }
    }

    /** An interrupt while reading: `queue.clear()`. */
    method Interrupted()
      modifies queue
      ensures queue.events == []
    {
      queue.Clear();
    }
  }

  // ---------------------------------------------------------------------------
  // Player
  // ---------------------------------------------------------------------------

  /**
   * The player thread: it takes the events off the queue, tells the listeners about tempo messages and
   * markers, and sends what is not muted to the port.
   */
  class Player {
    const playControl: PlayControl
    var tempoMultiplier: real
    const queue: EventQueue
    const port: MidiPort
    /** The engine's playback listeners, which its `tempoChanged` tells. */
    const listeners: Listeners
    var mutedTracks: set<EngineTrack>
    var tempo: Option<Tempo>

    constructor (playControl: PlayControl, tempoMultiplier: real, queue: EventQueue, port: MidiPort, listeners: Listeners)
      ensures this.playControl == playControl && this.tempoMultiplier == tempoMultiplier && this.queue == queue
      ensures this.port == port && this.listeners == listeners
      ensures mutedTracks == {} && tempo == None
    {
      this.playControl := playControl;
      this.tempoMultiplier := tempoMultiplier;
      this.queue := queue;
      this.port := port;
      this.listeners := listeners;
      mutedTracks := {};
      tempo := None;
    }

    method Mute(track: EngineTrack)
      modifies this
      ensures mutedTracks == old(mutedTracks) + {track}
      ensures tempo == old(tempo) && tempoMultiplier == old(tempoMultiplier)
    {
      mutedTracks := mutedTracks + {track};
    }

    method UnMute(track: EngineTrack)
      modifies this
      ensures mutedTracks == old(mutedTracks) - {track}
      ensures tempo == old(tempo) && tempoMultiplier == old(tempoMultiplier)
    {
      mutedTracks := mutedTracks - {track};
    }

    function CurrentAdjustedTempo(): Option<Tempo>
      reads this
    {
      Adjusted(tempo, tempoMultiplier)
    }

    /** The state a session changes, with the session's own `prevTicks` and deltas. */
    function Snapshot(prevTicks: Option<Tick>, deltas: seq<Tick>): Session
      reads this, playControl, port, listeners
    {
      Session(playControl.currentMeasure, tempo, port.sent, listeners.events, prevTicks, deltas)
    }

    /**
     * The listeners' `tempoChanged`: the play control's does nothing, the engine's broadcasts the tempo,
     * the multiplier and the adjusted tempo.
     */
    method TempoChanged()
      modifies listeners
      ensures listeners.events == old(listeners.events) + [LegacyPlaybackEvent.TempoEvent(tempo, tempoMultiplier, CurrentAdjustedTempo())]
    {
      listeners.Notify(LegacyPlaybackEvent.TempoEvent(tempo, tempoMultiplier, CurrentAdjustedTempo()));
    }

    /** One event taken off the queue: its delta, the listener calls, and the message sent, if any. */
    method HandleEvent(event: QueuedEvent, prevTicks: Option<Tick>, ghost deltas: seq<Tick>)
      returns (ticksDelta: Tick, midiMessage: Option<MidiMessage>)
      modifies this, playControl, port, listeners
      ensures Snapshot(Some(event.Ticks()), deltas + [ticksDelta])
           == Stepped(old(Snapshot(prevTicks, deltas)), event, mutedTracks, tempoMultiplier)
      ensures midiMessage == Outgoing(event, mutedTracks)
      ensures mutedTracks == old(mutedTracks) && tempoMultiplier == old(tempoMultiplier)
      ensures playControl.playing == old(playControl.playing)
    {
      var base := if prevTicks.Some? then prevTicks.value else event.Ticks();
      ticksDelta := event.Ticks().Minus(base);
      ghost var s0 := Snapshot(prevTicks, deltas).(deltas := deltas + [ticksDelta]);
      if event.Event? && event.event.MessageEvent? && MessageDecoder.MessageMetaType(event.event.message) == MessageDecoder.TempoMeta {
        tempo := Some(event.event.message.tempo);
        TempoChanged();
      } else if event.MeasureEvent? {
        playControl.AtMeasureStart(event.measure);
      }
      assert Snapshot(prevTicks, deltas + [ticksDelta]) == Noticed(s0, event, tempoMultiplier);
      match event {
        case Event(MessageEvent(m)) =>
          midiMessage := Some(MuteOrPass(mutedTracks, m));
        case Event(ClickEvent(t, click)) =>
          if ClickTrack !in mutedTracks {
            midiMessage := Some(NoteMessage(t, Note(On, 10, ClickPitch(click), 100)));
          } else {
            midiMessage := None;
          }
        case MeasureEvent(_, _) =>
          midiMessage := None;
      }
      if midiMessage.Some? {
        port.Send(midiMessage.value);
      }
    }

    /**
     * A playing session of `n` events: they leave the queue in order, and afterwards the current measure,
     * the tempo, the send log and the listeners' log are those of `Played`; `deltas` are the tick deltas
     * between events and `lastTicks` the ticks of the last event.
     */
    method PlaySession(n: nat) returns (deltas: seq<Tick>, lastTicks: Option<Tick>)
      requires n <= |queue.events|
      modifies this, playControl, port, listeners, queue
      ensures queue.events == old(queue.events[n..])
      ensures Snapshot(lastTicks, deltas) == Played(old(Snapshot(None, [])), old(queue.events[..n]), mutedTracks, tempoMultiplier)
      ensures mutedTracks == old(mutedTracks) && tempoMultiplier == old(tempoMultiplier)
      ensures playControl.playing == old(playControl.playing)
    {
      ghost var start := Snapshot(None, []);
      ghost var all := queue.events;
      ghost var taken := queue.events[..n];
      deltas := [];
      lastTicks := None;
      for i := 0 to n
        invariant queue.events == all[i..]
        invariant Snapshot(lastTicks, deltas) == Played(start, taken[..i], mutedTracks, tempoMultiplier)
        invariant mutedTracks == old(mutedTracks) && tempoMultiplier == old(tempoMultiplier)
        invariant playControl.playing == old(playControl.playing)
      {
        var event := queue.Take();
        assert event == taken[i];
        var delta, _ := HandleEvent(event, lastTicks, deltas);
        PlayedStep(start, taken, i, mutedTracks, tempoMultiplier);
        deltas := deltas + [delta];
        lastTicks := Some(event.Ticks());
      }
      assert taken[..n] == taken;
    }
  }

  // ---------------------------------------------------------------------------
  // PlayerEngine
  // ---------------------------------------------------------------------------

  /** The engine the user interface drives. */
  class PlayerEngine {
    const song: seq<SS.Measure>
    const playControl: PlayControl
    const player: Player
    const reader: Reader
    const playbackListeners: Listeners

    /** The threads share the play control and the queue, and the player tells the engine's listeners. */
    ghost predicate Valid() {
      && player.playControl == playControl && reader.playControl == playControl
      && reader.queue == player.queue && reader.song == song
      && player.listeners == playbackListeners
    }

    constructor (song: seq<SS.Measure>, playControl: PlayControl, player: Player, reader: Reader, playbackListeners: Listeners)
      ensures this.song == song && this.playControl == playControl && this.player == player && this.reader == reader
      ensures this.playbackListeners == playbackListeners
    {
      this.song := song;
      this.playControl := playControl;
      this.player := player;
      this.reader := reader;
      this.playbackListeners := playbackListeners;
    }

    function IsPlaying(): bool
      reads playControl
    {
      playControl.playing
    }

    function IsMuted(track: EngineTrack): bool
      reads player
    {
      track in player.mutedTracks
    }

    method Play()
      modifies playControl, playbackListeners
      ensures playControl.playing && playControl.currentMeasure == old(playControl.currentMeasure)
      ensures playbackListeners.events == old(playbackListeners.events) + [LegacyPlaybackEvent.PlayEvent(true)]
    {
      var _ := playControl.Play();
      playbackListeners.Notify(LegacyPlaybackEvent.PlayEvent(true));
    }

    /** Stops the engine, silences every channel, and tells the listeners; the interrupted reader clears the queue. */
    method SignalStop()
      requires Valid()
      modifies playControl, player.queue, player.port, playbackListeners
      ensures !playControl.playing && playControl.currentMeasure == old(playControl.currentMeasure)
      ensures player.queue.events == []
      ensures Engine.Panicked(old(player.port.sent), player.port.sent)
      ensures playbackListeners.events == old(playbackListeners.events) + [LegacyPlaybackEvent.PlayEvent(false)]
    {
      playControl.Stop();
      reader.Interrupted();
      player.port.Panic();
      playbackListeners.Notify(LegacyPlaybackEvent.PlayEvent(false));
    }

    /** `stop()` only stops a playing engine. */
    method Stop()
      requires Valid()
      modifies playControl, player.queue, player.port, playbackListeners
      ensures !playControl.playing && playControl.currentMeasure == old(playControl.currentMeasure)
      ensures old(playControl.playing) ==> player.queue.events == [] && Engine.Panicked(old(player.port.sent), player.port.sent)
      ensures old(playControl.playing) ==> playbackListeners.events == old(playbackListeners.events) + [LegacyPlaybackEvent.PlayEvent(false)]
      ensures !old(playControl.playing) ==> unchanged(player.queue, player.port, playbackListeners)
    {
      if playControl.playing {
        SignalStop();
      }
    }

    method Quit()
      requires Valid()
      modifies playControl, player.queue, player.port, playbackListeners
      ensures !playControl.playing && player.queue.events == []
      ensures playControl.currentMeasure == old(playControl.currentMeasure)
      ensures Engine.Panicked(old(player.port.sent), player.port.sent)
      ensures playbackListeners.events == old(playbackListeners.events) + [LegacyPlaybackEvent.PlayEvent(false)]
    {
      SignalStop();
    }

    method Mute(track: EngineTrack)
      modifies player, playbackListeners
      ensures player.mutedTracks == old(player.mutedTracks) + {track}
      ensures player.tempo == old(player.tempo) && player.tempoMultiplier == old(player.tempoMultiplier)
      ensures playbackListeners.events == old(playbackListeners.events) + [LegacyPlaybackEvent.MutePlaybackEvent(track, true)]
    {
      player.Mute(track);
      playbackListeners.Notify(LegacyPlaybackEvent.MutePlaybackEvent(track, true));
    }

    method UnMute(track: EngineTrack)
      modifies player, playbackListeners
      ensures player.mutedTracks == old(player.mutedTracks) - {track}
      ensures player.tempo == old(player.tempo) && player.tempoMultiplier == old(player.tempoMultiplier)
      ensures playbackListeners.events == old(playbackListeners.events) + [LegacyPlaybackEvent.MutePlaybackEvent(track, false)]
    {
      player.UnMute(track);
      playbackListeners.Notify(LegacyPlaybackEvent.MutePlaybackEvent(track, false));
    }

    /** The multiplier becomes `f(multiplier)` held to 0.1..3.0, and the listeners hear the new adjusted tempo. */
    method UpdateTempoMultiplier(f: real -> real)
      requires Valid()
      modifies player, playbackListeners
      ensures player.tempoMultiplier == ClampReal(f(old(player.tempoMultiplier)), 0.1, 3.0)
      ensures 0.1 <= player.tempoMultiplier <= 3.0
      ensures player.tempo == old(player.tempo) && player.mutedTracks == old(player.mutedTracks)
      ensures playbackListeners.events == old(playbackListeners.events)
              + [LegacyPlaybackEvent.TempoEvent(player.tempo, player.tempoMultiplier, Adjusted(player.tempo, player.tempoMultiplier))]
    {
      var m := f(player.tempoMultiplier);
      player.tempoMultiplier := if m < 0.1 then 0.1 else if m > 3.0 then 3.0 else m;
      player.TempoChanged();
    }

    /** Stop, move to `f(currentMeasure)` held to 1..size, play. */
    method JumpToBar(f: int -> int)
      requires Valid()
      modifies playControl, player.queue, player.port, playbackListeners
      ensures playControl.playing
      ensures playControl.currentMeasure == Engine.Clamp(f(old(playControl.currentMeasure)), 1, |song|)
      ensures |song| >= 1 ==> 1 <= playControl.currentMeasure <= |song|
      ensures playbackListeners.events == old(playbackListeners.events)
              + (if old(playControl.playing) then [LegacyPlaybackEvent.PlayEvent(false)] else [])
              + [LegacyPlaybackEvent.PlayEvent(true)]
      ensures old(playControl.playing) ==> player.queue.events == [] && Engine.Panicked(old(player.port.sent), player.port.sent)
      ensures !old(playControl.playing) ==> player.queue.events == old(player.queue.events)
                                            && player.port.sent == old(player.port.sent)
      ensures player.tempoMultiplier == old(player.tempoMultiplier) && player.mutedTracks == old(player.mutedTracks)
      ensures player.tempo == old(player.tempo)
    {
      Stop();
      var target := f(playControl.currentMeasure);
      var atLeast := if target < 1 then 1 else target;
      playControl.SetCurrentMeasure(if atLeast > |song| then |song| else atLeast);
      Play();
    }
  }

  /**
   * `createEngine`: the player starts with multiplier 1.0 and nothing muted, the reader loops over
   * `initialFrom ?: 1 .. initialTo ?: size` (neither is checked), and the play control starts at measure 1;
   * the engine is returned with the number of measures.
   */
  method CreateEngine(song: seq<SS.Measure>, port: MidiPort, initialFrom: Option<int>, initialTo: Option<int>)
    returns (engine: PlayerEngine, measures: int)
    ensures engine.Valid() && measures == |song| && engine.song == song && engine.player.port == port
    ensures engine.reader.from == initialFrom.GetOr(1) && engine.reader.to == initialTo.GetOr(|song|)
    ensures engine.playControl.currentMeasure == 1 && !engine.playControl.playing
    ensures engine.player.tempoMultiplier == 1.0 && engine.player.mutedTracks == {} && engine.player.tempo == None
    ensures engine.player.queue.events == [] && engine.playbackListeners.events == []
    ensures fresh(engine) && fresh(engine.playControl) && fresh(engine.player) && fresh(engine.reader)
    ensures fresh(engine.player.queue) && fresh(engine.playbackListeners)
  {
    var queue := new EventQueue();
    var playControl := new PlayControl();
    var listeners := new Listeners();
    var player := new Player(playControl, 1.0, queue, port, listeners);
    var from := if initialFrom.Some? then initialFrom.value else 1;
    var to := if initialTo.Some? then initialTo.value else |song|;
    var reader := new Reader(playControl, from, to, queue, song);
    engine := new PlayerEngine(song, playControl, player, reader, listeners);
    measures := |song|;
  }
}
