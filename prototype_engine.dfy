/**
 * The first playback engine (src/engine/kotlin/midituutti/engine/engine.kt): a reader thread hands the
 * events of the measures `measureCursor..to` over to a player thread, then starts again at `from`; the
 * player sleeps for each tick delta, consumes tempo messages, mutes notes of muted channels and clicks of a
 * muted click track, and sends the rest. There are no measure markers: the reader's cursor is the position.
 *
 * As for the later engine of the same shape, the two threads are methods that put, respectively take, a
 * given number of events, and the hand-off between them is a sequence.
 */
module PrototypeEngine {
  import opened Midi
  import opened Collections
  import opened Outcomes
  import opened EngineTypes
  import MessageDecoder
  import PS = PrototypeSongStructure
  import LE = LegacyEngine
  import Engine

  // ---------------------------------------------------------------------------
  // The outgoing message
  // ---------------------------------------------------------------------------

  /** `message.metaType() == MetaType.Tempo`. */
  predicate IsTempoMessage(m: MidiMessage) {
    MessageDecoder.MessageMetaType(m) == MessageDecoder.TempoMeta
  }

  /**
   * What the player sends for an event: nothing for a tempo message, any other message of the file through
   * `muteOrPass`, and the click note unless the click track is muted.
   */
  function Outgoing(event: EngineEvent, mutedTracks: set<EngineTrack>): (r: Option<MidiMessage>)
    ensures r.None? <==> (event.MessageEvent? && IsTempoMessage(event.message)) || (event.ClickEvent? && ClickTrack in mutedTracks)
    ensures r.Some? ==> r.value.ticks == event.Ticks()
    ensures r.Some? && event.ClickEvent? ==> r.value.NoteMessage? && r.value.note == ClickNote(event.click)
  {
    match event
    case MessageEvent(m) => if IsTempoMessage(m) then None else Some(LE.MuteOrPass(mutedTracks, m))
    case ClickEvent(t, click) => if ClickTrack !in mutedTracks then Some(NoteMessage(t, ClickNote(click))) else None
  }

  // ---------------------------------------------------------------------------
  // One playing session of the player thread
  // ---------------------------------------------------------------------------

  /**
   * What a playing session changes: the player's tempo, the port's send log, the playback listeners' log,
   * the ticks of the last event and the tick deltas between events.
   */
  datatype Session = Session(tempo: Option<Tempo>, sent: seq<Sent>, broadcast: seq<LE.LegacyPlaybackEvent>,
                             prevTicks: Option<Tick>, deltas: seq<Tick>)

  /** The delta, then a tempo message sets the tempo and is broadcast, anything else may be sent; then `prevTicks`. */
  function Stepped(s: Session, event: EngineEvent, mutedTracks: set<EngineTrack>, multiplier: real): (r: Session)
    ensures r.deltas == s.deltas + [LE.TicksDelta(s.prevTicks, event.Ticks())]
    ensures r.prevTicks == Some(event.Ticks())
    ensures r.sent == s.sent + (if Outgoing(event, mutedTracks).Some? then [SentMessage(Outgoing(event, mutedTracks).value)] else [])
    ensures event.MessageEvent? && IsTempoMessage(event.message) ==>
              r.tempo == Some(event.message.tempo) && |r.broadcast| == |s.broadcast| + 1 && r.sent == s.sent
    ensures !(event.MessageEvent? && IsTempoMessage(event.message)) ==> r.tempo == s.tempo && r.broadcast == s.broadcast
  {
    var d := s.(deltas := s.deltas + [LE.TicksDelta(s.prevTicks, event.Ticks())]);
    var n := if event.MessageEvent? && IsTempoMessage(event.message) then
        var t := Some(event.message.tempo);
        d.(tempo := t, broadcast := d.broadcast + [LE.LegacyPlaybackEvent.TempoEvent(t, multiplier, LE.Adjusted(t, multiplier))])
      else d;
    var out := Outgoing(event, mutedTracks);
    n.(sent := if out.Some? then n.sent + [SentMessage(out.value)] else n.sent, prevTicks := Some(event.Ticks()))
  }

  function Played(s: Session, events: seq<EngineEvent>, mutedTracks: set<EngineTrack>, multiplier: real): Session {
    if events == [] then s
    else Stepped(Played(s, events[..|events| - 1], mutedTracks, multiplier), events[|events| - 1], mutedTracks, multiplier)
  }

  lemma PlayedStep(s: Session, events: seq<EngineEvent>, i: int, mutedTracks: set<EngineTrack>, multiplier: real)
    requires 0 <= i < |events|
    ensures Played(s, events[..i + 1], mutedTracks, multiplier)
         == Stepped(Played(s, events[..i], mutedTracks, multiplier), events[i], mutedTracks, multiplier)
  {
    assert events[..i + 1][..i] == events[..i];
  }

  /** The deltas: one per event, the first of a session 0, every other the distance from the previous event. */
  lemma {:induction false} PlayedDeltas(s: Session, events: seq<EngineEvent>, mutedTracks: set<EngineTrack>, multiplier: real)
    ensures var r := Played(s, events, mutedTracks, multiplier);
      && |r.deltas| == |s.deltas| + |events| && r.deltas[..|s.deltas|] == s.deltas
      && (events != [] ==> r.prevTicks == Some(events[|events| - 1].Ticks()))
      && (forall i :: 0 < i < |events| ==> r.deltas[|s.deltas| + i] == events[i].Ticks().Minus(events[i - 1].Ticks()))
      && (events != [] && s.prevTicks == None ==> r.deltas[|s.deltas|] == Tick(0))
  {
    if events != [] {
      var init := events[..|events| - 1];
      var p := Played(s, init, mutedTracks, multiplier);
      var r := Played(s, events, mutedTracks, multiplier);
      PlayedDeltas(s, init, mutedTracks, multiplier);
      assert r.deltas == p.deltas + [LE.TicksDelta(p.prevTicks, events[|events| - 1].Ticks())];
      forall i | 0 < i < |events|
        ensures r.deltas[|s.deltas| + i] == events[i].Ticks().Minus(events[i - 1].Ticks())
      {
        assert events[i - 1] == init[i - 1];
        if i < |init| {
          assert events[i] == init[i];
        }
      }
      if init != [] {
        assert events[0] == init[0];
      }
    }
  }

  /** No tempo message in the send log. */
  ghost predicate NoTempoSent(sent: seq<Sent>) {
    forall i :: 0 <= i < |sent| && sent[i].SentMessage? ==> !sent[i].message.TempoMessage?
  }

  /** Tempo messages are consumed, not forwarded: a session sends none. */
  lemma {:induction false} PlayedSendsNoTempo(s: Session, events: seq<EngineEvent>, mutedTracks: set<EngineTrack>,
                                              multiplier: real)
    requires NoTempoSent(s.sent)
    ensures NoTempoSent(Played(s, events, mutedTracks, multiplier).sent)
  {
    if events != [] {
      var init := events[..|events| - 1];
      var last := events[|events| - 1];
      var p := Played(s, init, mutedTracks, multiplier);
      var r := Played(s, events, mutedTracks, multiplier);
      assert r == Stepped(p, last, mutedTracks, multiplier);
      PlayedSendsNoTempo(s, init, mutedTracks, multiplier);
      var out := Outgoing(last, mutedTracks);
      assert r.sent == if out.Some? then p.sent + [SentMessage(out.value)] else p.sent;
      assert out.Some? ==> !out.value.TempoMessage?;
      forall i | 0 <= i < |r.sent| && r.sent[i].SentMessage?
        ensures !r.sent[i].message.TempoMessage?
      {
        if i < |p.sent| {
          assert r.sent[i] == p.sent[i];
        }
      }
    }
  }

  /** The tempo after a step, and the last broadcast when the step was a tempo message. */
  lemma TempoStep(p: Session, event: EngineEvent, mutedTracks: set<EngineTrack>, multiplier: real)
    ensures var r := Stepped(p, event, mutedTracks, multiplier);
      && (Engine.IsTempoEvent(event) ==>
            && r.tempo == Some(event.message.tempo)
            && r.broadcast == p.broadcast + [LE.LegacyPlaybackEvent.TempoEvent(r.tempo, multiplier, LE.Adjusted(r.tempo, multiplier))])
      && (!Engine.IsTempoEvent(event) ==> r.tempo == p.tempo && r.broadcast == p.broadcast)
  {
  }

  /** The current tempo and the listeners' last tempo event, for a session and the state it starts from. */
  ghost predicate TempoHeard(r: Session, multiplier: real) {
    r.broadcast != []
    && r.broadcast[|r.broadcast| - 1] == LE.LegacyPlaybackEvent.TempoEvent(r.tempo, multiplier, LE.Adjusted(r.tempo, multiplier))
  }

  /**
   * After a session the tempo is that of the last tempo message, which is also what the listeners heard
   * last; without a tempo message the tempo is unchanged.
   */
  lemma {:induction false} PlayedTempo(s: Session, events: seq<EngineEvent>, mutedTracks: set<EngineTrack>, multiplier: real)
    ensures Engine.NoTempo(events) ==> Played(s, events, mutedTracks, multiplier).tempo == s.tempo
    ensures forall i :: Engine.LastTempoAt(events, i) ==>
      Played(s, events, mutedTracks, multiplier).tempo == Some(events[i].message.tempo)
      && TempoHeard(Played(s, events, mutedTracks, multiplier), multiplier)
  {
    if events != [] {
      var init := events[..|events| - 1];
      var last := events[|events| - 1];
      var p := Played(s, init, mutedTracks, multiplier);
      var r := Played(s, events, mutedTracks, multiplier);
      assert r == Stepped(p, last, mutedTracks, multiplier);
      TempoStep(p, last, mutedTracks, multiplier);
      if Engine.IsTempoEvent(last) {
        assert !Engine.NoTempo(events);
        assert TempoHeard(r, multiplier);
        forall i | Engine.LastTempoAt(events, i)
          ensures r.tempo == Some(events[i].message.tempo)
        {
          assert i == |events| - 1;
        }
      } else {
        PlayedTempo(s, init, mutedTracks, multiplier);
        forall i | Engine.LastTempoAt(events, i)
          ensures r.tempo == Some(events[i].message.tempo) && TempoHeard(r, multiplier)
        {
          Engine.LastTempoInit(events, i);
          assert init[i] == events[i];
        }
        Engine.LastTempoInit(events, 0);
      }
    }
  }

  /** What the events sound like with nothing muted: every message of the file but the tempo messages, and every click. */
  function Sounding(events: seq<EngineEvent>): seq<Sent> {
    if events == [] then []
    else
      var e := events[|events| - 1];
      Sounding(events[..|events| - 1])
      + match e
        case MessageEvent(m) => if m.TempoMessage? then [] else [SentMessage(m)]
        case ClickEvent(t, click) => [SentMessage(NoteMessage(t, ClickNote(click)))]
  }

  /** With no track muted the port receives every message but the tempo messages unchanged, and every click. */
  lemma {:induction false} PlayedUnmuted(s: Session, events: seq<EngineEvent>, multiplier: real)
    ensures Played(s, events, {}, multiplier).sent == s.sent + Sounding(events)
  {
    if events != [] {
      var init := events[..|events| - 1];
      PlayedUnmuted(s, init, multiplier);
      var p := Played(s, init, {}, multiplier);
      assert Played(s, events, {}, multiplier) == Stepped(p, events[|events| - 1], {}, multiplier);
    }
  }

  /** A muted channel sounds nothing of the file; only the click track mutes the clicks. */
  lemma {:induction false} PlayedMuted(s: Session, events: seq<EngineEvent>, mutedTracks: set<EngineTrack>, multiplier: real)
    requires LE.Silenced(s.sent, mutedTracks)
    ensures LE.Silenced(Played(s, events, mutedTracks, multiplier).sent, mutedTracks)
  {
    if events != [] {
      var init := events[..|events| - 1];
      var last := events[|events| - 1];
      PlayedMuted(s, init, mutedTracks, multiplier);
      var p := Played(s, init, mutedTracks, multiplier);
      var r := Played(s, events, mutedTracks, multiplier);
      assert r == Stepped(p, last, mutedTracks, multiplier);
      var out := Outgoing(last, mutedTracks);
      assert r.sent == if out.Some? then p.sent + [SentMessage(out.value)] else p.sent;
      if out.Some? && out.value.NoteMessage? && MidiTrack(out.value.note.channel) in mutedTracks {
        assert out.value.note.velocity == 0 || (ClickTrack !in mutedTracks && LE.IsClick(out.value.note));
      }
      assert LE.Silenced(r.sent, mutedTracks) by {
        forall i | 0 <= i < |r.sent| && r.sent[i].SentMessage? && r.sent[i].message.NoteMessage?
                   && MidiTrack(r.sent[i].message.note.channel) in mutedTracks
          ensures r.sent[i].message.note.velocity == 0 || (ClickTrack !in mutedTracks && LE.IsClick(r.sent[i].message.note))
        {
          if i < |p.sent| {
            assert r.sent[i] == p.sent[i];
          }
        }
      }
    }
  }

  // ---------------------------------------------------------------------------
  // What the reader hands over
  // ---------------------------------------------------------------------------

  /** One outcome of the reader: the events handed over, the exception that ended it if any, and `measureCursor`. */
  datatype Read = Read(queued: seq<EngineEvent>, failure: Option<Failure>, cursor: int)

  /**
   * One pass `for (readerCursor in startFrom..to)`: the cursor follows the measure being read and is reset to
   * `from` after the last; a cursor outside the song ends the thread with the cursor left on it.
   */
  function PassRead(song: seq<PS.Measure>, startFrom: int, from: int, to: int): (r: Read)
    ensures r.failure.None? <==> startFrom > to || (1 <= startFrom && to <= |song|)
    ensures r.failure.None? ==> r.cursor == from
    ensures r.failure.Some? ==> r.failure == Some(IndexOutOfBounds) && (r.cursor < 1 || r.cursor > |song|)
  {
    if startFrom > to then Read([], None, from)
    else if 1 <= startFrom && to <= |song| then Read(PS.MeasureEvents(song[startFrom - 1 .. to]), None, from)
    else if startFrom < 1 || startFrom > |song| then Read([], Some(IndexOutOfBounds), startFrom)
    else Read(PS.MeasureEvents(song[startFrom - 1 ..]), Some(IndexOutOfBounds), |song| + 1)
  }

  /** `passes` passes, each from the cursor the previous one left; a failure ends them. */
  function RunRead(song: seq<PS.Measure>, startFrom: int, from: int, to: int, passes: nat): Read {
    if passes == 0 then Read([], None, startFrom)
    else
      var r := RunRead(song, startFrom, from, to, passes - 1);
      if r.failure.Some? then r
      else
        var p := PassRead(song, r.cursor, from, to);
        Read(r.queued + p.queued, p.failure, p.cursor)
  }

  function Repeated(s: seq<EngineEvent>, times: nat): seq<EngineEvent> {
    if times == 0 then [] else Repeated(s, times - 1) + s
  }

  /**
   * With the first cursor and the loop range inside the song the reader never fails: it hands over the
   * measures `startFrom..to`, then `from..to` on every later pass, and leaves the cursor at `from`.
   */
  lemma {:induction false} RunReadEvents(song: seq<PS.Measure>, startFrom: int, from: int, to: int, passes: nat)
    requires 1 <= startFrom <= to + 1 && 1 <= from <= to + 1 && to <= |song| && passes >= 1
    ensures RunRead(song, startFrom, from, to, passes).failure.None?
    ensures RunRead(song, startFrom, from, to, passes).cursor == from
    ensures RunRead(song, startFrom, from, to, passes).queued
         == PS.MeasureEvents(song[startFrom - 1 .. to]) + Repeated(PS.MeasureEvents(song[from - 1 .. to]), passes - 1)
  {
    var r := RunRead(song, startFrom, from, to, passes - 1);
    var first := PS.MeasureEvents(song[startFrom - 1 .. to]);
    if passes == 1 {
      assert r == Read([], None, startFrom);
      PassReadInside(song, startFrom, from, to);
      RunReadStep(song, startFrom, from, to, 0, r, [] + first, [], first, None, from);
      assert [] + first == first + Repeated(PS.MeasureEvents(song[from - 1 .. to]), 0);
    } else {
      RunReadEvents(song, startFrom, from, to, passes - 1);
      var again := PS.MeasureEvents(song[from - 1 .. to]);
      PassReadInside(song, from, from, to);
      RunReadStep(song, startFrom, from, to, passes - 1, r, r.queued + again, r.queued, again, None, from);
      var earlier := Repeated(again, passes - 2);
      assert Repeated(again, passes - 1) == earlier + again;
      AppendAssoc(first, earlier, again);
      assert RunRead(song, startFrom, from, to, passes).queued == (first + earlier) + again;
    }
  }

  /** Once a pass has failed, later passes hand over nothing and leave the cursor. */
  lemma {:induction false} RunReadStops(song: seq<PS.Measure>, startFrom: int, from: int, to: int, k: nat, passes: nat)
    requires k <= passes && RunRead(song, startFrom, from, to, k).failure.Some?
    ensures RunRead(song, startFrom, from, to, passes) == RunRead(song, startFrom, from, to, k)
    decreases passes
  {
    if passes > k {
      RunReadStops(song, startFrom, from, to, k, passes - 1);
    }
  }

  /** A pass that starts inside the song, at most one past `to`, reads `startFrom..to` and does not fail. */
  lemma PassReadInside(song: seq<PS.Measure>, startFrom: int, from: int, to: int)
    requires 1 <= startFrom <= to + 1 && to <= |song|
    ensures PassRead(song, startFrom, from, to) == Read(PS.MeasureEvents(song[startFrom - 1 .. to]), None, from)
  {
    if startFrom > to {
      assert song[startFrom - 1 .. to] == [];
    }
  }

  /** One more pass after a `RunRead` that has not failed appends what that pass reads. */
  lemma RunReadStep(song: seq<PS.Measure>, startFrom: int, from: int, to: int, k: nat, r: Read,
                    queued: seq<EngineEvent>, earlier: seq<EngineEvent>, later: seq<EngineEvent>,
                    failure: Option<Failure>, cursor: int)
    requires r == RunRead(song, startFrom, from, to, k) && r.failure.None?
    requires Read(earlier, None, r.cursor) == r
    requires Read(later, failure, cursor) == PassRead(song, r.cursor, from, to)
    requires queued == earlier + later
    ensures Read(queued, failure, cursor) == RunRead(song, startFrom, from, to, k + 1)
  {
  }

  lemma MeasureEventsSlice(song: seq<PS.Measure>, first: int, last: int)
    requires 1 <= first <= last <= |song|
    ensures PS.MeasureEvents(song[first - 1 .. last]) == PS.MeasureEvents(song[first - 1 .. last - 1]) + song[last - 1].events
  {
    var slice := song[first - 1 .. last];
    assert slice[..|slice| - 1] == song[first - 1 .. last - 1];
  }

  // ---------------------------------------------------------------------------
  // The objects the threads share
  // ---------------------------------------------------------------------------

  /** `PlayControl`: only whether the engine plays. */
  class PlayControl {
    var playing: bool

    constructor ()
      ensures !playing
    {
      playing := false;
    }

    /** `play()`: only a change from stopped to playing wakes the threads waiting in `waitForPlay`. */
    method Play() returns (woken: bool)
      modifies this
      ensures playing && woken == !old(playing)
    {
      var before := playing;
      playing := true;
      woken := !before;
    }

    method Stop()
      modifies this
      ensures !playing
    {
      playing := false;
    }
  }

  /** The `SynchronousQueue` between reader and player, as the events handed over and not yet taken. */
  class HandOff {
    var events: seq<EngineEvent>

    constructor ()
      ensures events == []
    {
      events := [];
    }

    method Put(event: EngineEvent)
      modifies this
      ensures events == old(events) + [event]
    {
      events := events + [event];
    }

    method Take() returns (event: EngineEvent)
      requires events != []
      modifies this
      ensures event == old(events)[0] && events == old(events)[1..]
    {
      event := events[0];
      events := events[1..];
    }
  }

  // ---------------------------------------------------------------------------
  // Reader
  // ---------------------------------------------------------------------------

  class Reader {
    const playControl: PlayControl
    var measureCursor: int
    var from: int
    var to: int
    const queue: HandOff
    const song: seq<PS.Measure>

    constructor (playControl: PlayControl, measureCursor: int, from: int, to: int, queue: HandOff, song: seq<PS.Measure>)
      ensures this.playControl == playControl && this.measureCursor == measureCursor
      ensures this.from == from && this.to == to && this.queue == queue && this.song == song
    {
      this.playControl := playControl;
      this.measureCursor := measureCursor;
      this.from := from;
      this.to := to;
      this.queue := queue;
      this.song := song;
    }

    /** One pass from `measureCursor` to `to`, moving the cursor along, then back to `from`. */
    method ReadPass() returns (failure: Option<Failure>)
      modifies this, queue
      ensures |old(queue.events)| <= |queue.events| && queue.events[..|old(queue.events)|] == old(queue.events)
      ensures Read(queue.events[|old(queue.events)|..], failure, measureCursor) == PassRead(song, old(measureCursor), from, to)
      ensures from == old(from) && to == old(to)
    {
      var startFrom := measureCursor;
      var readerCursor := startFrom;
      while readerCursor <= to
        invariant readerCursor == startFrom || (1 <= startFrom < readerCursor <= to + 1 && readerCursor - 1 <= |song|)
        invariant readerCursor > startFrom ==> measureCursor == readerCursor - 1
        invariant readerCursor == startFrom ==> queue.events == old(queue.events)
        invariant readerCursor > startFrom ==>
          queue.events == old(queue.events) + PS.MeasureEvents(song[startFrom - 1 .. readerCursor - 1])
        invariant from == old(from) && to == old(to)
      {
        measureCursor := readerCursor;
        if readerCursor < 1 || readerCursor > |song| {
          failure := Some(IndexOutOfBounds);
          if readerCursor == startFrom {
            assert queue.events[|old(queue.events)|..] == [];
          } else {
            assert song[startFrom - 1 .. readerCursor - 1] == song[startFrom - 1 ..];
          }
          return;
        }
        ghost var before := queue.events;
        PutMeasure(song[readerCursor - 1]);
        if readerCursor == startFrom {
          assert song[startFrom - 1 .. readerCursor] == [song[readerCursor - 1]];
          assert PS.MeasureEvents([song[readerCursor - 1]]) == song[readerCursor - 1].events by {
            assert [song[readerCursor - 1]][..0] == [];
          }
        } else {
          MeasureEventsSlice(song, startFrom, readerCursor);
        }
        readerCursor := readerCursor + 1;
      }
      measureCursor := from;
      failure := None;
      if readerCursor == startFrom {
        assert queue.events[|old(queue.events)|..] == [];
      }
    }

    /** `for (event in measure.events) queue.put(event)`. */
    method PutMeasure(measure: PS.Measure)
      modifies queue
      ensures queue.events == old(queue.events) + measure.events
    {
      for j := 0 to |measure.events|
        invariant queue.events == old(queue.events) + measure.events[..j]
      {
        assert measure.events[..j + 1] == measure.events[..j] + [measure.events[j]];
        queue.Put(measure.events[j]);
      }
    }

    /** The reading loop of one play, `passes` passes long; an index outside the song ends the thread. */
    method Run(passes: nat) returns (failure: Option<Failure>)
      modifies this, queue
      ensures |old(queue.events)| <= |queue.events| && queue.events[..|old(queue.events)|] == old(queue.events)
      ensures Read(queue.events[|old(queue.events)|..], failure, measureCursor)
           == RunRead(song, old(measureCursor), from, to, passes)
      ensures from == old(from) && to == old(to)
    {
      ghost var first := measureCursor;
      ghost var all := queue.events;
      failure := None;
      var pass := 0;
      while pass < passes
        invariant 0 <= pass <= passes
        invariant from == old(from) && to == old(to)
        invariant |all| <= |queue.events| && queue.events[..|all|] == all
        invariant Read(queue.events[|all|..], failure, measureCursor) == RunRead(song, first, from, to, pass)
      {
        if failure.Some? {
          RunReadStops(song, first, from, to, pass, passes);
          return;
        }
        ghost var r := RunRead(song, first, from, to, pass);
        ghost var before := queue.events;
        failure := ReadPass();
        ExtendedTwice(all, before, queue.events);
        RunReadStep(song, first, from, to, pass, r, queue.events[|all|..], before[|all|..], queue.events[|before|..], failure, measureCursor);
        pass := pass + 1;
      }
    }
  }

  // ---------------------------------------------------------------------------
  // Player
  // ---------------------------------------------------------------------------

  class Player {
    const playControl: PlayControl
    var tempoMultiplier: real
    const queue: HandOff
    const port: MidiPort
    /** The engine's playback listeners, which its `tempoChanged` tells. */
    const listeners: LE.Listeners
    var mutedTracks: set<EngineTrack>
    var tempo: Option<Tempo>

    constructor (playControl: PlayControl, tempoMultiplier: real, queue: HandOff, port: MidiPort, listeners: LE.Listeners)
      ensures this.playControl == playControl && this.tempoMultiplier == tempoMultiplier && this.queue == queue
      ensures this.port == port && this.listeners == listeners
      ensures mutedTracks == {} && tempo == None
    {
      this.playControl := playControl;
      this.tempoMultiplier := tempoMultiplier;
      this.queue := queue;
      this.port := port;
      this.listeners := listeners;
      mutedTracks := {};
      tempo := None;
    }

    method Mute(track: EngineTrack)
      modifies this
      ensures mutedTracks == old(mutedTracks) + {track}
      ensures tempo == old(tempo) && tempoMultiplier == old(tempoMultiplier)
    {
      mutedTracks := mutedTracks + {track};
    }

    method UnMute(track: EngineTrack)
      modifies this
      ensures mutedTracks == old(mutedTracks) - {track}
      ensures tempo == old(tempo) && tempoMultiplier == old(tempoMultiplier)
    {
      mutedTracks := mutedTracks - {track};
    }

    function CurrentAdjustedTempo(): Option<Tempo>
      reads this
    {
      LE.Adjusted(tempo, tempoMultiplier)
    }

    function Snapshot(prevTicks: Option<Tick>, deltas: seq<Tick>): Session
      reads this, port, listeners
    {
      Session(tempo, port.sent, listeners.events, prevTicks, deltas)
    }

    /** The engine's `tempoChanged`: it broadcasts the tempo, the multiplier and the adjusted tempo. */
    method TempoChanged()
      modifies listeners
      ensures listeners.events == old(listeners.events) + [LE.LegacyPlaybackEvent.TempoEvent(tempo, tempoMultiplier, CurrentAdjustedTempo())]
    {
      listeners.Notify(LE.LegacyPlaybackEvent.TempoEvent(tempo, tempoMultiplier, CurrentAdjustedTempo()));
    }

    /** One event taken from the reader: its delta, then the tempo or the message sent. */
    method HandleEvent(event: EngineEvent, prevTicks: Option<Tick>, ghost deltas: seq<Tick>) returns (ticksDelta: Tick)
      modifies this, port, listeners
      ensures Snapshot(Some(event.Ticks()), deltas + [ticksDelta])
           == Stepped(old(Snapshot(prevTicks, deltas)), event, mutedTracks, tempoMultiplier)
      ensures mutedTracks == old(mutedTracks) && tempoMultiplier == old(tempoMultiplier)
    {
      var base := if prevTicks.Some? then prevTicks.value else event.Ticks();
      ticksDelta := event.Ticks().Minus(base);
      match event {
        case MessageEvent(m) =>
          if MessageDecoder.MessageMetaType(m) == MessageDecoder.TempoMeta {
            tempo := Some(m.tempo);
            TempoChanged();
          } else {
            port.Send(LE.MuteOrPass(mutedTracks, m));
          }
        case ClickEvent(t, click) =>
          if ClickTrack !in mutedTracks {
            port.Send(NoteMessage(t, Note(On, 10, ClickPitch(click), 100)));
          }
      }
    }

    /** A playing session of `n` events, taken from the reader in order. */
    method PlaySession(n: nat) returns (deltas: seq<Tick>, lastTicks: Option<Tick>)
      requires n <= |queue.events|
      modifies this, port, listeners, queue
      ensures queue.events == old(queue.events[n..])
      ensures Snapshot(lastTicks, deltas) == Played(old(Snapshot(None, [])), old(queue.events[..n]), mutedTracks, tempoMultiplier)
      ensures mutedTracks == old(mutedTracks) && tempoMultiplier == old(tempoMultiplier)
    {
      ghost var start := Snapshot(None, []);
      ghost var all := queue.events;
      ghost var taken := queue.events[..n];
      deltas := [];
      lastTicks := None;
      for i := 0 to n
        invariant queue.events == all[i..]
        invariant Snapshot(lastTicks, deltas) == Played(start, taken[..i], mutedTracks, tempoMultiplier)
        invariant mutedTracks == old(mutedTracks) && tempoMultiplier == old(tempoMultiplier)
      {
        var event := queue.Take();
        assert event == taken[i];
        var delta := HandleEvent(event, lastTicks, deltas);
        PlayedStep(start, taken, i, mutedTracks, tempoMultiplier);
        deltas := deltas + [delta];
        lastTicks := Some(event.Ticks());
      }
      assert taken[..n] == taken;
    }
  }

  // ---------------------------------------------------------------------------
  // PlayerEngine
  // ---------------------------------------------------------------------------

  class PlayerEngine {
    const song: seq<PS.Measure>
    const playControl: PlayControl
    const player: Player
    const reader: Reader
    const playbackListeners: LE.Listeners

    ghost predicate Valid() {
      && player.playControl == playControl && reader.playControl == playControl
      && reader.queue == player.queue && reader.song == song
      && player.listeners == playbackListeners
    }

    constructor (song: seq<PS.Measure>, playControl: PlayControl, player: Player, reader: Reader, playbackListeners: LE.Listeners)
      ensures this.song == song && this.playControl == playControl && this.player == player && this.reader == reader
      ensures this.playbackListeners == playbackListeners
    {
      this.song := song;
      this.playControl := playControl;
      this.player := player;
      this.reader := reader;
      this.playbackListeners := playbackListeners;
    }

    function IsPlaying(): bool
      reads playControl
    {
      playControl.playing
    }

    function IsMuted(track: EngineTrack): bool
      reads player
    {
      track in player.mutedTracks
    }

    method Play()
      modifies playControl, playbackListeners
      ensures playControl.playing
      ensures playbackListeners.events == old(playbackListeners.events) + [LE.LegacyPlaybackEvent.PlayEvent(true)]
    {
      var _ := playControl.Play();
      playbackListeners.Notify(LE.LegacyPlaybackEvent.PlayEvent(true));
    }

    /** Stops the engine, silences every channel and tells the listeners; the reader's cursor stays where it was. */
    method SignalStop()
      modifies playControl, player.port, playbackListeners
      ensures !playControl.playing
      ensures Engine.Panicked(old(player.port.sent), player.port.sent)
      ensures playbackListeners.events == old(playbackListeners.events) + [LE.LegacyPlaybackEvent.PlayEvent(false)]
    {
      playControl.Stop();
      player.port.Panic();
      playbackListeners.Notify(LE.LegacyPlaybackEvent.PlayEvent(false));
    }

    method Stop()
      modifies playControl, player.port, playbackListeners
      ensures !playControl.playing
      ensures old(playControl.playing) ==> Engine.Panicked(old(player.port.sent), player.port.sent)
      ensures old(playControl.playing) ==> playbackListeners.events == old(playbackListeners.events) + [LE.LegacyPlaybackEvent.PlayEvent(false)]
      ensures !old(playControl.playing) ==> unchanged(player.port, playbackListeners)
    {
      if playControl.playing {
        SignalStop();
      }
    }

    method Quit()
      modifies playControl, player.port, playbackListeners
      ensures !playControl.playing
      ensures Engine.Panicked(old(player.port.sent), player.port.sent)
      ensures playbackListeners.events == old(playbackListeners.events) + [LE.LegacyPlaybackEvent.PlayEvent(false)]
    {
      SignalStop();
    }

    method Mute(track: EngineTrack)
      modifies player, playbackListeners
      ensures player.mutedTracks == old(player.mutedTracks) + {track}
      ensures playbackListeners.events == old(playbackListeners.events) + [LE.LegacyPlaybackEvent.MutePlaybackEvent(track, true)]
    {
      player.Mute(track);
      playbackListeners.Notify(LE.LegacyPlaybackEvent.MutePlaybackEvent(track, true));
    }

    method UnMute(track: EngineTrack)
      modifies player, playbackListeners
      ensures player.mutedTracks == old(player.mutedTracks) - {track}
      ensures playbackListeners.events == old(playbackListeners.events) + [LE.LegacyPlaybackEvent.MutePlaybackEvent(track, false)]
    {
      player.UnMute(track);
      playbackListeners.Notify(LE.LegacyPlaybackEvent.MutePlaybackEvent(track, false));
    }

    /** The multiplier becomes `f(multiplier)` held to 0.1..3.0, and the listeners hear the new adjusted tempo. */
    method UpdateTempoMultiplier(f: real -> real)
      requires Valid()
      modifies player, playbackListeners
      ensures player.tempoMultiplier == LE.ClampReal(f(old(player.tempoMultiplier)), 0.1, 3.0)
      ensures 0.1 <= player.tempoMultiplier <= 3.0
      ensures player.tempo == old(player.tempo) && player.mutedTracks == old(player.mutedTracks)
      ensures playbackListeners.events == old(playbackListeners.events)
              + [LE.LegacyPlaybackEvent.TempoEvent(player.tempo, player.tempoMultiplier, LE.Adjusted(player.tempo, player.tempoMultiplier))]
    {
      var m := f(player.tempoMultiplier);
      player.tempoMultiplier := if m < 0.1 then 0.1 else if m > 3.0 then 3.0 else m;
      player.TempoChanged();
    }

    /** Stop, move the reader's cursor to `f(measureCursor)` held to 1..size, play. */
    method JumpToBar(f: int -> int)
      modifies playControl, player.port, playbackListeners, reader
      ensures playControl.playing
      ensures reader.measureCursor == Engine.Clamp(f(old(reader.measureCursor)), 1, |song|)
      ensures |song| >= 1 ==> 1 <= reader.measureCursor <= |song|
      ensures reader.from == old(reader.from) && reader.to == old(reader.to)
      ensures playbackListeners.events == old(playbackListeners.events)
              + (if old(playControl.playing) then [LE.LegacyPlaybackEvent.PlayEvent(false)] else [])
              + [LE.LegacyPlaybackEvent.PlayEvent(true)]
      ensures old(playControl.playing) ==> Engine.Panicked(old(player.port.sent), player.port.sent)
      ensures !old(playControl.playing) ==> player.port.sent == old(player.port.sent)
      ensures player.tempoMultiplier == old(player.tempoMultiplier) && player.mutedTracks == old(player.mutedTracks)
    {
      Stop();
      var target := f(reader.measureCursor);
      var atLeast := if target < 1 then 1 else target;
      reader.measureCursor := if atLeast > |song| then |song| else atLeast;
      Play();
    }
  }

  /**
   * `createEngine`: the player starts with multiplier 1.0 and nothing muted; the reader's cursor and `from`
   * are both `initialFrom ?: 1`, and `to` is `initialTo ?: size` (none is checked).
   */
  method CreateEngine(song: seq<PS.Measure>, port: MidiPort, initialFrom: Option<int>, initialTo: Option<int>)
    returns (engine: PlayerEngine, measures: int)
    ensures engine.Valid() && measures == |song| && engine.song == song && engine.player.port == port
    ensures engine.reader.measureCursor == initialFrom.GetOr(1) && engine.reader.from == initialFrom.GetOr(1)
    ensures engine.reader.to == initialTo.GetOr(|song|)
    ensures !engine.playControl.playing
    ensures engine.player.tempoMultiplier == 1.0 && engine.player.mutedTracks == {} && engine.player.tempo == None
    ensures engine.player.queue.events == [] && engine.playbackListeners.events == []
    ensures fresh(engine) && fresh(engine.playControl) && fresh(engine.player) && fresh(engine.reader)
    ensures fresh(engine.player.queue) && fresh(engine.playbackListeners)
  {
    var queue := new HandOff();
    var playControl := new PlayControl();
    var listeners := new LE.Listeners();
    var player := new Player(playControl, 1.0, queue, port, listeners);
    var from := if initialFrom.Some? then initialFrom.value else 1;
    var to := if initialTo.Some? then initialTo.value else |song|;
    var reader := new Reader(playControl, from, from, to, queue, song);
    engine := new PlayerEngine(song, playControl, player, reader, listeners);
    measures := |song|;
  }
}
