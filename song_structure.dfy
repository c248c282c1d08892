/**
 * The newest song-structure builder (src/main/kotlin/midituutti/engine/SongStructure.kt): it splits the
 * tick-sorted message stream of a MIDI file into numbered measures, each with its start, time signature,
 * a tempo (the last one set up to the end of its messages), the channel adjustments to restore when playback jumps to it, and its events;
 * when a message skips bars, empty measures fill the gap. A metronome click on every eighth note can be
 * merged into each measure, and a measure can be grouped into chunks of events that share a tick.
 */
module SongStructure {
  import opened Midi
  import opened EngineTypes
  import opened Collections
  import opened Outcomes
  import opened Adjustments
  import Jvm

  /**
   * A numbered measure. `initialTempo` is the last tempo set at or before the end of the measure's
   * messages (the one the parser holds when it closes the measure), not necessarily the one in force at
   * its start.
   */
  datatype Measure = Measure(number: int, start: Tick, timeSignature: TimeSignature, initialTempo: Tempo,
                             initialAdjustments: InitialAdjustments, events: seq<EngineEvent>)

  // ---------------------------------------------------------------------------
  // Measure.chunked
  // ---------------------------------------------------------------------------

  /** `Pair<Tick, EngineEvent>`: an event with the tick it is sent at. */
  datatype Timed = Timed(ticks: Tick, event: EngineEvent)

  /** `Pair<Tick, List<EngineEvent>>`: events sent at the same tick. */
  datatype Chunk = Chunk(ticks: Tick, events: seq<EngineEvent>)

  /** The adjustments, each sent at the measure start. */
  function AtStart(start: Tick, adjustments: seq<MidiMessage>): (r: seq<Timed>)
    ensures |r| == |adjustments|
    ensures forall i :: 0 <= i < |r| ==> r[i] == Timed(start, MessageEvent(adjustments[i]))
  {
    if adjustments == [] then []
    else AtStart(start, adjustments[..|adjustments| - 1]) + [Timed(start, MessageEvent(adjustments[|adjustments| - 1]))]
  }

  /** The events, each sent at its own tick. */
  function AtOwnTicks(events: seq<EngineEvent>): (r: seq<Timed>)
    ensures |r| == |events|
    ensures forall i :: 0 <= i < |r| ==> r[i] == Timed(events[i].Ticks(), events[i])
  {
    if events == [] then [] else AtOwnTicks(events[..|events| - 1]) + [Timed(events[|events| - 1].Ticks(), events[|events| - 1])]
  }

  /**
   * `eventsToChunk`: with the flag, the initial adjustments of every channel (channels in map order) at
   * the measure start, then the measure's events at their own ticks.
   */
  function EventsToChunk(m: Measure, includeAdjustments: bool): seq<Timed> {
    (if includeAdjustments then AtStart(m.start, Concat(Values(m.initialAdjustments))) else [])
    + AtOwnTicks(m.events)
  }

  /** A chunk's events, each with the chunk's tick. */
  function Tagged(c: Chunk): (r: seq<Timed>)
    ensures |r| == |c.events|
    ensures forall i :: 0 <= i < |r| ==> r[i] == Timed(c.ticks, c.events[i])
    decreases |c.events|
  {
    if c.events == [] then []
    else Tagged(Chunk(c.ticks, c.events[..|c.events| - 1])) + [Timed(c.ticks, c.events[|c.events| - 1])]
  }

  /** Chunks flattened back into timed events. */
  function Unchunk(chunks: seq<Chunk>): seq<Timed> {
    if chunks == [] then [] else Unchunk(chunks[..|chunks| - 1]) + Tagged(chunks[|chunks| - 1])
  }

  /** No chunk is empty and consecutive chunks have different ticks. */
  ghost predicate WellChunked(chunks: seq<Chunk>) {
    (forall i :: 0 <= i < |chunks| ==> chunks[i].events != [])
    && (forall i :: 0 < i < |chunks| ==> chunks[i - 1].ticks != chunks[i].ticks)
  }

  /** `chunkEvents.map { it.second }`. */
  function EventsOf(run: seq<Timed>): (r: seq<EngineEvent>)
    ensures |r| == |run|
    ensures forall i :: 0 <= i < |r| ==> r[i] == run[i].event
  {
    if run == [] then [] else EventsOf(run[..|run| - 1]) + [run[|run| - 1].event]
  }

  /** Closing a run of equal ticks as a chunk keeps the flattened events and the chunk shape. */
  lemma CloseRun(chunks: seq<Chunk>, run: seq<Timed>)
    requires WellChunked(chunks) && run != []
    requires forall j :: 0 <= j < |run| ==> run[j].ticks == run[0].ticks
    requires chunks != [] ==> chunks[|chunks| - 1].ticks != run[0].ticks
    ensures Unchunk(chunks + [Chunk(run[0].ticks, EventsOf(run))]) == Unchunk(chunks) + run
    ensures WellChunked(chunks + [Chunk(run[0].ticks, EventsOf(run))])
  {
    var chunk := Chunk(run[0].ticks, EventsOf(run));
    assert Tagged(chunk) == run;
    assert (chunks + [chunk])[..|chunks|] == chunks;
  }

  /**
   * Part way through `chunked`: the closed chunks and the open run flatten to the events seen, the run
   * shares one tick, and it differs from the last closed chunk's.
   */
  ghost predicate Chunking(chunks: seq<Chunk>, run: seq<Timed>, seen: seq<Timed>) {
    && Unchunk(chunks) + run == seen
    && WellChunked(chunks)
    && (forall j :: 0 <= j < |run| ==> run[j].ticks == run[0].ticks)
    && (chunks != [] ==> run != [] && chunks[|chunks| - 1].ticks != run[0].ticks)
  }

  /** An event at the open run's tick (or the first event) joins the run. */
  lemma JoinRun(chunks: seq<Chunk>, run: seq<Timed>, seen: seq<Timed>, event: Timed)
    requires Chunking(chunks, run, seen)
    requires run == [] || run[0].ticks == event.ticks
    ensures Chunking(chunks, run + [event], seen + [event])
  {
    assert Unchunk(chunks) + (run + [event]) == Unchunk(chunks) + run + [event];
  }

  /** An event at another tick closes the open run as a chunk and opens a run of its own. */
  lemma CloseRunAndStart(chunks: seq<Chunk>, run: seq<Timed>, seen: seq<Timed>, event: Timed)
    requires Chunking(chunks, run, seen)
    requires run != [] && run[0].ticks != event.ticks
    ensures Chunking(chunks + [Chunk(run[0].ticks, EventsOf(run))], [event], seen + [event])
  {
    CloseRun(chunks, run);
  }

  /**
   * `Measure.chunked(includeAdjustments)`: the events to chunk, cut into maximal runs of equal ticks.
   * Flattening the chunks gives back exactly the events to chunk, in order, each chunk being non-empty and
   * different in tick from its neighbours; together these determine the chunks.
   */
  method Chunked(m: Measure, includeAdjustments: bool) returns (chunks: seq<Chunk>)
    ensures Unchunk(chunks) == EventsToChunk(m, includeAdjustments)
    ensures WellChunked(chunks)
  {
    chunks := ChunkRuns(EventsToChunk(m, includeAdjustments));
  }

  /** The loop of `chunked`: `chunkEvents` collects the current run and is yielded when the tick changes. */
  method ChunkRuns(eventsToChunk: seq<Timed>) returns (chunks: seq<Chunk>)
    ensures Unchunk(chunks) == eventsToChunk
    ensures WellChunked(chunks)
  {
    var chunkEvents: seq<Timed> := [];
    chunks := [];
    for i := 0 to |eventsToChunk|
      invariant Chunking(chunks, chunkEvents, eventsToChunk[..i])
    {
      var event := eventsToChunk[i];
      TakeNext(eventsToChunk, i);
      if chunkEvents == [] || chunkEvents[0].ticks == event.ticks {
        JoinRun(chunks, chunkEvents, eventsToChunk[..i], event);
        chunkEvents := chunkEvents + [event];
      } else {
        CloseRunAndStart(chunks, chunkEvents, eventsToChunk[..i], event);
        chunks := chunks + [Chunk(chunkEvents[0].ticks, EventsOf(chunkEvents))];
        chunkEvents := [event];
      }
    }
    if chunkEvents != [] {
      CloseRun(chunks, chunkEvents);
      chunks := chunks + [Chunk(chunkEvents[0].ticks, EventsOf(chunkEvents))];
    }
    TakeAll(eventsToChunk);
  }

  // ---------------------------------------------------------------------------
  // Measure and beat lengths
  // ---------------------------------------------------------------------------

  /**
   * `measureTicks` as the source writes it: `ticksPerBeat * beats / (unit / 4)`. For a unit below 4,
   * `unit / 4` is 0 and the division throws.
   */
  function MeasureTicksAsWritten(ticksPerBeat: int, ts: TimeSignature): (r: Result<int>)
    ensures r.Err? <==> -4 < ts.unit < 4
  {
    var quarters := Jvm.Div(ts.unit, 4);
    if quarters == 0 then Err(DivisionByZero) else Ok(Jvm.Div(ticksPerBeat * ts.beats, quarters))
  }

  /** The length of a measure in ticks: `beats` notes of `4 / unit` quarter notes, a quarter note being `ticksPerBeat`. */
  function MeasureTicks(ticksPerBeat: int, ts: TimeSignature): int
    requires ts.unit != 0
  {
    Jvm.Div(ticksPerBeat * ts.beats * 4, ts.unit)
  }

  /** Where the unit is a multiple of 4 the source's formula gives the measure length. */
  lemma MeasureTicksAsWrittenAgrees(ticksPerBeat: int, ts: TimeSignature)
    requires ticksPerBeat >= 0 && ts.beats >= 0 && ts.unit > 0 && ts.unit % 4 == 0
    ensures MeasureTicksAsWritten(ticksPerBeat, ts) == Ok(MeasureTicks(ticksPerBeat, ts))
  {
    var u := ts.unit / 4;
    assert ts.unit == 4 * u;
    var x := ticksPerBeat * ts.beats;
    assert x >= 0;
    assert ticksPerBeat * ts.beats * 4 == 4 * x;
    Jvm.DivScale(x, u, 4);
  }

  /** A 2/2 (cut time) measure makes the source's formula divide by zero; it is four quarter notes long. */
  lemma CutTimeDividesByZero()
    ensures MeasureTicksAsWritten(480, TimeSignature(2, 2)) == Err(DivisionByZero)
    ensures MeasureTicks(480, TimeSignature(2, 2)) == 4 * 480
  {
  }

  /** Measure lengths of common signatures, in quarter notes of `ticksPerBeat` ticks. */
  lemma MeasureTicksInQuarters(ticksPerBeat: int, beats: int)
    requires ticksPerBeat >= 0 && beats >= 0
    ensures MeasureTicks(ticksPerBeat, TimeSignature(beats, 4)) == ticksPerBeat * beats
    ensures MeasureTicks(ticksPerBeat, TimeSignature(beats, 2)) == 2 * ticksPerBeat * beats
    ensures MeasureTicks(ticksPerBeat, TimeSignature(beats, 8)) == ticksPerBeat * beats / 2
  {
    var x := ticksPerBeat * beats;
    assert x >= 0;
    assert ticksPerBeat * beats * 4 == 4 * x;
    Jvm.DivUnique(4 * x, 4, x, 0);
    Jvm.DivUnique(4 * x, 2, 2 * x, 0);
    Jvm.DivScale(x, 2, 4);
  }

  /** `unit / (2 * unit / 4)`: the number of clicks per measure unit, 2 for every even unit. */
  function ClickDivisor(unit: int): (d: int)
    requires unit >= 2
    ensures d >= 1
    ensures unit % 2 == 0 ==> d == 2
  {
    var half := Jvm.Div(2 * unit, 4);
    assert 1 <= half <= unit;
    if unit % 2 == 0 then
      Jvm.DivUnique(unit, half, 2, 0);
      Jvm.Div(unit, half)
    else
      DivAtLeastOne(unit, half);
      Jvm.Div(unit, half)
  }

  lemma DivAtLeastOne(x: int, a: int)
    requires 0 < a <= x
    ensures x / a >= 1
  {
    assert x == (x / a) * a + x % a;
  }

  /** `beatTicks(beat, ticksPerBeat, timeSignature)`: the offset of the `beat`-th click from the measure start. */
  function BeatTicks(beat: int, ticksPerBeat: int, ts: TimeSignature): int
    requires ts.unit >= 2
  {
    Jvm.Div(ticksPerBeat * (beat - 1), ClickDivisor(ts.unit))
  }

  /** For an even unit the clicks fall on eighth notes: the `beat`-th click is `beat - 1` eighths in. */
  lemma BeatTicksAreEighths(beat: int, ticksPerBeat: int, ts: TimeSignature)
    requires ts.unit >= 2 && ts.unit % 2 == 0 && beat >= 1 && ticksPerBeat >= 0
    ensures BeatTicks(beat, ticksPerBeat, ts) == ticksPerBeat * (beat - 1) / 2
  {
    assert ticksPerBeat * (beat - 1) >= 0;
  }

  // ---------------------------------------------------------------------------
  // injectClick
  // ---------------------------------------------------------------------------

  /** `clickType(eight)`: the first eighth is One, later odd eighths are quarters, even ones are eighths. */
  function ClickTypeOf(eight: int): (c: ClickType)
    requires eight >= 1
    ensures c == One <==> eight == 1
    ensures c == Quarter <==> eight > 1 && eight % 2 == 1
    ensures c == Eight <==> eight % 2 == 0
  {
    if eight == 1 then One
    else if eight % 2 == 1 then Quarter
    else Eight
  }

  /** `eightCount`: `beats * 8 / unit` clicks in a measure. */
  function EightCount(ts: TimeSignature): int
    requires ts.unit != 0
  {
    Jvm.Div(ts.beats * 8, ts.unit)
  }

  /** `(1..eightCount)` is empty for a count below 1. */
  function ClickCount(ts: TimeSignature): nat
    requires ts.unit != 0
  {
    if EightCount(ts) < 0 then 0 else EightCount(ts)
  }

  /** The click events of a measure: click `k` (1-based) at `start + beatTicks(k)`, typed by `clickType(k)`. */
  function Clicks(ticksPerBeat: int, start: Tick, ts: TimeSignature): (r: seq<EngineEvent>)
    requires ts.unit >= 2
    ensures |r| == ClickCount(ts)
    ensures forall i :: 0 <= i < |r| ==> r[i] == ClickEvent(start.Plus(Tick(BeatTicks(i + 1, ticksPerBeat, ts))), ClickTypeOf(i + 1))
  {
    seq(ClickCount(ts), i requires 0 <= i => ClickEvent(start.Plus(Tick(BeatTicks(i + 1, ticksPerBeat, ts))), ClickTypeOf(i + 1)))
  }

  predicate IsClick(e: EngineEvent) { e.ClickEvent? }

  /** `measureClick`: the clicks merged into the events by a stable sort on ticks; nothing else changes. */
  function MeasureClick(ticksPerBeat: int, m: Measure): Measure
    requires m.timeSignature.unit >= 2
  {
    m.(events := SortBy(Clicks(ticksPerBeat, m.start, m.timeSignature) + m.events, EventTickKey))
  }

  /**
   * After `measureClick`: number, start, signature, tempo and adjustments are kept; the events are sorted by
   * tick; they are the clicks and the original events, none lost or added; events with the same tick keep
   * their order, with the clicks before the original events; there are `beats * 8 / unit` more clicks.
   */
  lemma MeasureClickSpec(ticksPerBeat: int, m: Measure)
    requires m.timeSignature.unit >= 2
    ensures MeasureClick(ticksPerBeat, m).(events := m.events) == m
    ensures SortedBy(MeasureClick(ticksPerBeat, m).events, EventTickKey)
    ensures multiset(MeasureClick(ticksPerBeat, m).events)
         == multiset(Clicks(ticksPerBeat, m.start, m.timeSignature)) + multiset(m.events)
    ensures forall k :: KeyFilter(MeasureClick(ticksPerBeat, m).events, EventTickKey, k)
                     == KeyFilter(Clicks(ticksPerBeat, m.start, m.timeSignature) + m.events, EventTickKey, k)
    ensures CountWhere(MeasureClick(ticksPerBeat, m).events, IsClick)
         == ClickCount(m.timeSignature) + CountWhere(m.events, IsClick)
  {
    var clicks := Clicks(ticksPerBeat, m.start, m.timeSignature);
    SortByIsStableSort(clicks + m.events, EventTickKey);
    SortByCount(clicks + m.events, EventTickKey, IsClick);
    CountWhereAppend(clicks, m.events, IsClick);
    CountWhereAll(clicks, IsClick);
  }

  /** `injectClick`: every measure gets its clicks. */
  function InjectClick(ticksPerBeat: int, measures: seq<Measure>): (r: seq<Measure>)
    requires forall i :: 0 <= i < |measures| ==> measures[i].timeSignature.unit >= 2
    ensures |r| == |measures|
    ensures forall i :: 0 <= i < |r| ==> r[i] == MeasureClick(ticksPerBeat, measures[i])
  {
    seq(|measures|, i requires 0 <= i < |measures| => MeasureClick(ticksPerBeat, measures[i]))
  }

  // ---------------------------------------------------------------------------
  // SongStructure.tracks
  // ---------------------------------------------------------------------------

  /** The track an event plays on: a note's channel, the click track, or none. */
  function TrackOf(e: EngineEvent): Option<EngineTrack> {
    match e
    case MessageEvent(NoteMessage(_, note)) => Some(MidiTrack(note.channel))
    case MessageEvent(_) => None
    case ClickEvent(_, _) => Some(ClickTrack)
  }

  function EventTracks(events: seq<EngineEvent>): (r: set<EngineTrack>)
    ensures forall t :: t in r <==> exists i :: 0 <= i < |events| && TrackOf(events[i]) == Some(t)
  {
    if events == [] then {}
    else
      var rest := EventTracks(events[..|events| - 1]);
      var last := events[|events| - 1];
      assert forall i :: 0 <= i < |events| - 1 ==> events[..|events| - 1][i] == events[i];
      rest + (match TrackOf(last) case Some(t) => {t} case None => {})
  }

  /** `tracks`: the tracks of all note and click events of the song, and no others. */
  function Tracks(measures: seq<Measure>): (r: set<EngineTrack>)
    ensures forall t :: t in r <==> exists i, j :: 0 <= i < |measures| && 0 <= j < |measures[i].events|
                                                   && TrackOf(measures[i].events[j]) == Some(t)
  {
    if measures == [] then {}
    else
      var rest := Tracks(measures[..|measures| - 1]);
      assert forall i :: 0 <= i < |measures| - 1 ==> measures[..|measures| - 1][i] == measures[i];
      rest + EventTracks(measures[|measures| - 1].events)
  }

  // ---------------------------------------------------------------------------
  // Parser
  // ---------------------------------------------------------------------------

  /** A signature whose measures have a positive length; with any other the parser never passes a message. */
  predicate Playable(ticksPerBeat: int, ts: TimeSignature) {
    ts.unit != 0 && MeasureTicks(ticksPerBeat, ts) > 0
  }

  /** Every time-signature message in `messages` is playable. */
  predicate AllPlayable(ticksPerBeat: int, messages: seq<MidiMessage>) {
    forall i :: 0 <= i < |messages| ==>
      (messages[i].TimeSignatureMessage? ==> Playable(ticksPerBeat, messages[i].timeSignature))
  }

  /** `withinMeasure`: the tick is less than a measure length after the measure start. */
  function WithinMeasure(ticksPerBeat: int, ticks: Tick, ts: TimeSignature, measureStart: Tick): (r: bool)
    requires ts.unit != 0
    ensures r <==> ticks.tick < NextMeasureStart(ticksPerBeat, measureStart, ts, 1).tick
  {
    ticks.Minus(measureStart).CompareTo(Tick(MeasureTicks(ticksPerBeat, ts))) < 0
  }

  /** `nextMeasureStart(currMeasure, timeSignature, toNextMeasure)`: `toNextMeasure` measures later. */
  function NextMeasureStart(ticksPerBeat: int, currMeasure: Tick, ts: TimeSignature, toNextMeasure: int): Tick
    requires ts.unit != 0
  {
    currMeasure.Plus(Tick(MeasureTicks(ticksPerBeat, ts) * toNextMeasure))
  }

  lemma NextMeasureStartSteps(ticksPerBeat: int, start: Tick, ts: TimeSignature, k: int)
    requires ts.unit != 0
    ensures NextMeasureStart(ticksPerBeat, NextMeasureStart(ticksPerBeat, start, ts, k), ts, 1)
         == NextMeasureStart(ticksPerBeat, start, ts, k + 1)
  {
    var mt := MeasureTicks(ticksPerBeat, ts);
    assert mt * (k + 1) == mt * k + mt;
  }

  /**
   * The measure starts `generateSequence` produces, `measureStart + k * measureTicks` for k = from,
   * from + 1, …, cut by `takeWhile` at the first one after `ticks`.
   */
  function StartsUpTo(ticksPerBeat: int, measureStart: Tick, ts: TimeSignature, from: nat, ticks: Tick): seq<Tick>
    requires Playable(ticksPerBeat, ts)
    decreases ticks.tick - NextMeasureStart(ticksPerBeat, measureStart, ts, from).tick
  {
    var s := NextMeasureStart(ticksPerBeat, measureStart, ts, from);
    NextMeasureStartSteps(ticksPerBeat, measureStart, ts, from);
    if s.tick <= ticks.tick then [s] + StartsUpTo(ticksPerBeat, measureStart, ts, from + 1, ticks) else []
  }

  /** `takeWhile` keeps exactly the starts at or before `ticks`: the first one it drops is after `ticks`. */
  lemma {:induction false} StartsUpToSpec(ticksPerBeat: int, measureStart: Tick, ts: TimeSignature, from: nat, ticks: Tick)
    requires Playable(ticksPerBeat, ts)
    ensures var r := StartsUpTo(ticksPerBeat, measureStart, ts, from, ticks);
      && (forall i :: 0 <= i < |r| ==> r[i] == NextMeasureStart(ticksPerBeat, measureStart, ts, from + i))
      && (forall i :: 0 <= i < |r| ==> r[i].tick <= ticks.tick)
      && NextMeasureStart(ticksPerBeat, measureStart, ts, from + |r|).tick > ticks.tick
    decreases ticks.tick - NextMeasureStart(ticksPerBeat, measureStart, ts, from).tick
  {
    var s := NextMeasureStart(ticksPerBeat, measureStart, ts, from);
    NextMeasureStartSteps(ticksPerBeat, measureStart, ts, from);
    if s.tick <= ticks.tick {
      StartsUpToSpec(ticksPerBeat, measureStart, ts, from + 1, ticks);
      var rest := StartsUpTo(ticksPerBeat, measureStart, ts, from + 1, ticks);
      assert StartsUpTo(ticksPerBeat, measureStart, ts, from, ticks) == [s] + rest;
      forall i | 0 < i < |rest| + 1
        ensures ([s] + rest)[i] == NextMeasureStart(ticksPerBeat, measureStart, ts, from + i)
      {
        assert ([s] + rest)[i] == rest[i - 1];
      }
    }
  }

  /**
   * A message a measure length or more after the measure start crosses at least one boundary, and the
   * last start `takeWhile` keeps is the start of the message's own measure: the message lies in
   * `[start, start + measureTicks)`, and the start is one measure after the last measure kept.
   */
  lemma CrossingLandsInItsMeasure(ticksPerBeat: int, measureStart: Tick, ts: TimeSignature, ticks: Tick)
    requires Playable(ticksPerBeat, ts) && !WithinMeasure(ticksPerBeat, ticks, ts, measureStart)
    ensures var starts := StartsUpTo(ticksPerBeat, measureStart, ts, 0, ticks);
      && |starts| >= 2
      && starts[0] == measureStart
      && NextMeasureStart(ticksPerBeat, starts[|starts| - 2], ts, 1) == starts[|starts| - 1]
      && starts[|starts| - 1].tick <= ticks.tick
      && ticks.tick < starts[|starts| - 1].tick + MeasureTicks(ticksPerBeat, ts)
  {
    var starts := StartsUpTo(ticksPerBeat, measureStart, ts, 0, ticks);
    var mt := MeasureTicks(ticksPerBeat, ts);
    StartsUpToSpec(ticksPerBeat, measureStart, ts, 0, ticks);
    NextMeasureStartSteps(ticksPerBeat, measureStart, ts, 0);
    assert NextMeasureStart(ticksPerBeat, measureStart, ts, 0) == measureStart;
    assert NextMeasureStart(ticksPerBeat, measureStart, ts, 1).tick <= ticks.tick;
    NextMeasureStartSteps(ticksPerBeat, measureStart, ts, |starts| - 2);
    NextMeasureStartSteps(ticksPerBeat, measureStart, ts, |starts| - 1);
  }

  /**
   * The measures of `generateSequence(...).map { ... }`: numbers from `firstNo`, the given starts, the
   * current signature and tempo, the adjustments at each start, and the pending events in the first one only.
   */
  function Intermediates(firstNo: int, starts: seq<Tick>, ts: TimeSignature, tempo: Tempo, h: History,
                         firstEvents: seq<EngineEvent>): (r: seq<Measure>)
    ensures |r| == |starts|
    ensures forall i :: 0 <= i < |r| ==>
      r[i] == Measure(firstNo + i, starts[i], ts, tempo, CollectLatestTypeSpecificAdjustments(h, starts[i]),
                      if i == 0 then firstEvents else [])
  {
    if starts == [] then []
    else
      var n := |starts| - 1;
      Intermediates(firstNo, starts[..n], ts, tempo, h, firstEvents)
      + [Measure(firstNo + n, starts[n], ts, tempo, CollectLatestTypeSpecificAdjustments(h, starts[n]),
                 if n == 0 then firstEvents else [])]
  }

  /** The parser state a message leaves behind: the closed measures and the current measure's start and events. */
  datatype Placed = Placed(acc: seq<Measure>, measureStart: Tick, measureEvents: seq<EngineEvent>)

  /**
   * The two branches of `parseRec` for one message: within the current measure it joins the events;
   * otherwise the current measure and one empty measure per further boundary are closed (the
   * `generateSequence … takeWhile … dropLast(1)` chain) and the message starts the measure after the last.
   */
  function Place(ticksPerBeat: int, acc: seq<Measure>, currTimeSignature: TimeSignature, currTempo: Tempo,
                 prevAdjustmentsReversed: History, measureStart: Tick, measureEvents: seq<EngineEvent>,
                 message: MidiMessage): (p: Placed)
    requires Playable(ticksPerBeat, currTimeSignature)
    ensures |p.acc| >= |acc| && p.acc[..|acc|] == acc
  {
    if WithinMeasure(ticksPerBeat, message.ticks, currTimeSignature, measureStart) then
      Placed(acc, measureStart, measureEvents + [MessageEvent(message)])
    else
      var intermediateMeasures := ClosedMeasures(ticksPerBeat, |acc| + 1, currTimeSignature, currTempo,
                                                 prevAdjustmentsReversed, measureStart, measureEvents, message.ticks);
      Placed(acc + intermediateMeasures,
             NextMeasureStart(ticksPerBeat, intermediateMeasures[|intermediateMeasures| - 1].start, currTimeSignature, 1),
             [MessageEvent(message)])
  }

  /** `intermediateMeasures`: the measures from the current one up to, not including, the message's own. */
  function ClosedMeasures(ticksPerBeat: int, firstNo: int, currTimeSignature: TimeSignature, currTempo: Tempo,
                          prevAdjustmentsReversed: History, measureStart: Tick, measureEvents: seq<EngineEvent>,
                          ticks: Tick): (ms: seq<Measure>)
    requires Playable(ticksPerBeat, currTimeSignature)
    requires !WithinMeasure(ticksPerBeat, ticks, currTimeSignature, measureStart)
    ensures |ms| >= 1
    ensures forall i :: 0 <= i < |ms| ==> ms[i].number == firstNo + i && ms[i].timeSignature == currTimeSignature
  {
    var starts := StartsUpTo(ticksPerBeat, measureStart, currTimeSignature, 0, ticks);
    CrossingLandsInItsMeasure(ticksPerBeat, measureStart, currTimeSignature, ticks);
    Intermediates(firstNo, starts[..|starts| - 1], currTimeSignature, currTempo, prevAdjustmentsReversed, measureEvents)
  }

  /**
   * `Parser.parseRec`: `acc` holds the closed measures; the current measure starts at `measureStart` with
   * `measureEvents` so far; `currTimeSignature`, `currTempo` and `prevAdjustmentsReversed` are the state of
   * the stream so far. Each message is placed by `Place`; the signature and tempo it carries take effect
   * after it is placed. At the end the current measure is closed.
   */
  function ParseRec(ticksPerBeat: int, acc: seq<Measure>, currTimeSignature: TimeSignature, currTempo: Tempo,
                    prevAdjustmentsReversed: History, measureStart: Tick, measureEvents: seq<EngineEvent>,
                    rem: seq<MidiMessage>): (r: seq<Measure>)
    requires Playable(ticksPerBeat, currTimeSignature) && AllPlayable(ticksPerBeat, rem)
    ensures |r| > |acc| && r[..|acc|] == acc
    decreases |rem|
  {
    if rem == [] then
      acc + [Measure(|acc| + 1, measureStart, currTimeSignature, currTempo,
                     CollectLatestTypeSpecificAdjustments(prevAdjustmentsReversed, measureStart), measureEvents)]
    else
      var message := rem[0];
      var nextTimeSignature := NextTimeSignature(message, currTimeSignature);
      var nextTempo := NextTempo(message, currTempo);
      RestPlayable(ticksPerBeat, currTimeSignature, rem);
      var placed := Place(ticksPerBeat, acc, currTimeSignature, currTempo, prevAdjustmentsReversed,
                          measureStart, measureEvents, message);
      var r := ParseRec(ticksPerBeat, placed.acc, nextTimeSignature, nextTempo,
                        AddPossibleAdjustmentEvent(prevAdjustmentsReversed, message),
                        placed.measureStart, placed.measureEvents, rem[1..]);
      assert r[..|acc|] == r[..|placed.acc|][..|acc|];
      r
  }

  // ---------------------------------------------------------------------------
  // What the parser guarantees
  // ---------------------------------------------------------------------------

  /** Measures are numbered 1, 2, … in order. */
  ghost predicate Numbered(measures: seq<Measure>) {
    forall i :: 0 <= i < |measures| ==> measures[i].number == i + 1
  }

  /** Each measure starts one measure, by its own signature, after the previous one. */
  ghost predicate Contiguous(ticksPerBeat: int, measures: seq<Measure>) {
    forall i :: 0 < i < |measures| ==> FollowsPrevious(ticksPerBeat, measures, i)
  }

  /** Measure `i` starts one measure after measure `i - 1`. */
  ghost predicate FollowsPrevious(ticksPerBeat: int, measures: seq<Measure>, i: int)
    requires 0 < i < |measures|
  {
    Follows(ticksPerBeat, measures[i - 1], measures[i])
  }

  /** `next` starts one measure, by the signature of `prev`, after `prev`. */
  ghost predicate Follows(ticksPerBeat: int, prev: Measure, next: Measure) {
    FollowedBy(ticksPerBeat, prev, next.start)
  }

  ghost predicate FollowedBy(ticksPerBeat: int, prev: Measure, start: Tick) {
    prev.timeSignature.unit != 0 && start == NextMeasureStart(ticksPerBeat, prev.start, prev.timeSignature, 1)
  }

  /** The events of the measures, measure after measure. */
  function MeasureEvents(measures: seq<Measure>): seq<EngineEvent> {
    if measures == [] then [] else MeasureEvents(measures[..|measures| - 1]) + measures[|measures| - 1].events
  }

  lemma {:induction false} MeasureEventsAppend(a: seq<Measure>, b: seq<Measure>)
    ensures MeasureEvents(a + b) == MeasureEvents(a) + MeasureEvents(b)
  {
    if b == [] {
      assert a + b == a;
    } else {
      var ab := a + b;
      var init := b[..|b| - 1];
      var last := b[|b| - 1];
      MeasureEventsAppend(a, init);
      assert ab[..|ab| - 1] == a + init;
      assert ab[|ab| - 1] == last;
      assert MeasureEvents(ab) == MeasureEvents(a + init) + last.events;
      assert MeasureEvents(b) == MeasureEvents(init) + last.events;
      AppendAssoc(MeasureEvents(a), MeasureEvents(init), last.events);
    }
  }

  /** `MessageEvent` of each message. */
  function MessageEvents(messages: seq<MidiMessage>): (r: seq<EngineEvent>)
    ensures |r| == |messages|
    ensures forall i :: 0 <= i < |r| ==> r[i] == MessageEvent(messages[i])
  {
    seq(|messages|, i requires 0 <= i < |messages| => MessageEvent(messages[i]))
  }

  /** Only the first intermediate measure gets the pending events. */
  lemma {:induction false} IntermediatesEvents(firstNo: int, starts: seq<Tick>, ts: TimeSignature, tempo: Tempo,
                                               h: History, firstEvents: seq<EngineEvent>)
    ensures MeasureEvents(Intermediates(firstNo, starts, ts, tempo, h, firstEvents))
         == if starts == [] then [] else firstEvents
  {
    if starts != [] {
      var n := |starts| - 1;
      var ms := Intermediates(firstNo, starts, ts, tempo, h, firstEvents);
      IntermediatesEvents(firstNo, starts[..n], ts, tempo, h, firstEvents);
      assert ms[..n] == Intermediates(firstNo, starts[..n], ts, tempo, h, firstEvents);
    }
  }

  lemma MulPositive(a: int, b: int)
    requires a > 0 && b > 0
    ensures a * b > 0
  {
  }

  /** Start `i` is one measure after start `i - 1`. */
  ghost predicate MeasureApart(ticksPerBeat: int, starts: seq<Tick>, ts: TimeSignature, i: int)
    requires ts.unit != 0 && 0 < i < |starts|
  {
    starts[i] == NextMeasureStart(ticksPerBeat, starts[i - 1], ts, 1)
  }

  /** The starts `dropLast(1)` keeps: one measure apart, from the current start, all before the message. */
  lemma KeptStarts(ticksPerBeat: int, measureStart: Tick, ts: TimeSignature, ticks: Tick, starts: seq<Tick>, kept: seq<Tick>)
    requires Playable(ticksPerBeat, ts) && !WithinMeasure(ticksPerBeat, ticks, ts, measureStart)
    requires starts == StartsUpTo(ticksPerBeat, measureStart, ts, 0, ticks) && |starts| >= 1
    requires kept == starts[..|starts| - 1]
    ensures && |kept| >= 1
      && kept[0] == measureStart
      && (forall i :: 0 < i < |kept| ==> MeasureApart(ticksPerBeat, kept, ts, i))
      && (forall i :: 0 <= i < |kept| ==> kept[i].tick < ticks.tick)
      && NextMeasureStart(ticksPerBeat, kept[|kept| - 1], ts, 1) == starts[|starts| - 1]
      && starts[|starts| - 1].tick <= ticks.tick
  {
    CrossingLandsInItsMeasure(ticksPerBeat, measureStart, ts, ticks);
    KeptApart(ticksPerBeat, measureStart, ts, ticks);
    KeptBefore(ticksPerBeat, measureStart, ts, ticks);
  }

  lemma KeptApart(ticksPerBeat: int, measureStart: Tick, ts: TimeSignature, ticks: Tick)
    requires Playable(ticksPerBeat, ts) && !WithinMeasure(ticksPerBeat, ticks, ts, measureStart)
    ensures var starts := StartsUpTo(ticksPerBeat, measureStart, ts, 0, ticks);
      var kept := starts[..|starts| - 1];
      |starts| >= 2 && forall i :: 0 < i < |kept| ==> MeasureApart(ticksPerBeat, kept, ts, i)
  {
    var starts := StartsUpTo(ticksPerBeat, measureStart, ts, 0, ticks);
    var n := |starts| - 1;
    CrossingLandsInItsMeasure(ticksPerBeat, measureStart, ts, ticks);
    StartsUpToSpec(ticksPerBeat, measureStart, ts, 0, ticks);
    forall i | 0 < i < n
      ensures MeasureApart(ticksPerBeat, starts[..n], ts, i)
    {
      NextMeasureStartSteps(ticksPerBeat, measureStart, ts, i - 1);
    }
  }

  lemma KeptBefore(ticksPerBeat: int, measureStart: Tick, ts: TimeSignature, ticks: Tick)
    requires Playable(ticksPerBeat, ts) && !WithinMeasure(ticksPerBeat, ticks, ts, measureStart)
    ensures var starts := StartsUpTo(ticksPerBeat, measureStart, ts, 0, ticks);
      |starts| >= 2 && forall i :: 0 <= i < |starts| - 1 ==> starts[i].tick < ticks.tick
  {
    var starts := StartsUpTo(ticksPerBeat, measureStart, ts, 0, ticks);
    var n := |starts| - 1;
    CrossingLandsInItsMeasure(ticksPerBeat, measureStart, ts, ticks);
    StartsUpToSpec(ticksPerBeat, measureStart, ts, 0, ticks);
    forall i | 0 <= i < n
      ensures starts[i].tick < ticks.tick
    {
      NextMeasureStartIncreases(ticksPerBeat, measureStart, ts, i, n);
    }
  }

  /** Later measures start later. */
  lemma NextMeasureStartIncreases(ticksPerBeat: int, start: Tick, ts: TimeSignature, i: int, n: int)
    requires Playable(ticksPerBeat, ts) && i < n
    ensures NextMeasureStart(ticksPerBeat, start, ts, i).tick < NextMeasureStart(ticksPerBeat, start, ts, n).tick
  {
    var mt := MeasureTicks(ticksPerBeat, ts);
    MulPositive(mt, n - i);
    assert mt * n == mt * i + mt * (n - i);
  }

  /**
   * The measures a crossing message closes: one measure apart, the first at the current start, all
   * before the message, the message in the measure after the last; only the first has the pending
   * events, and each has the adjustments at its start.
   */
  lemma ClosedMeasuresShape(ticksPerBeat: int, firstNo: int, currTimeSignature: TimeSignature, currTempo: Tempo,
                            prevAdjustmentsReversed: History, measureStart: Tick, measureEvents: seq<EngineEvent>,
                            ticks: Tick)
    requires Playable(ticksPerBeat, currTimeSignature)
    requires !WithinMeasure(ticksPerBeat, ticks, currTimeSignature, measureStart)
    ensures var ms := ClosedMeasures(ticksPerBeat, firstNo, currTimeSignature, currTempo, prevAdjustmentsReversed,
                                     measureStart, measureEvents, ticks);
      && ms[0].start == measureStart
      && Contiguous(ticksPerBeat, ms)
      && (forall i :: 0 <= i < |ms| ==> ms[i].start.tick < ticks.tick)
      && NextMeasureStart(ticksPerBeat, ms[|ms| - 1].start, currTimeSignature, 1).tick <= ticks.tick
      && MeasureEvents(ms) == measureEvents
      && (forall i :: 0 <= i < |ms| ==>
            ms[i].initialAdjustments == CollectLatestTypeSpecificAdjustments(prevAdjustmentsReversed, ms[i].start))
  {
    var starts := StartsUpTo(ticksPerBeat, measureStart, currTimeSignature, 0, ticks);
    var kept := starts[..|starts| - 1];
    var ms := Intermediates(firstNo, kept, currTimeSignature, currTempo, prevAdjustmentsReversed, measureEvents);
    assert ClosedMeasures(ticksPerBeat, firstNo, currTimeSignature, currTempo, prevAdjustmentsReversed,
                          measureStart, measureEvents, ticks) == ms;
    KeptStarts(ticksPerBeat, measureStart, currTimeSignature, ticks, starts, kept);
    IntermediatesShape(ticksPerBeat, firstNo, kept, currTimeSignature, currTempo, prevAdjustmentsReversed,
                       measureEvents, ticks);
    ClosedMeasuresEnd(ticksPerBeat, currTimeSignature, ms, starts, kept, ticks);
  }

  /** The measure after the last closed one starts at the last start `StartsUpTo` found, no later than `ticks`. */
  lemma ClosedMeasuresEnd(ticksPerBeat: int, ts: TimeSignature, ms: seq<Measure>, starts: seq<Tick>, kept: seq<Tick>,
                          ticks: Tick)
    requires ts.unit != 0 && |ms| >= 1 && |kept| >= 1 && |starts| >= 1
    requires ms[|ms| - 1].start == kept[|kept| - 1]
    requires NextMeasureStart(ticksPerBeat, kept[|kept| - 1], ts, 1) == starts[|starts| - 1]
    requires starts[|starts| - 1].tick <= ticks.tick
    ensures NextMeasureStart(ticksPerBeat, ms[|ms| - 1].start, ts, 1).tick <= ticks.tick
  {
  }

  /** Intermediate measures over starts one measure apart, all before `ticks`. */
  lemma IntermediatesShape(ticksPerBeat: int, firstNo: int, kept: seq<Tick>, ts: TimeSignature, tempo: Tempo,
                           h: History, firstEvents: seq<EngineEvent>, ticks: Tick)
    requires Playable(ticksPerBeat, ts) && |kept| >= 1
    requires forall i :: 0 < i < |kept| ==> MeasureApart(ticksPerBeat, kept, ts, i)
    requires forall i :: 0 <= i < |kept| ==> kept[i].tick < ticks.tick
    ensures var ms := Intermediates(firstNo, kept, ts, tempo, h, firstEvents);
      && ms[0].start == kept[0]
      && ms[|ms| - 1].start == kept[|kept| - 1]
      && Contiguous(ticksPerBeat, ms)
      && (forall i :: 0 <= i < |ms| ==> ms[i].start.tick < ticks.tick)
      && MeasureEvents(ms) == firstEvents
      && (forall i :: 0 <= i < |ms| ==>
            ms[i].initialAdjustments == CollectLatestTypeSpecificAdjustments(h, ms[i].start))
  {
    var ms := Intermediates(firstNo, kept, ts, tempo, h, firstEvents);
    assert MeasureEvents(ms) == firstEvents by {
      IntermediatesEvents(firstNo, kept, ts, tempo, h, firstEvents);
    }
    assert Contiguous(ticksPerBeat, ms) by {
      IntermediatesContiguous(ticksPerBeat, ms, kept, ts);
    }
    IntermediatesStarts(firstNo, kept, ts, tempo, h, firstEvents, ticks);
  }

  lemma IntermediatesStarts(firstNo: int, kept: seq<Tick>, ts: TimeSignature, tempo: Tempo,
                            h: History, firstEvents: seq<EngineEvent>, ticks: Tick)
    requires |kept| >= 1
    requires forall i :: 0 <= i < |kept| ==> kept[i].tick < ticks.tick
    ensures var ms := Intermediates(firstNo, kept, ts, tempo, h, firstEvents);
      && ms[0].start == kept[0]
      && ms[|ms| - 1].start == kept[|kept| - 1]
      && (forall i :: 0 <= i < |ms| ==> ms[i].start.tick < ticks.tick)
      && (forall i :: 0 <= i < |ms| ==>
            ms[i].initialAdjustments == CollectLatestTypeSpecificAdjustments(h, ms[i].start))
  {
  }

  lemma IntermediatesContiguous(ticksPerBeat: int, ms: seq<Measure>, kept: seq<Tick>, ts: TimeSignature)
    requires ts.unit != 0 && |ms| == |kept|
    requires forall i :: 0 <= i < |ms| ==> ms[i].start == kept[i] && ms[i].timeSignature == ts
    requires forall i :: 0 < i < |kept| ==> MeasureApart(ticksPerBeat, kept, ts, i)
    ensures Contiguous(ticksPerBeat, ms)
  {
    forall i | 0 < i < |ms| ensures FollowsPrevious(ticksPerBeat, ms, i) {
      assert MeasureApart(ticksPerBeat, kept, ts, i);
      assert ms[i].start == kept[i] && ms[i - 1].start == kept[i - 1];
    }
  }

  /** The next signature after a message, as `parseRec` computes it. */
  function NextTimeSignature(message: MidiMessage, currTimeSignature: TimeSignature): TimeSignature {
    if message.TimeSignatureMessage? then message.timeSignature else currTimeSignature
  }

  function NextTempo(message: MidiMessage, currTempo: Tempo): Tempo {
    if message.TempoMessage? then message.tempo else currTempo
  }

  /** After the first message the rest of the stream and the next signature are still playable. */
  lemma RestPlayable(ticksPerBeat: int, currTimeSignature: TimeSignature, rem: seq<MidiMessage>)
    requires Playable(ticksPerBeat, currTimeSignature) && AllPlayable(ticksPerBeat, rem) && rem != []
    ensures AllPlayable(ticksPerBeat, rem[1..]) && Playable(ticksPerBeat, NextTimeSignature(rem[0], currTimeSignature))
  {
    forall i | 0 <= i < |rem[1..]| ensures rem[1..][i] == rem[i + 1] { }
  }

  /** A message that crosses a boundary closes the measures up to its own and starts the one after the last. */
  lemma PlaceCrossing(ticksPerBeat: int, acc: seq<Measure>, currTimeSignature: TimeSignature, currTempo: Tempo,
                      prevAdjustmentsReversed: History, measureStart: Tick, measureEvents: seq<EngineEvent>,
                      message: MidiMessage)
    requires Playable(ticksPerBeat, currTimeSignature)
    requires !WithinMeasure(ticksPerBeat, message.ticks, currTimeSignature, measureStart)
    ensures var ms := ClosedMeasures(ticksPerBeat, |acc| + 1, currTimeSignature, currTempo, prevAdjustmentsReversed,
                                     measureStart, measureEvents, message.ticks);
      Place(ticksPerBeat, acc, currTimeSignature, currTempo, prevAdjustmentsReversed, measureStart, measureEvents, message)
      == Placed(acc + ms, NextMeasureStart(ticksPerBeat, ms[|ms| - 1].start, currTimeSignature, 1), [MessageEvent(message)])
  {
  }

  /** A message within the current measure joins its events. */
  lemma PlaceWithin(ticksPerBeat: int, acc: seq<Measure>, currTimeSignature: TimeSignature, currTempo: Tempo,
                    prevAdjustmentsReversed: History, measureStart: Tick, measureEvents: seq<EngineEvent>,
                    message: MidiMessage)
    requires Playable(ticksPerBeat, currTimeSignature)
    requires WithinMeasure(ticksPerBeat, message.ticks, currTimeSignature, measureStart)
    ensures Place(ticksPerBeat, acc, currTimeSignature, currTempo, prevAdjustmentsReversed, measureStart, measureEvents,
                  message)
         == Placed(acc, measureStart, measureEvents + [MessageEvent(message)])
  {
  }

  /** `parseRec` on a non-empty rest: place the first message, then go on with the rest. */
  lemma ParseRecStep(ticksPerBeat: int, acc: seq<Measure>, currTimeSignature: TimeSignature, currTempo: Tempo,
                     prevAdjustmentsReversed: History, measureStart: Tick, measureEvents: seq<EngineEvent>,
                     rem: seq<MidiMessage>)
    requires Playable(ticksPerBeat, currTimeSignature) && AllPlayable(ticksPerBeat, rem) && rem != []
    ensures AllPlayable(ticksPerBeat, rem[1..]) && Playable(ticksPerBeat, NextTimeSignature(rem[0], currTimeSignature))
    ensures var p := Place(ticksPerBeat, acc, currTimeSignature, currTempo, prevAdjustmentsReversed, measureStart,
                           measureEvents, rem[0]);
      ParseRec(ticksPerBeat, acc, currTimeSignature, currTempo, prevAdjustmentsReversed, measureStart, measureEvents, rem)
      == ParseRec(ticksPerBeat, p.acc, NextTimeSignature(rem[0], currTimeSignature), NextTempo(rem[0], currTempo),
                  AddPossibleAdjustmentEvent(prevAdjustmentsReversed, rem[0]), p.measureStart, p.measureEvents, rem[1..])
  {
    RestPlayable(ticksPerBeat, currTimeSignature, rem);
  }

  lemma MessageEventsCons(messages: seq<MidiMessage>)
    requires messages != []
    ensures MessageEvents(messages) == [MessageEvent(messages[0])] + MessageEvents(messages[1..])
  {
  }

  /** The closed measures `Place` adds are numbered on and have the current signature. */
  lemma PlaceAdds(ticksPerBeat: int, acc: seq<Measure>, currTimeSignature: TimeSignature, currTempo: Tempo,
                  prevAdjustmentsReversed: History, measureStart: Tick, measureEvents: seq<EngineEvent>,
                  message: MidiMessage)
    requires Playable(ticksPerBeat, currTimeSignature)
    ensures var p := Place(ticksPerBeat, acc, currTimeSignature, currTempo, prevAdjustmentsReversed,
                           measureStart, measureEvents, message);
      forall i :: |acc| <= i < |p.acc| ==> p.acc[i].number == i + 1 && p.acc[i].timeSignature == currTimeSignature
  {
  }

  /** `Place` keeps the closed measures contiguous and the current measure one measure after the last. */
  lemma PlaceContiguous(ticksPerBeat: int, acc: seq<Measure>, currTimeSignature: TimeSignature, currTempo: Tempo,
                        prevAdjustmentsReversed: History, measureStart: Tick, measureEvents: seq<EngineEvent>,
                        message: MidiMessage)
    requires Playable(ticksPerBeat, currTimeSignature)
    requires Contiguous(ticksPerBeat, acc)
    requires acc != [] ==> FollowedBy(ticksPerBeat, acc[|acc| - 1], measureStart)
    ensures var p := Place(ticksPerBeat, acc, currTimeSignature, currTempo, prevAdjustmentsReversed,
                           measureStart, measureEvents, message);
      && Contiguous(ticksPerBeat, p.acc)
      && (p.acc != [] ==> FollowedBy(ticksPerBeat, p.acc[|p.acc| - 1], p.measureStart))
  {
    if !WithinMeasure(ticksPerBeat, message.ticks, currTimeSignature, measureStart) {
      PlaceContiguousCrossing(ticksPerBeat, acc, currTimeSignature, currTempo, prevAdjustmentsReversed, measureStart,
                              measureEvents, message);
    } else {
      PlaceWithin(ticksPerBeat, acc, currTimeSignature, currTempo, prevAdjustmentsReversed, measureStart,
                  measureEvents, message);
      var p := Place(ticksPerBeat, acc, currTimeSignature, currTempo, prevAdjustmentsReversed,
                     measureStart, measureEvents, message);
      assert p.acc == acc;
    }
  }

  lemma PlaceContiguousCrossing(ticksPerBeat: int, acc: seq<Measure>, currTimeSignature: TimeSignature, currTempo: Tempo,
                                prevAdjustmentsReversed: History, measureStart: Tick, measureEvents: seq<EngineEvent>,
                                message: MidiMessage)
    requires Playable(ticksPerBeat, currTimeSignature)
    requires !WithinMeasure(ticksPerBeat, message.ticks, currTimeSignature, measureStart)
    requires Contiguous(ticksPerBeat, acc)
    requires acc != [] ==> FollowedBy(ticksPerBeat, acc[|acc| - 1], measureStart)
    ensures var p := Place(ticksPerBeat, acc, currTimeSignature, currTempo, prevAdjustmentsReversed,
                           measureStart, measureEvents, message);
      && |p.acc| > |acc|
      && Contiguous(ticksPerBeat, p.acc)
      && FollowedBy(ticksPerBeat, p.acc[|p.acc| - 1], p.measureStart)
      && p.acc[|acc|].start == measureStart
  {
    var ms := ClosedMeasures(ticksPerBeat, |acc| + 1, currTimeSignature, currTempo, prevAdjustmentsReversed,
                             measureStart, measureEvents, message.ticks);
    ClosedContiguous(ticksPerBeat, acc, currTimeSignature, currTempo, prevAdjustmentsReversed, measureStart,
                     measureEvents, message.ticks);
    PlaceCrossingContiguous(ticksPerBeat, acc, currTimeSignature, currTempo, prevAdjustmentsReversed, measureStart,
                            measureEvents, message);
  }

  /** The closed measures continue the earlier ones. */
  lemma ClosedContiguous(ticksPerBeat: int, acc: seq<Measure>, currTimeSignature: TimeSignature, currTempo: Tempo,
                         prevAdjustmentsReversed: History, measureStart: Tick, measureEvents: seq<EngineEvent>,
                         ticks: Tick)
    requires Playable(ticksPerBeat, currTimeSignature)
    requires !WithinMeasure(ticksPerBeat, ticks, currTimeSignature, measureStart)
    requires Contiguous(ticksPerBeat, acc)
    requires acc != [] ==> FollowedBy(ticksPerBeat, acc[|acc| - 1], measureStart)
    ensures var ms := ClosedMeasures(ticksPerBeat, |acc| + 1, currTimeSignature, currTempo, prevAdjustmentsReversed,
                                     measureStart, measureEvents, ticks);
      && Contiguous(ticksPerBeat, acc + ms)
      && FollowedBy(ticksPerBeat, (acc + ms)[|acc + ms| - 1],
                    NextMeasureStart(ticksPerBeat, ms[|ms| - 1].start, currTimeSignature, 1))
      && (acc + ms)[|acc|].start == measureStart
  {
    ClosedMeasuresShape(ticksPerBeat, |acc| + 1, currTimeSignature, currTempo, prevAdjustmentsReversed, measureStart,
                        measureEvents, ticks);
    var ms := ClosedMeasures(ticksPerBeat, |acc| + 1, currTimeSignature, currTempo, prevAdjustmentsReversed,
                             measureStart, measureEvents, ticks);
    CrossingContiguous(ticksPerBeat, acc, ms, currTimeSignature);
  }

  /** What holds of the closed measures after `acc` holds of what `Place` returns. */
  lemma PlaceCrossingContiguous(ticksPerBeat: int, acc: seq<Measure>, currTimeSignature: TimeSignature,
                                currTempo: Tempo, prevAdjustmentsReversed: History, measureStart: Tick,
                                measureEvents: seq<EngineEvent>, message: MidiMessage)
    requires Playable(ticksPerBeat, currTimeSignature)
    requires !WithinMeasure(ticksPerBeat, message.ticks, currTimeSignature, measureStart)
    requires var ms := ClosedMeasures(ticksPerBeat, |acc| + 1, currTimeSignature, currTempo, prevAdjustmentsReversed,
                                      measureStart, measureEvents, message.ticks);
      && Contiguous(ticksPerBeat, acc + ms)
      && FollowedBy(ticksPerBeat, (acc + ms)[|acc + ms| - 1],
                    NextMeasureStart(ticksPerBeat, ms[|ms| - 1].start, currTimeSignature, 1))
      && (acc + ms)[|acc|].start == measureStart
    ensures var p := Place(ticksPerBeat, acc, currTimeSignature, currTempo, prevAdjustmentsReversed,
                           measureStart, measureEvents, message);
      && |p.acc| > |acc|
      && Contiguous(ticksPerBeat, p.acc)
      && FollowedBy(ticksPerBeat, p.acc[|p.acc| - 1], p.measureStart)
      && p.acc[|acc|].start == measureStart
  {
    PlaceCrossing(ticksPerBeat, acc, currTimeSignature, currTempo, prevAdjustmentsReversed, measureStart,
                  measureEvents, message);
  }

  /** Appending the closed measures keeps the measures contiguous, and the next one follows the last. */
  lemma CrossingContiguous(ticksPerBeat: int, acc: seq<Measure>, ms: seq<Measure>, currTimeSignature: TimeSignature)
    requires currTimeSignature.unit != 0 && ms != [] && ms[|ms| - 1].timeSignature == currTimeSignature
    requires Contiguous(ticksPerBeat, acc) && Contiguous(ticksPerBeat, ms)
    requires acc != [] ==> FollowedBy(ticksPerBeat, acc[|acc| - 1], ms[0].start)
    ensures Contiguous(ticksPerBeat, acc + ms)
    ensures FollowedBy(ticksPerBeat, (acc + ms)[|acc + ms| - 1],
                       NextMeasureStart(ticksPerBeat, ms[|ms| - 1].start, currTimeSignature, 1))
    ensures (acc + ms)[|acc|] == ms[0]
  {
    ContiguousAppend(ticksPerBeat, acc, ms);
    assert (acc + ms)[|acc + ms| - 1] == ms[|ms| - 1];
  }

  lemma ContiguousAppend(ticksPerBeat: int, a: seq<Measure>, b: seq<Measure>)
    requires Contiguous(ticksPerBeat, a) && Contiguous(ticksPerBeat, b)
    requires a != [] && b != [] ==> FollowedBy(ticksPerBeat, a[|a| - 1], b[0].start)
    ensures Contiguous(ticksPerBeat, a + b)
  {
    var all := a + b;
    forall i | 0 < i < |all| ensures FollowsPrevious(ticksPerBeat, all, i) {
      if i > |a| {
        assert FollowsPrevious(ticksPerBeat, b, i - |a|);
        assert all[i - 1] == b[i - 1 - |a|] && all[i] == b[i - |a|];
      } else if i == |a| {
        assert all[i - 1] == a[|a| - 1] && all[i] == b[0];
      } else {
        assert FollowsPrevious(ticksPerBeat, a, i);
        assert all[i - 1] == a[i - 1] && all[i] == a[i];
      }
    }
  }

  /** `Place` moves the pending events and the message into the measures, in order. */
  lemma PlaceEvents(ticksPerBeat: int, acc: seq<Measure>, currTimeSignature: TimeSignature, currTempo: Tempo,
                    prevAdjustmentsReversed: History, measureStart: Tick, measureEvents: seq<EngineEvent>,
                    message: MidiMessage)
    requires Playable(ticksPerBeat, currTimeSignature)
    ensures var p := Place(ticksPerBeat, acc, currTimeSignature, currTempo, prevAdjustmentsReversed,
                           measureStart, measureEvents, message);
      MeasureEvents(p.acc) + p.measureEvents == MeasureEvents(acc) + measureEvents + [MessageEvent(message)]
  {
    if !WithinMeasure(ticksPerBeat, message.ticks, currTimeSignature, measureStart) {
      ClosedMeasuresShape(ticksPerBeat, |acc| + 1, currTimeSignature, currTempo, prevAdjustmentsReversed, measureStart,
                          measureEvents, message.ticks);
      var ms := ClosedMeasures(ticksPerBeat, |acc| + 1, currTimeSignature, currTempo, prevAdjustmentsReversed, measureStart,
                               measureEvents, message.ticks);
      MeasureEventsAppend(acc, ms);
    }
  }

  /**
   * The measures `Place` closes have seen the history `done`, and they start before the message, so
   * before every message from it on when the rest is sorted.
   */
  lemma PlaceAdjustments(ticksPerBeat: int, acc: seq<Measure>, currTimeSignature: TimeSignature, currTempo: Tempo,
                         measureStart: Tick, measureEvents: seq<EngineEvent>, done: seq<MidiMessage>,
                         rem: seq<MidiMessage>)
    requires Playable(ticksPerBeat, currTimeSignature)
    requires rem != [] && forall j :: 0 <= j < |rem| ==> rem[j].ticks.tick >= rem[0].ticks.tick
    ensures var p := Place(ticksPerBeat, acc, currTimeSignature, currTempo, HistoryOf(done),
                           measureStart, measureEvents, rem[0]);
      forall i :: |acc| <= i < |p.acc| ==> CollectedFrom(done + rem, p.acc[i])
  {
    var message := rem[0];
    if !WithinMeasure(ticksPerBeat, message.ticks, currTimeSignature, measureStart) {
      ClosedMeasuresShape(ticksPerBeat, |acc| + 1, currTimeSignature, currTempo, HistoryOf(done), measureStart,
                          measureEvents, message.ticks);
      var ms := ClosedMeasures(ticksPerBeat, |acc| + 1, currTimeSignature, currTempo, HistoryOf(done), measureStart,
                               measureEvents, message.ticks);
      forall i | |acc| <= i < |acc| + |ms| ensures CollectedFrom(done + rem, (acc + ms)[i]) {
        var m := ms[i - |acc|];
        assert (acc + ms)[i] == m;
        assert m.start.tick < message.ticks.tick;
        CollectedAfterDone(done, rem, m);
      }
    }
  }

  /** A measure that has seen exactly the history `done` and starts before every later message has collected from `done + rem`. */
  lemma CollectedAfterDone(done: seq<MidiMessage>, rem: seq<MidiMessage>, m: Measure)
    requires m.initialAdjustments == CollectLatestTypeSpecificAdjustments(HistoryOf(done), m.start)
    requires forall j :: 0 <= j < |rem| ==> rem[j].ticks.tick > m.start.tick
    ensures CollectedFrom(done + rem, m)
  {
    var all := done + rem;
    assert all[..|done|] == done;
    forall j | |done| <= j < |all| ensures all[j].ticks.tick > m.start.tick {
      assert all[j] == rem[j - |done|];
    }
  }

  lemma ParseRecNumbered(ticksPerBeat: int, acc: seq<Measure>, currTimeSignature: TimeSignature, currTempo: Tempo,
                         prevAdjustmentsReversed: History, measureStart: Tick, measureEvents: seq<EngineEvent>,
                         rem: seq<MidiMessage>)
    requires Playable(ticksPerBeat, currTimeSignature) && AllPlayable(ticksPerBeat, rem)
    requires Numbered(acc)
    ensures Numbered(ParseRec(ticksPerBeat, acc, currTimeSignature, currTempo, prevAdjustmentsReversed,
                              measureStart, measureEvents, rem))
    decreases |rem|
  {
    if rem != [] {
      var message := rem[0];
      RestPlayable(ticksPerBeat, currTimeSignature, rem);
      PlaceAdds(ticksPerBeat, acc, currTimeSignature, currTempo, prevAdjustmentsReversed, measureStart,
                measureEvents, message);
      var p := Place(ticksPerBeat, acc, currTimeSignature, currTempo, prevAdjustmentsReversed, measureStart,
                     measureEvents, message);
      ParseRecNumbered(ticksPerBeat, p.acc, NextTimeSignature(message, currTimeSignature),
                       NextTempo(message, currTempo), AddPossibleAdjustmentEvent(prevAdjustmentsReversed, message),
                       p.measureStart, p.measureEvents, rem[1..]);
    }
  }

  /** Each measure starts where the previous one ends. */
  lemma ParseRecContiguous(ticksPerBeat: int, acc: seq<Measure>, currTimeSignature: TimeSignature, currTempo: Tempo,
                           prevAdjustmentsReversed: History, measureStart: Tick, measureEvents: seq<EngineEvent>,
                           rem: seq<MidiMessage>)
    requires Playable(ticksPerBeat, currTimeSignature) && AllPlayable(ticksPerBeat, rem)
    requires Contiguous(ticksPerBeat, acc)
    requires acc != [] ==> FollowedBy(ticksPerBeat, acc[|acc| - 1], measureStart)
    ensures Contiguous(ticksPerBeat, ParseRec(ticksPerBeat, acc, currTimeSignature, currTempo, prevAdjustmentsReversed,
                                              measureStart, measureEvents, rem))
    decreases |rem|
  {
    if rem == [] {
      ParseRecEndContiguous(ticksPerBeat, acc, currTimeSignature, currTempo, prevAdjustmentsReversed, measureStart,
                            measureEvents);
    } else {
      var message := rem[0];
      ParseRecStep(ticksPerBeat, acc, currTimeSignature, currTempo, prevAdjustmentsReversed, measureStart,
                   measureEvents, rem);
      PlaceContiguous(ticksPerBeat, acc, currTimeSignature, currTempo, prevAdjustmentsReversed, measureStart,
                      measureEvents, message);
      var p := Place(ticksPerBeat, acc, currTimeSignature, currTempo, prevAdjustmentsReversed, measureStart,
                     measureEvents, message);
      ParseRecContiguous(ticksPerBeat, p.acc, NextTimeSignature(message, currTimeSignature),
                         NextTempo(message, currTempo), AddPossibleAdjustmentEvent(prevAdjustmentsReversed, message),
                         p.measureStart, p.measureEvents, rem[1..]);
    }
  }

  /** The first measure the call adds starts at the current measure start. */
  lemma ParseRecFirstStart(ticksPerBeat: int, acc: seq<Measure>, currTimeSignature: TimeSignature, currTempo: Tempo,
                           prevAdjustmentsReversed: History, measureStart: Tick, measureEvents: seq<EngineEvent>,
                           rem: seq<MidiMessage>)
    requires Playable(ticksPerBeat, currTimeSignature) && AllPlayable(ticksPerBeat, rem)
    ensures ParseRec(ticksPerBeat, acc, currTimeSignature, currTempo, prevAdjustmentsReversed,
                     measureStart, measureEvents, rem)[|acc|].start == measureStart
    decreases |rem|
  {
    if rem != [] {
      var message := rem[0];
      ParseRecStep(ticksPerBeat, acc, currTimeSignature, currTempo, prevAdjustmentsReversed, measureStart,
                   measureEvents, rem);
      PlaceFirstStart(ticksPerBeat, acc, currTimeSignature, currTempo, prevAdjustmentsReversed, measureStart,
                      measureEvents, message);
      var p := Place(ticksPerBeat, acc, currTimeSignature, currTempo, prevAdjustmentsReversed, measureStart,
                     measureEvents, message);
      ParseRecFirstStart(ticksPerBeat, p.acc, NextTimeSignature(message, currTimeSignature),
                         NextTempo(message, currTempo), AddPossibleAdjustmentEvent(prevAdjustmentsReversed, message),
                         p.measureStart, p.measureEvents, rem[1..]);
      FirstAddedStart(ParseRec(ticksPerBeat, acc, currTimeSignature, currTempo, prevAdjustmentsReversed,
                               measureStart, measureEvents, rem), acc, p.acc, measureStart, p.measureStart);
    }
  }

  /** The first measure `Place` closes, if any, starts at the current measure start. */
  lemma PlaceFirstStart(ticksPerBeat: int, acc: seq<Measure>, currTimeSignature: TimeSignature, currTempo: Tempo,
                        prevAdjustmentsReversed: History, measureStart: Tick, measureEvents: seq<EngineEvent>,
                        message: MidiMessage)
    requires Playable(ticksPerBeat, currTimeSignature)
    ensures var p := Place(ticksPerBeat, acc, currTimeSignature, currTempo, prevAdjustmentsReversed,
                           measureStart, measureEvents, message);
      && (|p.acc| == |acc| ==> p.measureStart == measureStart)
      && (|p.acc| > |acc| ==> p.acc[|acc|].start == measureStart)
  {
    if !WithinMeasure(ticksPerBeat, message.ticks, currTimeSignature, measureStart) {
      ClosedMeasuresShape(ticksPerBeat, |acc| + 1, currTimeSignature, currTempo, prevAdjustmentsReversed,
                          measureStart, measureEvents, message.ticks);
      var ms := ClosedMeasures(ticksPerBeat, |acc| + 1, currTimeSignature, currTempo, prevAdjustmentsReversed,
                               measureStart, measureEvents, message.ticks);
      PlaceCrossing(ticksPerBeat, acc, currTimeSignature, currTempo, prevAdjustmentsReversed, measureStart,
                    measureEvents, message);
      assert (acc + ms)[|acc|] == ms[0];
    } else {
      PlaceWithin(ticksPerBeat, acc, currTimeSignature, currTempo, prevAdjustmentsReversed, measureStart,
                  measureEvents, message);
    }
  }

  /** Closing the last measure keeps the measures contiguous. */
  lemma ParseRecEndContiguous(ticksPerBeat: int, acc: seq<Measure>, currTimeSignature: TimeSignature, currTempo: Tempo,
                              prevAdjustmentsReversed: History, measureStart: Tick, measureEvents: seq<EngineEvent>)
    requires Playable(ticksPerBeat, currTimeSignature)
    requires Contiguous(ticksPerBeat, acc)
    requires acc != [] ==> FollowedBy(ticksPerBeat, acc[|acc| - 1], measureStart)
    ensures Contiguous(ticksPerBeat, ParseRec(ticksPerBeat, acc, currTimeSignature, currTempo,
                                              prevAdjustmentsReversed, measureStart, measureEvents, []))
  {
    var last := Measure(|acc| + 1, measureStart, currTimeSignature, currTempo,
                        CollectLatestTypeSpecificAdjustments(prevAdjustmentsReversed, measureStart), measureEvents);
    assert ParseRec(ticksPerBeat, acc, currTimeSignature, currTempo, prevAdjustmentsReversed,
                    measureStart, measureEvents, []) == acc + [last];
    assert Contiguous(ticksPerBeat, [last]);
    ContiguousAppend(ticksPerBeat, acc, [last]);
  }

  /** The first measure added after `acc` starts at `measureStart`, whether `Place` closed it or not. */
  lemma FirstAddedStart(r: seq<Measure>, acc: seq<Measure>, placedAcc: seq<Measure>, measureStart: Tick, placedStart: Tick)
    requires |acc| <= |placedAcc| < |r| && r[..|placedAcc|] == placedAcc
    requires |placedAcc| == |acc| ==> placedStart == measureStart
    requires |placedAcc| > |acc| ==> placedAcc[|acc|].start == measureStart
    requires r[|placedAcc|].start == placedStart
    ensures r[|acc|].start == measureStart
  {
    if |placedAcc| > |acc| {
      assert r[|acc|] == r[..|placedAcc|][|acc|];
    }
  }

  /** No event is lost, added or reordered: the measures hold the pending events and then every message. */
  lemma ParseRecEvents(ticksPerBeat: int, acc: seq<Measure>, currTimeSignature: TimeSignature, currTempo: Tempo,
                       prevAdjustmentsReversed: History, measureStart: Tick, measureEvents: seq<EngineEvent>,
                       rem: seq<MidiMessage>)
    requires Playable(ticksPerBeat, currTimeSignature) && AllPlayable(ticksPerBeat, rem)
    ensures MeasureEvents(ParseRec(ticksPerBeat, acc, currTimeSignature, currTempo, prevAdjustmentsReversed,
                                   measureStart, measureEvents, rem))
         == MeasureEvents(acc) + measureEvents + MessageEvents(rem)
    decreases |rem|
  {
    if rem == [] {
      var r := ParseRec(ticksPerBeat, acc, currTimeSignature, currTempo, prevAdjustmentsReversed,
                        measureStart, measureEvents, rem);
      assert r[..|r| - 1] == acc;
      assert MessageEvents(rem) == [];
    } else {
      var message := rem[0];
      ParseRecStep(ticksPerBeat, acc, currTimeSignature, currTempo, prevAdjustmentsReversed, measureStart,
                   measureEvents, rem);
      var p := Place(ticksPerBeat, acc, currTimeSignature, currTempo, prevAdjustmentsReversed, measureStart,
                     measureEvents, message);
      ParseRecEvents(ticksPerBeat, p.acc, NextTimeSignature(message, currTimeSignature),
                     NextTempo(message, currTempo), AddPossibleAdjustmentEvent(prevAdjustmentsReversed, message),
                     p.measureStart, p.measureEvents, rem[1..]);
      EventsStep(ticksPerBeat, acc, currTimeSignature, currTempo, prevAdjustmentsReversed, measureStart,
                 measureEvents, rem, p.acc, p.measureEvents,
                 MeasureEvents(ParseRec(ticksPerBeat, p.acc, NextTimeSignature(message, currTimeSignature),
                                        NextTempo(message, currTempo),
                                        AddPossibleAdjustmentEvent(prevAdjustmentsReversed, message),
                                        p.measureStart, p.measureEvents, rem[1..])));
    }
  }

  /** The inductive step of `ParseRecEvents`, on the event sequences alone. */
  lemma EventsStep(ticksPerBeat: int, acc: seq<Measure>, currTimeSignature: TimeSignature, currTempo: Tempo,
                   prevAdjustmentsReversed: History, measureStart: Tick, measureEvents: seq<EngineEvent>,
                   rem: seq<MidiMessage>, placedAcc: seq<Measure>, placedEvents: seq<EngineEvent>,
                   rest: seq<EngineEvent>)
    requires Playable(ticksPerBeat, currTimeSignature) && rem != []
    requires var p := Place(ticksPerBeat, acc, currTimeSignature, currTempo, prevAdjustmentsReversed, measureStart,
                            measureEvents, rem[0]);
      placedAcc == p.acc && placedEvents == p.measureEvents
    requires rest == MeasureEvents(placedAcc) + placedEvents + MessageEvents(rem[1..])
    ensures rest == MeasureEvents(acc) + measureEvents + MessageEvents(rem)
  {
    MessageEventsCons(rem);
    PlaceEvents(ticksPerBeat, acc, currTimeSignature, currTempo, prevAdjustmentsReversed, measureStart,
                measureEvents, rem[0]);
    var a, e, d := MeasureEvents(acc), [MessageEvent(rem[0])], MessageEvents(rem[1..]);
    AppendAssoc(a + measureEvents, e, d);
  }

  /** Every measure's signature is the current one or one that a message of the stream carries. */
  lemma ParseRecSignatures(ticksPerBeat: int, acc: seq<Measure>, currTimeSignature: TimeSignature, currTempo: Tempo,
                           prevAdjustmentsReversed: History, measureStart: Tick, measureEvents: seq<EngineEvent>,
                           rem: seq<MidiMessage>, q: TimeSignature -> bool)
    requires Playable(ticksPerBeat, currTimeSignature) && AllPlayable(ticksPerBeat, rem)
    requires (forall i :: 0 <= i < |acc| ==> q(acc[i].timeSignature)) && q(currTimeSignature)
    requires forall j :: 0 <= j < |rem| ==> rem[j].TimeSignatureMessage? ==> q(rem[j].timeSignature)
    ensures var r := ParseRec(ticksPerBeat, acc, currTimeSignature, currTempo, prevAdjustmentsReversed,
                              measureStart, measureEvents, rem);
      forall i :: 0 <= i < |r| ==> q(r[i].timeSignature)
    decreases |rem|
  {
    if rem != [] {
      var message := rem[0];
      RestPlayable(ticksPerBeat, currTimeSignature, rem);
      assert forall j :: 0 <= j < |rem[1..]| ==> rem[1..][j] == rem[j + 1];
      PlaceAdds(ticksPerBeat, acc, currTimeSignature, currTempo, prevAdjustmentsReversed, measureStart,
                measureEvents, message);
      var p := Place(ticksPerBeat, acc, currTimeSignature, currTempo, prevAdjustmentsReversed, measureStart,
                     measureEvents, message);
      forall i | 0 <= i < |p.acc| ensures q(p.acc[i].timeSignature) {
        if i < |acc| { assert p.acc[i] == p.acc[..|acc|][i]; }
      }
      ParseRecSignatures(ticksPerBeat, p.acc, NextTimeSignature(message, currTimeSignature),
                         NextTempo(message, currTempo), AddPossibleAdjustmentEvent(prevAdjustmentsReversed, message),
                         p.measureStart, p.measureEvents, rem[1..], q);
    }
  }

  /**
   * A measure's adjustments are collected from the history of a prefix of the input, and every message
   * after that prefix is after the measure start: the measure saw every adjustment up to its start.
   */
  ghost predicate CollectedFrom(all: seq<MidiMessage>, m: Measure) {
    exists k :: 0 <= k <= |all|
      && m.initialAdjustments == CollectLatestTypeSpecificAdjustments(HistoryOf(all[..k]), m.start)
      && forall j :: k <= j < |all| ==> all[j].ticks.tick > m.start.tick
  }

  /** With the input sorted by tick, every measure the call adds has seen every adjustment up to its start. */
  lemma ParseRecAdjustments(ticksPerBeat: int, acc: seq<Measure>, currTimeSignature: TimeSignature, currTempo: Tempo,
                            measureStart: Tick, measureEvents: seq<EngineEvent>, done: seq<MidiMessage>,
                            rem: seq<MidiMessage>)
    requires Playable(ticksPerBeat, currTimeSignature) && AllPlayable(ticksPerBeat, rem)
    requires SortedBy(rem, TickKey)
    ensures var r := ParseRec(ticksPerBeat, acc, currTimeSignature, currTempo, HistoryOf(done),
                              measureStart, measureEvents, rem);
      forall i :: |acc| <= i < |r| ==> CollectedFrom(done + rem, r[i])
    decreases |rem|
  {
    if rem == [] {
      assert done + rem == done;
      ParseRecEndAdjustments(ticksPerBeat, acc, currTimeSignature, currTempo, measureStart, measureEvents, done);
    } else {
      var message := rem[0];
      var all := done + rem;
      var done' := done + [message];
      var r := ParseRec(ticksPerBeat, acc, currTimeSignature, currTempo, HistoryOf(done), measureStart,
                        measureEvents, rem);
      var p := Place(ticksPerBeat, acc, currTimeSignature, currTempo, HistoryOf(done), measureStart,
                     measureEvents, message);
      var nextTs := NextTimeSignature(message, currTimeSignature);
      var nextTempo := NextTempo(message, currTempo);
      MoveHead(done, rem);
      ParseRecStepHistory(ticksPerBeat, acc, currTimeSignature, currTempo, measureStart, measureEvents, done, rem);
      SortedTail(rem);
      PlaceAdjustments(ticksPerBeat, acc, currTimeSignature, currTempo, measureStart, measureEvents, done, rem);
      ParseRecAdjustments(ticksPerBeat, p.acc, nextTs, nextTempo, p.measureStart, p.measureEvents, done', rem[1..]);
      CollectedPrefix(r, acc, p.acc, all);
    }
  }

  /** Moving the head of the unread messages to the read ones keeps the whole input. */
  lemma MoveHead(done: seq<MidiMessage>, rem: seq<MidiMessage>)
    requires rem != []
    ensures done + [rem[0]] + rem[1..] == done + rem
  {
    assert [rem[0]] + rem[1..] == rem;
  }

  /** `ParseRecStep` with the history written as that of the messages read so far. */
  lemma ParseRecStepHistory(ticksPerBeat: int, acc: seq<Measure>, currTimeSignature: TimeSignature, currTempo: Tempo,
                            measureStart: Tick, measureEvents: seq<EngineEvent>, done: seq<MidiMessage>,
                            rem: seq<MidiMessage>)
    requires Playable(ticksPerBeat, currTimeSignature) && AllPlayable(ticksPerBeat, rem) && rem != []
    ensures AllPlayable(ticksPerBeat, rem[1..]) && Playable(ticksPerBeat, NextTimeSignature(rem[0], currTimeSignature))
    ensures var p := Place(ticksPerBeat, acc, currTimeSignature, currTempo, HistoryOf(done), measureStart,
                           measureEvents, rem[0]);
      ParseRec(ticksPerBeat, acc, currTimeSignature, currTempo, HistoryOf(done), measureStart, measureEvents, rem)
      == ParseRec(ticksPerBeat, p.acc, NextTimeSignature(rem[0], currTimeSignature), NextTempo(rem[0], currTempo),
                  HistoryOf(done + [rem[0]]), p.measureStart, p.measureEvents, rem[1..])
  {
    ParseRecStep(ticksPerBeat, acc, currTimeSignature, currTempo, HistoryOf(done), measureStart, measureEvents, rem);
    HistoryOfAppend(done, rem[0]);
  }

  lemma ParseRecEndAdjustments(ticksPerBeat: int, acc: seq<Measure>, currTimeSignature: TimeSignature,
                               currTempo: Tempo, measureStart: Tick, measureEvents: seq<EngineEvent>,
                               done: seq<MidiMessage>)
    requires Playable(ticksPerBeat, currTimeSignature)
    ensures var r := ParseRec(ticksPerBeat, acc, currTimeSignature, currTempo, HistoryOf(done),
                              measureStart, measureEvents, []);
      forall i :: |acc| <= i < |r| ==> CollectedFrom(done, r[i])
  {
    var r := ParseRec(ticksPerBeat, acc, currTimeSignature, currTempo, HistoryOf(done),
                      measureStart, measureEvents, []);
    assert done[..|done|] == done;
    assert r[|acc|].initialAdjustments
        == CollectLatestTypeSpecificAdjustments(HistoryOf(done[..|done|]), r[|acc|].start);
  }

  lemma HistoryOfAppend(done: seq<MidiMessage>, message: MidiMessage)
    ensures HistoryOf(done + [message]) == AddPossibleAdjustmentEvent(HistoryOf(done), message)
  {
    assert (done + [message])[..|done|] == done;
  }

  /** The tail of a sorted sequence is sorted, and its head is the least. */
  lemma SortedTail(rem: seq<MidiMessage>)
    requires SortedBy(rem, TickKey) && rem != []
    ensures SortedBy(rem[1..], TickKey)
    ensures forall j :: 0 <= j < |rem| ==> rem[j].ticks.tick >= rem[0].ticks.tick
  {
    forall i, j | 0 <= i < j < |rem[1..]| ensures TickKey(rem[1..][i]) <= TickKey(rem[1..][j]) {
      assert rem[1..][i] == rem[i + 1] && rem[1..][j] == rem[j + 1];
    }
    forall j | 0 <= j < |rem| ensures rem[j].ticks.tick >= rem[0].ticks.tick {
      if j > 0 { assert TickKey(rem[0]) <= TickKey(rem[j]); }
    }
  }

  /** Measures from `acc` on: those `Place` closed and those the recursion added. */
  lemma CollectedPrefix(r: seq<Measure>, acc: seq<Measure>, placedAcc: seq<Measure>, all: seq<MidiMessage>)
    requires |acc| <= |placedAcc| <= |r| && r[..|placedAcc|] == placedAcc
    requires forall i :: |acc| <= i < |placedAcc| ==> CollectedFrom(all, placedAcc[i])
    requires forall i :: |placedAcc| <= i < |r| ==> CollectedFrom(all, r[i])
    ensures forall i :: |acc| <= i < |r| ==> CollectedFrom(all, r[i])
  {
    forall i | |acc| <= i < |placedAcc| ensures CollectedFrom(all, r[i]) {
      assert r[i] == r[..|placedAcc|][i];
    }
  }

  function IsTimeSignature(m: MidiMessage): bool { m.TimeSignatureMessage? }

  function IsTempo(m: MidiMessage): bool { m.TempoMessage? }

  /**
   * `measures(midiFile)`: the first time-signature message sets the first measure's start and signature and
   * the first tempo message its tempo; without either the cast fails.
   */
  function Measures(ticksPerBeat: int, messages: seq<MidiMessage>): (r: Result<seq<Measure>>)
    requires AllPlayable(ticksPerBeat, messages)
    ensures r.Err? <==> (forall i :: 0 <= i < |messages| ==> !messages[i].TimeSignatureMessage?)
                        || (forall i :: 0 <= i < |messages| ==> !messages[i].TempoMessage?)
    ensures r.Err? ==> r.error == ClassCast
  {
    match FindFirst(messages, IsTimeSignature)
    case None => Err(ClassCast)
    case Some(ts) =>
      match FindFirst(messages, IsTempo)
      case None => Err(ClassCast)
      case Some(tempo) =>
        assert Playable(ticksPerBeat, ts.timeSignature) by {
          var i :| 0 <= i < |messages| && messages[i] == ts;
        }
        Ok(ParseRec(ticksPerBeat, [], ts.timeSignature, tempo.tempo, [], ts.ticks, [], messages))
  }

  /** The time signatures the stream's time-signature messages carry. */
  ghost function Signatures(messages: seq<MidiMessage>): set<TimeSignature> {
    set j | 0 <= j < |messages| && messages[j].TimeSignatureMessage? :: messages[j].timeSignature
  }

  /**
   * The measures of a song: numbered 1, 2, … from the first time-signature message on, each starting one
   * measure after the previous one, each with a signature some message sets; their events are the messages,
   * none lost, added or reordered.
   */
  lemma MeasuresSpec(ticksPerBeat: int, messages: seq<MidiMessage>)
    requires AllPlayable(ticksPerBeat, messages) && Measures(ticksPerBeat, messages).Ok?
    ensures var ms := Measures(ticksPerBeat, messages).value;
      && |ms| >= 1
      && FindFirst(messages, IsTimeSignature).Some?
      && ms[0].start == FindFirst(messages, IsTimeSignature).value.ticks
      && Numbered(ms)
      && Contiguous(ticksPerBeat, ms)
      && MeasureEvents(ms) == MessageEvents(messages)
      && forall i :: 0 <= i < |ms| ==> ms[i].timeSignature in Signatures(messages)
  {
    MeasuresParse(ticksPerBeat, messages);
    var ts := FindFirst(messages, IsTimeSignature).value;
    ParseSpec(ticksPerBeat, messages, ts, FindFirst(messages, IsTempo).value.tempo);
  }

  /** What `MeasuresSpec` states, of `parseRec` from a signature message of the stream and any tempo. */
  lemma ParseSpec(ticksPerBeat: int, messages: seq<MidiMessage>, ts: MidiMessage, tempo: Tempo)
    requires AllPlayable(ticksPerBeat, messages) && ts.TimeSignatureMessage? && ts in messages
    requires Playable(ticksPerBeat, ts.timeSignature)
    ensures var ms := ParseRec(ticksPerBeat, [], ts.timeSignature, tempo, [], ts.ticks, [], messages);
      && |ms| >= 1
      && ms[0].start == ts.ticks
      && Numbered(ms)
      && Contiguous(ticksPerBeat, ms)
      && MeasureEvents(ms) == MessageEvents(messages)
      && forall i :: 0 <= i < |ms| ==> ms[i].timeSignature in Signatures(messages)
  {
    ParseRecNumbered(ticksPerBeat, [], ts.timeSignature, tempo, [], ts.ticks, [], messages);
    ParseRecContiguous(ticksPerBeat, [], ts.timeSignature, tempo, [], ts.ticks, [], messages);
    ParseRecFirstStart(ticksPerBeat, [], ts.timeSignature, tempo, [], ts.ticks, [], messages);
    ParseRecEvents(ticksPerBeat, [], ts.timeSignature, tempo, [], ts.ticks, [], messages);
    assert MeasureEvents([]) + [] + MessageEvents(messages) == MessageEvents(messages);
    var sigs := Signatures(messages);
    assert ts.timeSignature in sigs;
    ParseRecSignatures(ticksPerBeat, [], ts.timeSignature, tempo, [], ts.ticks, [], messages, t => t in sigs);
  }

  /**
   * With the messages sorted by tick, the adjustments a measure restores on a jump, per channel, are for
   * each adjustment type the last one at or before the measure start.
   */
  lemma MeasuresAdjustments(ticksPerBeat: int, messages: seq<MidiMessage>, i: int, channel: int, e: MidiMessage)
    requires AllPlayable(ticksPerBeat, messages) && SortedBy(messages, TickKey)
    requires Measures(ticksPerBeat, messages).Ok? && 0 <= i < |Measures(ticksPerBeat, messages).value|
    ensures var m := Measures(ticksPerBeat, messages).value[i];
      e in Get(m.initialAdjustments, channel).GetOr([])
      <==> exists typeId :: LastAtOrBefore(AdjustmentsOf(messages, channel, typeId), m.start) == Some(e)
  {
    MeasureCollected(ticksPerBeat, messages, i);
    CollectedFromIsLatest(messages, Measures(ticksPerBeat, messages).value[i], channel, e);
  }

  lemma MeasureCollected(ticksPerBeat: int, messages: seq<MidiMessage>, i: int)
    requires AllPlayable(ticksPerBeat, messages) && SortedBy(messages, TickKey)
    requires Measures(ticksPerBeat, messages).Ok? && 0 <= i < |Measures(ticksPerBeat, messages).value|
    ensures CollectedFrom(messages, Measures(ticksPerBeat, messages).value[i])
  {
    MeasuresParse(ticksPerBeat, messages);
    var ts := FindFirst(messages, IsTimeSignature).value;
    var tempo := FindFirst(messages, IsTempo).value;
    assert HistoryOf([]) == [];
    ParseRecAdjustments(ticksPerBeat, [], ts.timeSignature, tempo.tempo, ts.ticks, [], [], messages);
    assert [] + messages == messages;
  }

  /** A song's measures are those `parseRec` builds from the first signature, tempo and tick on. */
  lemma MeasuresParse(ticksPerBeat: int, messages: seq<MidiMessage>)
    requires AllPlayable(ticksPerBeat, messages) && Measures(ticksPerBeat, messages).Ok?
    ensures FindFirst(messages, IsTimeSignature).Some? && FindFirst(messages, IsTempo).Some?
    ensures Playable(ticksPerBeat, FindFirst(messages, IsTimeSignature).value.timeSignature)
    ensures var ts := FindFirst(messages, IsTimeSignature).value;
      Measures(ticksPerBeat, messages).value
      == ParseRec(ticksPerBeat, [], ts.timeSignature, FindFirst(messages, IsTempo).value.tempo, [], ts.ticks, [],
                  messages)
  {
    var ts := FindFirst(messages, IsTimeSignature).value;
    var j :| 0 <= j < |messages| && messages[j] == ts;
  }

  /** Adjustments collected from a prefix after which nothing is at or before the start are the latest ones. */
  lemma CollectedFromIsLatest(all: seq<MidiMessage>, m: Measure, channel: int, e: MidiMessage)
    requires CollectedFrom(all, m)
    ensures e in Get(m.initialAdjustments, channel).GetOr([])
      <==> exists typeId :: LastAtOrBefore(AdjustmentsOf(all, channel, typeId), m.start) == Some(e)
  {
    var k :| 0 <= k <= |all|
      && m.initialAdjustments == CollectLatestTypeSpecificAdjustments(HistoryOf(all[..k]), m.start)
      && forall j :: k <= j < |all| ==> all[j].ticks.tick > m.start.tick;
    CollectedAreLatest(all, k, m.start, channel, e);
  }

  // ---------------------------------------------------------------------------
  // Every message lies in the measure of its tick
  // ---------------------------------------------------------------------------

  /** No event of the measure is before its start. */
  ghost predicate AtOrAfterStart(m: Measure) {
    forall e :: e in m.events ==> m.start.tick <= e.Ticks().tick
  }

  /** Every event of the measure is before `next`. */
  ghost predicate Before(m: Measure, next: Tick) {
    forall e :: e in m.events ==> e.Ticks().tick < next.tick
  }

  /** The events of measure `i - 1` are before the start of measure `i`. */
  ghost predicate EndsBeforeNext(measures: seq<Measure>, i: int)
    requires 0 < i < |measures|
  {
    Before(measures[i - 1], measures[i].start)
  }

  /** Each event is in the measure its tick falls in: at or after the measure's start and before the next one's. */
  ghost predicate Segmented(measures: seq<Measure>) {
    && (forall i :: 0 <= i < |measures| ==> AtOrAfterStart(measures[i]))
    && (forall i :: 0 < i < |measures| ==> EndsBeforeNext(measures, i))
  }

  /** Every event tick is in `lo .. hi - 1`. */
  ghost predicate TicksIn(events: seq<EngineEvent>, lo: int, hi: int) {
    forall e :: e in events ==> lo <= e.Ticks().tick < hi
  }

  /** `t` is a whole number of measures of `ts` at or after `anchor`. */
  ghost predicate OnGrid(ticksPerBeat: int, anchor: Tick, ts: TimeSignature, t: Tick)
    requires Playable(ticksPerBeat, ts)
  {
    t.tick >= anchor.tick && (t.tick - anchor.tick) % MeasureTicks(ticksPerBeat, ts) == 0
  }

  /**
   * Signatures change only on measure starts: each message that changes the signature in force comes a
   * whole number of measures, of that signature, after the point where it took effect (`anchor`).
   */
  ghost predicate ChangesOnGrid(ticksPerBeat: int, anchor: Tick, ts: TimeSignature, rem: seq<MidiMessage>)
    decreases |rem|
  {
    if rem == [] then true
    else if rem[0].TimeSignatureMessage? && rem[0].timeSignature != ts then
      && Playable(ticksPerBeat, ts) && OnGrid(ticksPerBeat, anchor, ts, rem[0].ticks)
      && ChangesOnGrid(ticksPerBeat, rem[0].ticks, rem[0].timeSignature, rem[1..])
    else ChangesOnGrid(ticksPerBeat, anchor, ts, rem[1..])
  }

  /** The point where the signature after `message` took effect. */
  function NextAnchor(message: MidiMessage, currTimeSignature: TimeSignature, anchor: Tick): Tick {
    if message.TimeSignatureMessage? && message.timeSignature != currTimeSignature then message.ticks else anchor
  }

  /** A multiple of `mt` stays one when `n` measures are added. */
  lemma MultipleShift(d: int, mt: int, n: int)
    requires mt > 0 && d % mt == 0
    ensures (d + mt * n) % mt == 0
  {
    var q := d / mt;
    assert d == q * mt;
    assert d + mt * n == (q + n) * mt;
    Jvm.DivUnique(d + mt * n, mt, q + n, 0);
  }

  /** Two multiples of `mt` less than `mt` apart are equal. */
  lemma MultiplesApart(d1: int, d2: int, mt: int)
    requires mt > 0 && d1 % mt == 0 && d2 % mt == 0 && d1 <= d2 < d1 + mt
    ensures d1 == d2
  {
    var q := d1 / mt;
    assert d1 == q * mt;
    Jvm.DivUnique(d2, mt, q, d2 - d1);
  }

  lemma SegmentedAppend(a: seq<Measure>, b: seq<Measure>)
    requires Segmented(a) && Segmented(b)
    requires a != [] && b != [] ==> Before(a[|a| - 1], b[0].start)
    ensures Segmented(a + b)
  {
    var all := a + b;
    forall i | 0 <= i < |all| ensures AtOrAfterStart(all[i]) {
      if i < |a| { assert all[i] == a[i]; } else { assert all[i] == b[i - |a|]; }
    }
    forall i | 0 < i < |all| ensures EndsBeforeNext(all, i) {
      if i > |a| {
        assert EndsBeforeNext(b, i - |a|);
        assert all[i - 1] == b[i - 1 - |a|] && all[i] == b[i - |a|];
      } else if i == |a| {
        assert all[i - 1] == a[|a| - 1] && all[i] == b[0];
      } else {
        assert EndsBeforeNext(a, i);
        assert all[i - 1] == a[i - 1] && all[i] == a[i];
      }
    }
  }

  /** The measures a crossing message closes have only the pending events, in the first one. */
  lemma ClosedMeasuresEvents(ticksPerBeat: int, firstNo: int, currTimeSignature: TimeSignature, currTempo: Tempo,
                             prevAdjustmentsReversed: History, measureStart: Tick, measureEvents: seq<EngineEvent>,
                             ticks: Tick)
    requires Playable(ticksPerBeat, currTimeSignature)
    requires !WithinMeasure(ticksPerBeat, ticks, currTimeSignature, measureStart)
    ensures var ms := ClosedMeasures(ticksPerBeat, firstNo, currTimeSignature, currTempo, prevAdjustmentsReversed,
                                     measureStart, measureEvents, ticks);
      forall i :: 0 <= i < |ms| ==> ms[i].events == if i == 0 then measureEvents else []
  {
  }

  /**
   * The measure a crossing message starts is on the grid of the current one, and the message is in it:
   * its start is a whole number of measures after the current start, at or before the message and less
   * than a measure before it.
   */
  lemma CrossingOnGrid(ticksPerBeat: int, firstNo: int, currTimeSignature: TimeSignature, currTempo: Tempo,
                       prevAdjustmentsReversed: History, measureStart: Tick, measureEvents: seq<EngineEvent>,
                       ticks: Tick, anchor: Tick)
    requires Playable(ticksPerBeat, currTimeSignature)
    requires !WithinMeasure(ticksPerBeat, ticks, currTimeSignature, measureStart)
    requires OnGrid(ticksPerBeat, anchor, currTimeSignature, measureStart)
    ensures var ms := ClosedMeasures(ticksPerBeat, firstNo, currTimeSignature, currTempo, prevAdjustmentsReversed,
                                     measureStart, measureEvents, ticks);
      var next := NextMeasureStart(ticksPerBeat, ms[|ms| - 1].start, currTimeSignature, 1);
      && OnGrid(ticksPerBeat, anchor, currTimeSignature, next)
      && next.tick <= ticks.tick < next.tick + MeasureTicks(ticksPerBeat, currTimeSignature)
  {
    var mt := MeasureTicks(ticksPerBeat, currTimeSignature);
    var starts := StartsUpTo(ticksPerBeat, measureStart, currTimeSignature, 0, ticks);
    var kept := starts[..|starts| - 1];
    var ms := Intermediates(firstNo, kept, currTimeSignature, currTempo, prevAdjustmentsReversed, measureEvents);
    assert ClosedMeasures(ticksPerBeat, firstNo, currTimeSignature, currTempo, prevAdjustmentsReversed,
                          measureStart, measureEvents, ticks) == ms;
    CrossingLandsInItsMeasure(ticksPerBeat, measureStart, currTimeSignature, ticks);
    StartsUpToSpec(ticksPerBeat, measureStart, currTimeSignature, 0, ticks);
    var n := |starts| - 1;
    assert ms[|ms| - 1].start == starts[n - 1];
    assert starts[n] == NextMeasureStart(ticksPerBeat, measureStart, currTimeSignature, n);
    MultipleShift(measureStart.tick - anchor.tick, mt, n);
    assert starts[n].tick - anchor.tick == (measureStart.tick - anchor.tick) + mt * n;
  }

  /** The closed measures keep their events in place, and the measure after them starts after those events. */
  lemma ClosedSegmented(ticksPerBeat: int, ms: seq<Measure>, ts: TimeSignature, measureStart: Tick,
                        measureEvents: seq<EngineEvent>, next: Tick)
    requires Playable(ticksPerBeat, ts) && |ms| >= 1 && ms[0].start == measureStart && Contiguous(ticksPerBeat, ms)
    requires forall i :: 0 <= i < |ms| ==> ms[i].timeSignature == ts
    requires forall i :: 0 <= i < |ms| ==> ms[i].events == if i == 0 then measureEvents else []
    requires TicksIn(measureEvents, measureStart.tick, measureStart.tick + MeasureTicks(ticksPerBeat, ts))
    requires next == NextMeasureStart(ticksPerBeat, ms[|ms| - 1].start, ts, 1)
    ensures Segmented(ms) && Before(ms[|ms| - 1], next)
  {
    var mt := MeasureTicks(ticksPerBeat, ts);
    assert NextMeasureStart(ticksPerBeat, measureStart, ts, 1).tick == measureStart.tick + mt;
    forall i | 0 < i < |ms| ensures EndsBeforeNext(ms, i) {
      if i == 1 {
        assert FollowsPrevious(ticksPerBeat, ms, 1);
      } else {
        assert ms[i - 1].events == [];
      }
    }
    if |ms| > 1 {
      assert ms[|ms| - 1].events == [];
    }
  }

  /**
   * What `Place` leaves for the rest of the stream: the current measure on the grid, at or before the
   * message and less than a measure before it, its events between its start and the message, and the
   * closed measures segmented, the last before the current start.
   */
  ghost predicate PlacedInGrid(ticksPerBeat: int, ts: TimeSignature, anchor: Tick, message: MidiMessage, p: Placed)
    requires Playable(ticksPerBeat, ts)
  {
    var mt := MeasureTicks(ticksPerBeat, ts);
    && OnGrid(ticksPerBeat, anchor, ts, p.measureStart)
    && p.measureStart.tick <= message.ticks.tick < p.measureStart.tick + mt
    && TicksIn(p.measureEvents, p.measureStart.tick, p.measureStart.tick + mt)
    && TicksIn(p.measureEvents, p.measureStart.tick, message.ticks.tick + 1)
    && Segmented(p.acc) && (p.acc != [] ==> Before(p.acc[|p.acc| - 1], p.measureStart))
  }

  /** The state `Place` is given: what `PlacedInGrid` states of its result, before the message. */
  ghost predicate ReadyInGrid(ticksPerBeat: int, acc: seq<Measure>, ts: TimeSignature, anchor: Tick, measureStart: Tick,
                              measureEvents: seq<EngineEvent>, message: MidiMessage)
    requires Playable(ticksPerBeat, ts)
  {
    && OnGrid(ticksPerBeat, anchor, ts, measureStart)
    && message.ticks.tick >= measureStart.tick
    && TicksIn(measureEvents, measureStart.tick, measureStart.tick + MeasureTicks(ticksPerBeat, ts))
    && TicksIn(measureEvents, measureStart.tick, message.ticks.tick + 1)
    && Segmented(acc) && (acc != [] ==> Before(acc[|acc| - 1], measureStart))
  }

  lemma PlaceSegmented(ticksPerBeat: int, acc: seq<Measure>, currTimeSignature: TimeSignature, currTempo: Tempo,
                       prevAdjustmentsReversed: History, measureStart: Tick, measureEvents: seq<EngineEvent>,
                       message: MidiMessage, anchor: Tick)
    requires Playable(ticksPerBeat, currTimeSignature)
    requires ReadyInGrid(ticksPerBeat, acc, currTimeSignature, anchor, measureStart, measureEvents, message)
    ensures PlacedInGrid(ticksPerBeat, currTimeSignature, anchor, message,
                         Place(ticksPerBeat, acc, currTimeSignature, currTempo, prevAdjustmentsReversed, measureStart,
                               measureEvents, message))
  {
    if WithinMeasure(ticksPerBeat, message.ticks, currTimeSignature, measureStart) {
      PlaceWithin(ticksPerBeat, acc, currTimeSignature, currTempo, prevAdjustmentsReversed, measureStart,
                  measureEvents, message);
    } else {
      PlaceCrossingSegmented(ticksPerBeat, acc, currTimeSignature, currTempo, prevAdjustmentsReversed, measureStart,
                             measureEvents, message, anchor);
    }
  }

  lemma PlaceCrossingSegmented(ticksPerBeat: int, acc: seq<Measure>, currTimeSignature: TimeSignature, currTempo: Tempo,
                               prevAdjustmentsReversed: History, measureStart: Tick, measureEvents: seq<EngineEvent>,
                               message: MidiMessage, anchor: Tick)
    requires Playable(ticksPerBeat, currTimeSignature)
    requires !WithinMeasure(ticksPerBeat, message.ticks, currTimeSignature, measureStart)
    requires ReadyInGrid(ticksPerBeat, acc, currTimeSignature, anchor, measureStart, measureEvents, message)
    ensures PlacedInGrid(ticksPerBeat, currTimeSignature, anchor, message,
                         Place(ticksPerBeat, acc, currTimeSignature, currTempo, prevAdjustmentsReversed, measureStart,
                               measureEvents, message))
  {
    var ms := ClosedMeasures(ticksPerBeat, |acc| + 1, currTimeSignature, currTempo, prevAdjustmentsReversed,
                             measureStart, measureEvents, message.ticks);
    var next := NextMeasureStart(ticksPerBeat, ms[|ms| - 1].start, currTimeSignature, 1);
    PlaceCrossing(ticksPerBeat, acc, currTimeSignature, currTempo, prevAdjustmentsReversed, measureStart,
                  measureEvents, message);
    CrossingOnGrid(ticksPerBeat, |acc| + 1, currTimeSignature, currTempo, prevAdjustmentsReversed, measureStart,
                   measureEvents, message.ticks, anchor);
    ClosedAppendSegmented(ticksPerBeat, acc, currTimeSignature, currTempo, prevAdjustmentsReversed, measureStart,
                          measureEvents, message.ticks);
    assert TicksIn([MessageEvent(message)], next.tick, message.ticks.tick + 1);
  }

  /** Appending the closed measures keeps the measures segmented, and the last one ends before the next start. */
  lemma ClosedAppendSegmented(ticksPerBeat: int, acc: seq<Measure>, currTimeSignature: TimeSignature,
                              currTempo: Tempo, prevAdjustmentsReversed: History, measureStart: Tick,
                              measureEvents: seq<EngineEvent>, ticks: Tick)
    requires Playable(ticksPerBeat, currTimeSignature)
    requires !WithinMeasure(ticksPerBeat, ticks, currTimeSignature, measureStart)
    requires TicksIn(measureEvents, measureStart.tick, measureStart.tick + MeasureTicks(ticksPerBeat, currTimeSignature))
    requires Segmented(acc) && (acc != [] ==> Before(acc[|acc| - 1], measureStart))
    ensures var ms := ClosedMeasures(ticksPerBeat, |acc| + 1, currTimeSignature, currTempo, prevAdjustmentsReversed,
                                     measureStart, measureEvents, ticks);
      && Segmented(acc + ms)
      && Before((acc + ms)[|acc + ms| - 1], NextMeasureStart(ticksPerBeat, ms[|ms| - 1].start, currTimeSignature, 1))
  {
    var ms := ClosedMeasures(ticksPerBeat, |acc| + 1, currTimeSignature, currTempo, prevAdjustmentsReversed,
                             measureStart, measureEvents, ticks);
    var next := NextMeasureStart(ticksPerBeat, ms[|ms| - 1].start, currTimeSignature, 1);
    assert Segmented(ms) && Before(ms[|ms| - 1], next) by {
      ClosedMeasuresShape(ticksPerBeat, |acc| + 1, currTimeSignature, currTempo, prevAdjustmentsReversed, measureStart,
                          measureEvents, ticks);
      ClosedMeasuresEvents(ticksPerBeat, |acc| + 1, currTimeSignature, currTempo, prevAdjustmentsReversed, measureStart,
                           measureEvents, ticks);
      ClosedSegmented(ticksPerBeat, ms, currTimeSignature, measureStart, measureEvents, next);
    }
    assert ms[0].start == measureStart by {
      ClosedMeasuresShape(ticksPerBeat, |acc| + 1, currTimeSignature, currTempo, prevAdjustmentsReversed, measureStart,
                          measureEvents, ticks);
    }
    SegmentedAppend(acc, ms);
    assert (acc + ms)[|acc + ms| - 1] == ms[|ms| - 1];
  }

  /**
   * A message that changes the signature is on the grid, so it is the start of the current measure and
   * every pending event is at that start: the new signature's measure holds them, and the grid moves there.
   */
  lemma SignatureStep(ticksPerBeat: int, currTimeSignature: TimeSignature, anchor: Tick, message: MidiMessage,
                      start: Tick, events: seq<EngineEvent>)
    requires Playable(ticksPerBeat, currTimeSignature) && Playable(ticksPerBeat, NextTimeSignature(message, currTimeSignature))
    requires message.TimeSignatureMessage? && message.timeSignature != currTimeSignature
             ==> OnGrid(ticksPerBeat, anchor, currTimeSignature, message.ticks)
    requires OnGrid(ticksPerBeat, anchor, currTimeSignature, start)
    requires start.tick <= message.ticks.tick < start.tick + MeasureTicks(ticksPerBeat, currTimeSignature)
    requires TicksIn(events, start.tick, start.tick + MeasureTicks(ticksPerBeat, currTimeSignature))
    requires TicksIn(events, start.tick, message.ticks.tick + 1)
    ensures var ts := NextTimeSignature(message, currTimeSignature);
      && OnGrid(ticksPerBeat, NextAnchor(message, currTimeSignature, anchor), ts, start)
      && TicksIn(events, start.tick, start.tick + MeasureTicks(ticksPerBeat, ts))
  {
    if message.TimeSignatureMessage? && message.timeSignature != currTimeSignature {
      MultiplesApart(start.tick - anchor.tick, message.ticks.tick - anchor.tick,
                     MeasureTicks(ticksPerBeat, currTimeSignature));
    }
  }

  /**
   * The parser state the segmentation proof carries: the rest sorted with its signature changes on the
   * grid, the current measure on the grid and at or before the rest, its events in it and at or before
   * the next message, and the closed measures segmented, the last before the current start.
   */
  ghost predicate InGrid(ticksPerBeat: int, acc: seq<Measure>, ts: TimeSignature, anchor: Tick, measureStart: Tick,
                         measureEvents: seq<EngineEvent>, rem: seq<MidiMessage>)
    requires Playable(ticksPerBeat, ts)
  {
    && SortedBy(rem, TickKey) && ChangesOnGrid(ticksPerBeat, anchor, ts, rem)
    && OnGrid(ticksPerBeat, anchor, ts, measureStart)
    && (forall j :: 0 <= j < |rem| ==> rem[j].ticks.tick >= measureStart.tick)
    && TicksIn(measureEvents, measureStart.tick, measureStart.tick + MeasureTicks(ticksPerBeat, ts))
    && (rem != [] ==> TicksIn(measureEvents, measureStart.tick, rem[0].ticks.tick + 1))
    && Segmented(acc) && (acc != [] ==> Before(acc[|acc| - 1], measureStart))
  }

  /** Placing the next message keeps `InGrid`, with the signature and grid that message leaves. */
  lemma InGridStep(ticksPerBeat: int, acc: seq<Measure>, currTimeSignature: TimeSignature, currTempo: Tempo,
                   prevAdjustmentsReversed: History, measureStart: Tick, measureEvents: seq<EngineEvent>,
                   rem: seq<MidiMessage>, anchor: Tick)
    requires Playable(ticksPerBeat, currTimeSignature) && AllPlayable(ticksPerBeat, rem) && rem != []
    requires InGrid(ticksPerBeat, acc, currTimeSignature, anchor, measureStart, measureEvents, rem)
    ensures Playable(ticksPerBeat, NextTimeSignature(rem[0], currTimeSignature))
    ensures var p := Place(ticksPerBeat, acc, currTimeSignature, currTempo, prevAdjustmentsReversed, measureStart,
                           measureEvents, rem[0]);
      InGrid(ticksPerBeat, p.acc, NextTimeSignature(rem[0], currTimeSignature),
             NextAnchor(rem[0], currTimeSignature, anchor), p.measureStart, p.measureEvents, rem[1..])
  {
    var message := rem[0];
    RestPlayable(ticksPerBeat, currTimeSignature, rem);
    var p := Place(ticksPerBeat, acc, currTimeSignature, currTempo, prevAdjustmentsReversed, measureStart,
                   measureEvents, message);
    SortedTail(rem);
    PlaceSegmented(ticksPerBeat, acc, currTimeSignature, currTempo, prevAdjustmentsReversed, measureStart,
                   measureEvents, message, anchor);
    SignatureStep(ticksPerBeat, currTimeSignature, anchor, message, p.measureStart, p.measureEvents);
    RestAfterMessage(p.measureStart, p.measureEvents, rem);
  }

  /** With the signatures changing on measure starts and the messages sorted, the measures are segmented. */
  lemma {:induction false} ParseRecSegmented(ticksPerBeat: int, acc: seq<Measure>, currTimeSignature: TimeSignature,
                                             currTempo: Tempo, prevAdjustmentsReversed: History, measureStart: Tick,
                                             measureEvents: seq<EngineEvent>, rem: seq<MidiMessage>, anchor: Tick)
    requires Playable(ticksPerBeat, currTimeSignature) && AllPlayable(ticksPerBeat, rem)
    requires InGrid(ticksPerBeat, acc, currTimeSignature, anchor, measureStart, measureEvents, rem)
    ensures Segmented(ParseRec(ticksPerBeat, acc, currTimeSignature, currTempo, prevAdjustmentsReversed,
                               measureStart, measureEvents, rem))
    decreases |rem|
  {
    if rem == [] {
      var last := Measure(|acc| + 1, measureStart, currTimeSignature, currTempo,
                          CollectLatestTypeSpecificAdjustments(prevAdjustmentsReversed, measureStart), measureEvents);
      assert ParseRec(ticksPerBeat, acc, currTimeSignature, currTempo, prevAdjustmentsReversed,
                      measureStart, measureEvents, rem) == acc + [last];
      assert Segmented([last]);
      SegmentedAppend(acc, [last]);
    } else {
      var message := rem[0];
      ParseRecStep(ticksPerBeat, acc, currTimeSignature, currTempo, prevAdjustmentsReversed, measureStart,
                   measureEvents, rem);
      var p := Place(ticksPerBeat, acc, currTimeSignature, currTempo, prevAdjustmentsReversed, measureStart,
                     measureEvents, message);
      InGridStep(ticksPerBeat, acc, currTimeSignature, currTempo, prevAdjustmentsReversed, measureStart,
                 measureEvents, rem, anchor);
      ParseRecSegmented(ticksPerBeat, p.acc, NextTimeSignature(message, currTimeSignature), NextTempo(message, currTempo),
                        AddPossibleAdjustmentEvent(prevAdjustmentsReversed, message), p.measureStart,
                        p.measureEvents, rem[1..], NextAnchor(message, currTimeSignature, anchor));
    }
  }

  /** The messages after the head of a sorted stream are at or after every event up to the head. */
  lemma RestAfterMessage(start: Tick, events: seq<EngineEvent>, rem: seq<MidiMessage>)
    requires rem != [] && SortedBy(rem, TickKey) && start.tick <= rem[0].ticks.tick
    requires TicksIn(events, start.tick, rem[0].ticks.tick + 1)
    ensures forall j :: 0 <= j < |rem[1..]| ==> rem[1..][j].ticks.tick >= start.tick
    ensures rem[1..] != [] ==> TicksIn(events, start.tick, rem[1..][0].ticks.tick + 1)
  {
    forall j | 0 <= j < |rem[1..]| ensures rem[1..][j].ticks.tick >= rem[0].ticks.tick {
      assert rem[1..][j] == rem[j + 1] && TickKey(rem[0]) <= TickKey(rem[j + 1]);
    }
  }

  /**
   * A song whose messages are sorted by tick, none before the first time signature, and whose signature
   * changes fall on measure starts: every message is in the measure its tick falls in, at or after the
   * measure's start and before the next measure's start.
   */
  lemma MeasuresSegmented(ticksPerBeat: int, messages: seq<MidiMessage>)
    requires AllPlayable(ticksPerBeat, messages) && Measures(ticksPerBeat, messages).Ok?
    requires SortedBy(messages, TickKey)
    requires var first := FindFirst(messages, IsTimeSignature);
      && first.Some?
      && (forall j :: 0 <= j < |messages| ==> messages[j].ticks.tick >= first.value.ticks.tick)
      && ChangesOnGrid(ticksPerBeat, first.value.ticks, first.value.timeSignature, messages)
    ensures Segmented(Measures(ticksPerBeat, messages).value)
  {
    MeasuresParse(ticksPerBeat, messages);
    var ts := FindFirst(messages, IsTimeSignature).value;
    var tempo := FindFirst(messages, IsTempo).value;
    assert TicksIn([], ts.ticks.tick, ts.ticks.tick);
    ParseRecSegmented(ticksPerBeat, [], ts.timeSignature, tempo.tempo, [], ts.ticks, [], messages, ts.ticks);
  }

  // ---------------------------------------------------------------------------
  // The tempo a measure records
  // ---------------------------------------------------------------------------

  /** Up to a tick in the measure after the current one, `takeWhile` keeps the current start and the next. */
  lemma StartsUpToNext(ticksPerBeat: int, measureStart: Tick, ts: TimeSignature, ticks: Tick)
    requires Playable(ticksPerBeat, ts)
    requires NextMeasureStart(ticksPerBeat, measureStart, ts, 1).tick <= ticks.tick
    requires ticks.tick < NextMeasureStart(ticksPerBeat, measureStart, ts, 2).tick
    ensures StartsUpTo(ticksPerBeat, measureStart, ts, 0, ticks)
         == [measureStart, NextMeasureStart(ticksPerBeat, measureStart, ts, 1)]
  {
    assert NextMeasureStart(ticksPerBeat, measureStart, ts, 0) == measureStart;
    assert StartsUpTo(ticksPerBeat, measureStart, ts, 2, ticks) == [];
  }

  /** A message in the measure after the current one closes the current measure alone and opens the next. */
  lemma PlaceInNext(ticksPerBeat: int, currTimeSignature: TimeSignature, currTempo: Tempo,
                    prevAdjustmentsReversed: History, measureStart: Tick, measureEvents: seq<EngineEvent>,
                    message: MidiMessage)
    requires Playable(ticksPerBeat, currTimeSignature)
    requires NextMeasureStart(ticksPerBeat, measureStart, currTimeSignature, 1).tick <= message.ticks.tick
    requires message.ticks.tick < NextMeasureStart(ticksPerBeat, measureStart, currTimeSignature, 2).tick
    ensures var p := Place(ticksPerBeat, [], currTimeSignature, currTempo, prevAdjustmentsReversed, measureStart,
                           measureEvents, message);
            && |p.acc| == 1 && p.acc[0].start == measureStart && p.acc[0].initialTempo == currTempo
            && p.measureStart == NextMeasureStart(ticksPerBeat, measureStart, currTimeSignature, 1)
            && p.measureEvents == [MessageEvent(message)]
  {
    var ts := currTimeSignature;
    var next := NextMeasureStart(ticksPerBeat, measureStart, ts, 1);
    assert !WithinMeasure(ticksPerBeat, message.ticks, ts, measureStart);
    StartsUpToNext(ticksPerBeat, measureStart, ts, message.ticks);
    var closed := ClosedMeasures(ticksPerBeat, 1, ts, currTempo, prevAdjustmentsReversed, measureStart, measureEvents,
                                 message.ticks);
    assert closed == Intermediates(1, [measureStart], ts, currTempo, prevAdjustmentsReversed, measureEvents) by {
      assert [measureStart, next][..1] == [measureStart];
    }
    PlaceCrossing(ticksPerBeat, [], ts, currTempo, prevAdjustmentsReversed, measureStart, measureEvents, message);
  }

  /**
   * As written, a measure records the tempo the parser holds when it closes the measure. A last message
   * that sets a tempo strictly inside the measure after the current one: the current measure closes with
   * the tempo held so far, and the measure the message opens records the message's tempo, although that
   * measure starts before the message, where the earlier tempo is still in force.
   */
  lemma TempoChangeInsideMeasure(ticksPerBeat: int, currTimeSignature: TimeSignature, currTempo: Tempo,
                                 prevAdjustmentsReversed: History, measureStart: Tick, measureEvents: seq<EngineEvent>,
                                 message: MidiMessage)
    requires Playable(ticksPerBeat, currTimeSignature) && message.TempoMessage?
    requires NextMeasureStart(ticksPerBeat, measureStart, currTimeSignature, 1).tick < message.ticks.tick
    requires message.ticks.tick < NextMeasureStart(ticksPerBeat, measureStart, currTimeSignature, 2).tick
    ensures AllPlayable(ticksPerBeat, [message])
    ensures var r := ParseRec(ticksPerBeat, [], currTimeSignature, currTempo, prevAdjustmentsReversed, measureStart,
                              measureEvents, [message]);
            && |r| == 2 && r[0].start == measureStart && r[0].initialTempo == currTempo
            && r[1].start == NextMeasureStart(ticksPerBeat, measureStart, currTimeSignature, 1)
            && r[1].start.tick < message.ticks.tick && r[1].initialTempo == message.tempo
  {
    PlaceInNext(ticksPerBeat, currTimeSignature, currTempo, prevAdjustmentsReversed, measureStart, measureEvents,
                message);
    ParseRecStep(ticksPerBeat, [], currTimeSignature, currTempo, prevAdjustmentsReversed, measureStart, measureEvents,
                 [message]);
    assert [message][1..] == [];
  }

  /** A tempo message at or before `at`. */
  predicate SetsTempoBy(message: MidiMessage, at: Tick) {
    message.TempoMessage? && message.ticks.tick <= at.tick
  }

  /** `messages[i]` is the last tempo message at or before `at`. */
  predicate LastSetter(messages: seq<MidiMessage>, at: Tick, i: int) {
    0 <= i < |messages| && SetsTempoBy(messages[i], at)
    && forall j :: i < j < |messages| ==> !SetsTempoBy(messages[j], at)
  }

  /** The tempo in force at `at`: that of the last tempo message at or before it, or `initial` when there is none. */
  function TempoAt(initial: Tempo, messages: seq<MidiMessage>, at: Tick): Tempo {
    if messages == [] then initial
    else if SetsTempoBy(messages[|messages| - 1], at) then messages[|messages| - 1].tempo
    else TempoAt(initial, messages[..|messages| - 1], at)
  }

  /** `TempoAt` is the initial tempo when no message sets one by `at`, and otherwise the last setter's tempo. */
  lemma {:induction false} TempoAtSpec(initial: Tempo, messages: seq<MidiMessage>, at: Tick)
    ensures var r := TempoAt(initial, messages, at);
            && ((forall i :: 0 <= i < |messages| ==> !SetsTempoBy(messages[i], at)) ==> r == initial)
            && ((exists i :: 0 <= i < |messages| && SetsTempoBy(messages[i], at)) ==>
                  exists i :: LastSetter(messages, at, i) && r == messages[i].tempo)
  {
    if messages != [] {
      var init := messages[..|messages| - 1];
      var last := messages[|messages| - 1];
      assert messages == init + [last];
      if SetsTempoBy(last, at) {
        assert LastSetter(messages, at, |messages| - 1);
      } else {
        TempoAtSpec(initial, init, at);
        LastSetterSnoc(initial, init, last, at, TempoAt(initial, init, at));
      }
    }
  }

  /** A last message that sets no tempo by `at` leaves the last setter, and its tempo, where they were. */
  lemma LastSetterSnoc(initial: Tempo, init: seq<MidiMessage>, last: MidiMessage, at: Tick, r: Tempo)
    requires !SetsTempoBy(last, at)
    requires (forall i :: 0 <= i < |init| ==> !SetsTempoBy(init[i], at)) ==> r == initial
    requires (exists i :: 0 <= i < |init| && SetsTempoBy(init[i], at)) ==>
               exists i :: LastSetter(init, at, i) && r == init[i].tempo
    ensures var messages := init + [last];
            && ((forall i :: 0 <= i < |messages| ==> !SetsTempoBy(messages[i], at)) ==> r == initial)
            && ((exists i :: 0 <= i < |messages| && SetsTempoBy(messages[i], at)) ==>
                  exists i :: LastSetter(messages, at, i) && r == messages[i].tempo)
  {
    var messages := init + [last];
    if forall i :: 0 <= i < |messages| ==> !SetsTempoBy(messages[i], at) {
      forall i | 0 <= i < |init| ensures !SetsTempoBy(init[i], at) {
        assert messages[i] == init[i];
      }
    }
    if exists i :: 0 <= i < |messages| && SetsTempoBy(messages[i], at) {
      var k :| 0 <= k < |messages| && SetsTempoBy(messages[k], at);
      assert k < |init| && init[k] == messages[k];
      var w :| LastSetter(init, at, w) && r == init[w].tempo;
      assert messages[w] == init[w];
      assert LastSetter(messages, at, w);
    }
  }

  /** `measures` with each measure's tempo the one in force at its start; before any tempo message, the first one. */
  function MeasuresAtStartTempo(ticksPerBeat: int, messages: seq<MidiMessage>): (r: Result<seq<Measure>>)
    requires AllPlayable(ticksPerBeat, messages)
    ensures r.Err? <==> Measures(ticksPerBeat, messages).Err?
  {
    match Measures(ticksPerBeat, messages)
    case Err(e) => Err(e)
    case Ok(ms) =>
      var first := FindFirst(messages, IsTempo).value.tempo;
      Ok(seq(|ms|, i requires 0 <= i < |ms| => ms[i].(initialTempo := TempoAt(first, messages, ms[i].start))))
  }

  /**
   * The corrected measures are the source's in everything but the tempo, and each measure's tempo is the
   * one in force at its start: the last tempo message at or before the start, or the song's first tempo.
   */
  lemma MeasuresAtStartTempoSpec(ticksPerBeat: int, messages: seq<MidiMessage>, i: int)
    requires AllPlayable(ticksPerBeat, messages) && MeasuresAtStartTempo(ticksPerBeat, messages).Ok?
    requires 0 <= i < |Measures(ticksPerBeat, messages).value|
    ensures var ms := Measures(ticksPerBeat, messages).value;
            var r := MeasuresAtStartTempo(ticksPerBeat, messages).value;
            && |r| == |ms|
            && r[i].(initialTempo := ms[i].initialTempo) == ms[i]
            && r[i].initialTempo == TempoAt(FindFirst(messages, IsTempo).value.tempo, messages, ms[i].start)
  {
  }

}
