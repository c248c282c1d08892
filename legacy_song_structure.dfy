/**
 * The older song-structure builder (engine/src/main/kotlin/midituutti/engine/SongStructure.kt). It shares
 * the measure record, the measure and beat lengths, the click injection and the adjustment history with the
 * newest builder; it differs in two places: `chunked()` always sends the initial adjustments, and a message
 * past the current measure closes exactly one measure, so a message that skips bars opens the next measure
 * late instead of leaving empty measures behind.
 */
module LegacySongStructure {
  import opened Midi
  import opened EngineTypes
  import opened Collections
  import opened Outcomes
  import opened Adjustments
  import SS = SongStructure

  // ---------------------------------------------------------------------------
  // Measure.chunked()
  // ---------------------------------------------------------------------------

  /**
   * `chunked()`: the initial adjustments at the measure start, then the events at their own ticks, cut into
   * maximal runs of equal ticks. Flattening gives back exactly those events, in order.
   */
  method Chunked(m: SS.Measure) returns (chunks: seq<SS.Chunk>)
    ensures SS.Unchunk(chunks) == SS.AtStart(m.start, Concat(Values(m.initialAdjustments))) + SS.AtOwnTicks(m.events)
    ensures SS.WellChunked(chunks)
  {
    chunks := SS.ChunkRuns(SS.EventsToChunk(m, true));
  }

  // ---------------------------------------------------------------------------
  // Parser
  // ---------------------------------------------------------------------------

  /** Every time-signature message has a non-zero unit, so that the measure length is defined. */
  predicate UnitsNonZero(messages: seq<MidiMessage>) {
    forall i :: 0 <= i < |messages| ==> (messages[i].TimeSignatureMessage? ==> messages[i].timeSignature.unit != 0)
  }

  /** `nextMeasureStart(start, timeSignature)`: one measure after `start`. */
  function NextMeasureStart(ticksPerBeat: int, start: Tick, ts: TimeSignature): (r: Tick)
    requires ts.unit != 0
    ensures r == SS.NextMeasureStart(ticksPerBeat, start, ts, 1)
  {
    start.Plus(Tick(SS.MeasureTicks(ticksPerBeat, ts)))
  }

  /**
   * The two branches of `parseRec` for one message: within the current measure it joins the events;
   * otherwise the current measure is closed and the message opens the next one.
   */
  function Place(ticksPerBeat: int, acc: seq<SS.Measure>, currTimeSignature: TimeSignature, currTempo: Tempo,
                 prevAdjustmentsReversed: History, measureStart: Tick, measureEvents: seq<EngineEvent>,
                 message: MidiMessage): SS.Placed
    requires currTimeSignature.unit != 0
  {
    if SS.WithinMeasure(ticksPerBeat, message.ticks, currTimeSignature, measureStart) then
      SS.Placed(acc, measureStart, measureEvents + [MessageEvent(message)])
    else
      SS.Placed(acc + [SS.Measure(|acc| + 1, measureStart, currTimeSignature, currTempo,
                                  CollectLatestTypeSpecificAdjustments(prevAdjustmentsReversed, measureStart),
                                  measureEvents)],
                NextMeasureStart(ticksPerBeat, measureStart, currTimeSignature),
                [MessageEvent(message)])
  }

  /**
   * `Parser.parseRec`: as in the newest builder, but each message closes at most one measure. At the end the
   * current measure is closed.
   */
  function ParseRec(ticksPerBeat: int, acc: seq<SS.Measure>, currTimeSignature: TimeSignature, currTempo: Tempo,
                    prevAdjustmentsReversed: History, measureStart: Tick, measureEvents: seq<EngineEvent>,
                    rem: seq<MidiMessage>): (r: seq<SS.Measure>)
    requires currTimeSignature.unit != 0 && UnitsNonZero(rem)
    ensures |r| > |acc| && r[..|acc|] == acc
    decreases |rem|
  {
    if rem == [] then
      acc + [SS.Measure(|acc| + 1, measureStart, currTimeSignature, currTempo,
                        CollectLatestTypeSpecificAdjustments(prevAdjustmentsReversed, measureStart), measureEvents)]
    else
      var message := rem[0];
      RestNonZero(currTimeSignature, rem);
      var placed := Place(ticksPerBeat, acc, currTimeSignature, currTempo, prevAdjustmentsReversed,
                          measureStart, measureEvents, message);
      var r := ParseRec(ticksPerBeat, placed.acc, SS.NextTimeSignature(message, currTimeSignature),
                        SS.NextTempo(message, currTempo), AddPossibleAdjustmentEvent(prevAdjustmentsReversed, message),
                        placed.measureStart, placed.measureEvents, rem[1..]);
      assert r[..|acc|] == r[..|placed.acc|][..|acc|];
      r
  }

  /** After the first message the rest of the stream and the next signature still have non-zero units. */
  lemma RestNonZero(currTimeSignature: TimeSignature, rem: seq<MidiMessage>)
    requires currTimeSignature.unit != 0 && UnitsNonZero(rem) && rem != []
    ensures UnitsNonZero(rem[1..]) && SS.NextTimeSignature(rem[0], currTimeSignature).unit != 0
  {
    forall i | 0 <= i < |rem[1..]| ensures rem[1..][i] == rem[i + 1] { }
  }

  /** `parseRec` on a non-empty rest: place the first message, then go on with the rest. */
  lemma ParseRecStep(ticksPerBeat: int, acc: seq<SS.Measure>, currTimeSignature: TimeSignature, currTempo: Tempo,
                     prevAdjustmentsReversed: History, measureStart: Tick, measureEvents: seq<EngineEvent>,
                     rem: seq<MidiMessage>)
    requires currTimeSignature.unit != 0 && UnitsNonZero(rem) && rem != []
    ensures UnitsNonZero(rem[1..]) && SS.NextTimeSignature(rem[0], currTimeSignature).unit != 0
    ensures var p := Place(ticksPerBeat, acc, currTimeSignature, currTempo, prevAdjustmentsReversed, measureStart,
                           measureEvents, rem[0]);
      ParseRec(ticksPerBeat, acc, currTimeSignature, currTempo, prevAdjustmentsReversed, measureStart, measureEvents, rem)
      == ParseRec(ticksPerBeat, p.acc, SS.NextTimeSignature(rem[0], currTimeSignature), SS.NextTempo(rem[0], currTempo),
                  AddPossibleAdjustmentEvent(prevAdjustmentsReversed, rem[0]), p.measureStart, p.measureEvents, rem[1..])
  {
    RestNonZero(currTimeSignature, rem);
  }

  // ---------------------------------------------------------------------------
  // What the parser guarantees
  // ---------------------------------------------------------------------------

  /** Measure numbers are `acc.size + 1`: 1, 2, … without gaps. */
  lemma ParseRecNumbered(ticksPerBeat: int, acc: seq<SS.Measure>, currTimeSignature: TimeSignature, currTempo: Tempo,
                         prevAdjustmentsReversed: History, measureStart: Tick, measureEvents: seq<EngineEvent>,
                         rem: seq<MidiMessage>)
    requires currTimeSignature.unit != 0 && UnitsNonZero(rem)
    requires SS.Numbered(acc)
    ensures SS.Numbered(ParseRec(ticksPerBeat, acc, currTimeSignature, currTempo, prevAdjustmentsReversed,
                                 measureStart, measureEvents, rem))
    decreases |rem|
  {
    if rem != [] {
      var message := rem[0];
      ParseRecStep(ticksPerBeat, acc, currTimeSignature, currTempo, prevAdjustmentsReversed, measureStart,
                   measureEvents, rem);
      var p := Place(ticksPerBeat, acc, currTimeSignature, currTempo, prevAdjustmentsReversed, measureStart,
                     measureEvents, message);
      ParseRecNumbered(ticksPerBeat, p.acc, SS.NextTimeSignature(message, currTimeSignature),
                       SS.NextTempo(message, currTempo), AddPossibleAdjustmentEvent(prevAdjustmentsReversed, message),
                       p.measureStart, p.measureEvents, rem[1..]);
    }
  }

  /** `Place` keeps the closed measures contiguous and the current measure one measure after the last. */
  lemma PlaceContiguous(ticksPerBeat: int, acc: seq<SS.Measure>, currTimeSignature: TimeSignature, currTempo: Tempo,
                        prevAdjustmentsReversed: History, measureStart: Tick, measureEvents: seq<EngineEvent>,
                        message: MidiMessage)
    requires currTimeSignature.unit != 0
    requires SS.Contiguous(ticksPerBeat, acc)
    requires acc != [] ==> SS.FollowedBy(ticksPerBeat, acc[|acc| - 1], measureStart)
    ensures var p := Place(ticksPerBeat, acc, currTimeSignature, currTempo, prevAdjustmentsReversed,
                           measureStart, measureEvents, message);
      && SS.Contiguous(ticksPerBeat, p.acc)
      && (p.acc != [] ==> SS.FollowedBy(ticksPerBeat, p.acc[|p.acc| - 1], p.measureStart))
  {
    if !SS.WithinMeasure(ticksPerBeat, message.ticks, currTimeSignature, measureStart) {
      var closed := SS.Measure(|acc| + 1, measureStart, currTimeSignature, currTempo,
                               CollectLatestTypeSpecificAdjustments(prevAdjustmentsReversed, measureStart),
                               measureEvents);
      assert SS.Contiguous(ticksPerBeat, [closed]);
      SS.ContiguousAppend(ticksPerBeat, acc, [closed]);
    }
  }

  /** Each measure starts one measure, by its own signature, after the previous one. */
  lemma ParseRecContiguous(ticksPerBeat: int, acc: seq<SS.Measure>, currTimeSignature: TimeSignature, currTempo: Tempo,
                           prevAdjustmentsReversed: History, measureStart: Tick, measureEvents: seq<EngineEvent>,
                           rem: seq<MidiMessage>)
    requires currTimeSignature.unit != 0 && UnitsNonZero(rem)
    requires SS.Contiguous(ticksPerBeat, acc)
    requires acc != [] ==> SS.FollowedBy(ticksPerBeat, acc[|acc| - 1], measureStart)
    ensures SS.Contiguous(ticksPerBeat, ParseRec(ticksPerBeat, acc, currTimeSignature, currTempo,
                                                 prevAdjustmentsReversed, measureStart, measureEvents, rem))
    decreases |rem|
  {
    if rem == [] {
      var last := SS.Measure(|acc| + 1, measureStart, currTimeSignature, currTempo,
                             CollectLatestTypeSpecificAdjustments(prevAdjustmentsReversed, measureStart), measureEvents);
      assert SS.Contiguous(ticksPerBeat, [last]);
      SS.ContiguousAppend(ticksPerBeat, acc, [last]);
    } else {
      var message := rem[0];
      ParseRecStep(ticksPerBeat, acc, currTimeSignature, currTempo, prevAdjustmentsReversed, measureStart,
                   measureEvents, rem);
      PlaceContiguous(ticksPerBeat, acc, currTimeSignature, currTempo, prevAdjustmentsReversed, measureStart,
                      measureEvents, message);
      var p := Place(ticksPerBeat, acc, currTimeSignature, currTempo, prevAdjustmentsReversed, measureStart,
                     measureEvents, message);
      ParseRecContiguous(ticksPerBeat, p.acc, SS.NextTimeSignature(message, currTimeSignature),
                         SS.NextTempo(message, currTempo), AddPossibleAdjustmentEvent(prevAdjustmentsReversed, message),
                         p.measureStart, p.measureEvents, rem[1..]);
    }
  }

  /** The first measure the call adds starts at the current measure start. */
  lemma ParseRecFirstStart(ticksPerBeat: int, acc: seq<SS.Measure>, currTimeSignature: TimeSignature, currTempo: Tempo,
                           prevAdjustmentsReversed: History, measureStart: Tick, measureEvents: seq<EngineEvent>,
                           rem: seq<MidiMessage>)
    requires currTimeSignature.unit != 0 && UnitsNonZero(rem)
    ensures ParseRec(ticksPerBeat, acc, currTimeSignature, currTempo, prevAdjustmentsReversed,
                     measureStart, measureEvents, rem)[|acc|].start == measureStart
    decreases |rem|
  {
    if rem != [] {
      var message := rem[0];
      ParseRecStep(ticksPerBeat, acc, currTimeSignature, currTempo, prevAdjustmentsReversed, measureStart,
                   measureEvents, rem);
      var p := Place(ticksPerBeat, acc, currTimeSignature, currTempo, prevAdjustmentsReversed, measureStart,
                     measureEvents, message);
      ParseRecFirstStart(ticksPerBeat, p.acc, SS.NextTimeSignature(message, currTimeSignature),
                         SS.NextTempo(message, currTempo), AddPossibleAdjustmentEvent(prevAdjustmentsReversed, message),
                         p.measureStart, p.measureEvents, rem[1..]);
      SS.FirstAddedStart(ParseRec(ticksPerBeat, acc, currTimeSignature, currTempo, prevAdjustmentsReversed,
                                  measureStart, measureEvents, rem), acc, p.acc, measureStart, p.measureStart);
    }
  }

  /** Events that begin with a message at or after `start`: the message that crossed into the measure. */
  ghost predicate OpenedAt(start: Tick, events: seq<EngineEvent>) {
    events != [] && events[0].MessageEvent? && events[0].message.ticks.tick >= start.tick
  }

  ghost predicate OpenedByMessage(m: SS.Measure) {
    OpenedAt(m.start, m.events)
  }

  /**
   * No measure is left empty by a skip: every measure after the first is opened by the message that crossed
   * into it, and that message is at or after the measure's start.
   */
  lemma ParseRecOpened(ticksPerBeat: int, acc: seq<SS.Measure>, currTimeSignature: TimeSignature, currTempo: Tempo,
                       prevAdjustmentsReversed: History, measureStart: Tick, measureEvents: seq<EngineEvent>,
                       rem: seq<MidiMessage>)
    requires currTimeSignature.unit != 0 && UnitsNonZero(rem)
    requires acc != [] ==> OpenedAt(measureStart, measureEvents)
    ensures var r := ParseRec(ticksPerBeat, acc, currTimeSignature, currTempo, prevAdjustmentsReversed,
                              measureStart, measureEvents, rem);
      forall i :: 0 < i < |r| && |acc| <= i ==> OpenedByMessage(r[i])
    decreases |rem|
  {
    if rem == [] {
      var r := ParseRec(ticksPerBeat, acc, currTimeSignature, currTempo, prevAdjustmentsReversed,
                        measureStart, measureEvents, rem);
      assert r[|acc|].start == measureStart && r[|acc|].events == measureEvents;
    } else {
      var message := rem[0];
      ParseRecStep(ticksPerBeat, acc, currTimeSignature, currTempo, prevAdjustmentsReversed, measureStart,
                   measureEvents, rem);
      var p := Place(ticksPerBeat, acc, currTimeSignature, currTempo, prevAdjustmentsReversed, measureStart,
                     measureEvents, message);
      PlaceOpens(ticksPerBeat, acc, currTimeSignature, currTempo, prevAdjustmentsReversed, measureStart,
                 measureEvents, message);
      ParseRecOpened(ticksPerBeat, p.acc, SS.NextTimeSignature(message, currTimeSignature),
                     SS.NextTempo(message, currTempo), AddPossibleAdjustmentEvent(prevAdjustmentsReversed, message),
                     p.measureStart, p.measureEvents, rem[1..]);
      OpenedPrefix(ParseRec(ticksPerBeat, acc, currTimeSignature, currTempo, prevAdjustmentsReversed,
                            measureStart, measureEvents, rem), acc, p.acc);
    }
  }

  /** Measures from `acc` on, after the first: the one `Place` closed, if any, and those the recursion added. */
  lemma OpenedPrefix(r: seq<SS.Measure>, acc: seq<SS.Measure>, placedAcc: seq<SS.Measure>)
    requires |acc| <= |placedAcc| <= |acc| + 1 && |placedAcc| <= |r| && r[..|placedAcc|] == placedAcc
    requires |placedAcc| > |acc| > 0 ==> OpenedByMessage(placedAcc[|acc|])
    requires forall i :: 0 < i < |r| && |placedAcc| <= i ==> OpenedByMessage(r[i])
    ensures forall i :: 0 < i < |r| && |acc| <= i ==> OpenedByMessage(r[i])
  {
    if |placedAcc| > |acc| > 0 {
      assert r[|acc|] == r[..|placedAcc|][|acc|];
    }
  }

  /**
   * `Place` closes at most one measure, the current measure as it was; the measure it opens begins with the
   * message, at or after its start; a message within the measure keeps the first event.
   */
  lemma PlaceOpens(ticksPerBeat: int, acc: seq<SS.Measure>, currTimeSignature: TimeSignature, currTempo: Tempo,
                   prevAdjustmentsReversed: History, measureStart: Tick, measureEvents: seq<EngineEvent>,
                   message: MidiMessage)
    requires currTimeSignature.unit != 0
    ensures var p := Place(ticksPerBeat, acc, currTimeSignature, currTempo, prevAdjustmentsReversed,
                           measureStart, measureEvents, message);
      && |acc| <= |p.acc| <= |acc| + 1
      && (|p.acc| == |acc| + 1 ==> p.acc[|acc|].start == measureStart && p.acc[|acc|].events == measureEvents
                                   && OpenedAt(p.measureStart, p.measureEvents))
      && (|p.acc| == |acc| && OpenedAt(measureStart, measureEvents) ==> OpenedAt(p.measureStart, p.measureEvents))
  {
    var p := Place(ticksPerBeat, acc, currTimeSignature, currTempo, prevAdjustmentsReversed,
                   measureStart, measureEvents, message);
    if SS.WithinMeasure(ticksPerBeat, message.ticks, currTimeSignature, measureStart) {
      if measureEvents != [] {
        assert p.measureEvents[0] == measureEvents[0];
      }
    }
  }

  /** No event is lost, added or reordered: the measures hold the pending events and then every message. */
  lemma ParseRecEvents(ticksPerBeat: int, acc: seq<SS.Measure>, currTimeSignature: TimeSignature, currTempo: Tempo,
                       prevAdjustmentsReversed: History, measureStart: Tick, measureEvents: seq<EngineEvent>,
                       rem: seq<MidiMessage>)
    requires currTimeSignature.unit != 0 && UnitsNonZero(rem)
    ensures SS.MeasureEvents(ParseRec(ticksPerBeat, acc, currTimeSignature, currTempo, prevAdjustmentsReversed,
                                      measureStart, measureEvents, rem))
         == SS.MeasureEvents(acc) + measureEvents + SS.MessageEvents(rem)
    decreases |rem|
  {
    if rem == [] {
      var r := ParseRec(ticksPerBeat, acc, currTimeSignature, currTempo, prevAdjustmentsReversed,
                        measureStart, measureEvents, rem);
      assert r[..|r| - 1] == acc;
      assert SS.MessageEvents(rem) == [];
    } else {
      var message := rem[0];
      ParseRecStep(ticksPerBeat, acc, currTimeSignature, currTempo, prevAdjustmentsReversed, measureStart,
                   measureEvents, rem);
      var p := Place(ticksPerBeat, acc, currTimeSignature, currTempo, prevAdjustmentsReversed, measureStart,
                     measureEvents, message);
      ParseRecEvents(ticksPerBeat, p.acc, SS.NextTimeSignature(message, currTimeSignature),
                     SS.NextTempo(message, currTempo), AddPossibleAdjustmentEvent(prevAdjustmentsReversed, message),
                     p.measureStart, p.measureEvents, rem[1..]);
      PlaceEvents(ticksPerBeat, acc, currTimeSignature, currTempo, prevAdjustmentsReversed, measureStart,
                  measureEvents, message);
      SS.MessageEventsCons(rem);
      var a, e, d := SS.MeasureEvents(acc), [MessageEvent(message)], SS.MessageEvents(rem[1..]);
      AppendAssoc(a + measureEvents, e, d);
    }
  }

  /** `Place` moves the pending events and the message into the measures, in order. */
  lemma PlaceEvents(ticksPerBeat: int, acc: seq<SS.Measure>, currTimeSignature: TimeSignature, currTempo: Tempo,
                    prevAdjustmentsReversed: History, measureStart: Tick, measureEvents: seq<EngineEvent>,
                    message: MidiMessage)
    requires currTimeSignature.unit != 0
    ensures var p := Place(ticksPerBeat, acc, currTimeSignature, currTempo, prevAdjustmentsReversed,
                           measureStart, measureEvents, message);
      SS.MeasureEvents(p.acc) + p.measureEvents == SS.MeasureEvents(acc) + measureEvents + [MessageEvent(message)]
  {
    if !SS.WithinMeasure(ticksPerBeat, message.ticks, currTimeSignature, measureStart) {
      var closed := SS.Measure(|acc| + 1, measureStart, currTimeSignature, currTempo,
                               CollectLatestTypeSpecificAdjustments(prevAdjustmentsReversed, measureStart),
                               measureEvents);
      SS.MeasureEventsAppend(acc, [closed]);
      assert SS.MeasureEvents([closed]) == measureEvents by {
        assert [closed][..0] == [];
      }
    }
  }

  /**
   * With the input sorted by tick and every measure of positive length, every measure the call adds has seen
   * every adjustment up to its start.
   */
  lemma ParseRecAdjustments(ticksPerBeat: int, acc: seq<SS.Measure>, currTimeSignature: TimeSignature, currTempo: Tempo,
                            measureStart: Tick, measureEvents: seq<EngineEvent>, done: seq<MidiMessage>,
                            rem: seq<MidiMessage>, all: seq<MidiMessage>)
    requires SS.Playable(ticksPerBeat, currTimeSignature) && SS.AllPlayable(ticksPerBeat, rem) && UnitsNonZero(rem)
    requires SortedBy(rem, TickKey) && all == done + rem
    ensures var r := ParseRec(ticksPerBeat, acc, currTimeSignature, currTempo, HistoryOf(done),
                              measureStart, measureEvents, rem);
      forall i :: |acc| <= i < |r| ==> SS.CollectedFrom(all, r[i])
    decreases |rem|
  {
    if rem == [] {
      assert all == done;
      ParseRecEndAdjustments(ticksPerBeat, acc, currTimeSignature, currTempo, measureStart, measureEvents, done);
    } else {
      var message := rem[0];
      ParseRecStep(ticksPerBeat, acc, currTimeSignature, currTempo, HistoryOf(done), measureStart,
                   measureEvents, rem);
      SS.RestPlayable(ticksPerBeat, currTimeSignature, rem);
      SS.SortedTail(rem);
      SS.HistoryOfAppend(done, message);
      assert rem == [message] + rem[1..];
      AppendAssoc(done, [message], rem[1..]);
      PlaceAdjustments(ticksPerBeat, acc, currTimeSignature, currTempo, measureStart, measureEvents, done, rem, all);
      var p := Place(ticksPerBeat, acc, currTimeSignature, currTempo, HistoryOf(done), measureStart,
                     measureEvents, message);
      ParseRecAdjustments(ticksPerBeat, p.acc, SS.NextTimeSignature(message, currTimeSignature),
                          SS.NextTempo(message, currTempo), p.measureStart, p.measureEvents, done + [message], rem[1..],
                          all);
      SS.CollectedPrefix(ParseRec(ticksPerBeat, acc, currTimeSignature, currTempo, HistoryOf(done),
                                  measureStart, measureEvents, rem), acc, p.acc, all);
    }
  }

  /** The last measure has seen the whole stream. */
  lemma ParseRecEndAdjustments(ticksPerBeat: int, acc: seq<SS.Measure>, currTimeSignature: TimeSignature,
                               currTempo: Tempo, measureStart: Tick, measureEvents: seq<EngineEvent>,
                               done: seq<MidiMessage>)
    requires currTimeSignature.unit != 0
    ensures var r := ParseRec(ticksPerBeat, acc, currTimeSignature, currTempo, HistoryOf(done),
                              measureStart, measureEvents, []);
      forall i :: |acc| <= i < |r| ==> SS.CollectedFrom(done, r[i])
  {
    var r := ParseRec(ticksPerBeat, acc, currTimeSignature, currTempo, HistoryOf(done),
                      measureStart, measureEvents, []);
    assert done[..|done|] == done;
    assert r[|acc|].initialAdjustments
        == CollectLatestTypeSpecificAdjustments(HistoryOf(done[..|done|]), r[|acc|].start);
  }

  /** The measure `Place` closes has seen the history `done` and starts before every message from `rem` on. */
  lemma PlaceAdjustments(ticksPerBeat: int, acc: seq<SS.Measure>, currTimeSignature: TimeSignature, currTempo: Tempo,
                         measureStart: Tick, measureEvents: seq<EngineEvent>, done: seq<MidiMessage>,
                         rem: seq<MidiMessage>, all: seq<MidiMessage>)
    requires SS.Playable(ticksPerBeat, currTimeSignature) && all == done + rem
    requires rem != [] && forall j :: 0 <= j < |rem| ==> rem[j].ticks.tick >= rem[0].ticks.tick
    ensures var p := Place(ticksPerBeat, acc, currTimeSignature, currTempo, HistoryOf(done),
                           measureStart, measureEvents, rem[0]);
      forall i :: |acc| <= i < |p.acc| ==> SS.CollectedFrom(all, p.acc[i])
  {
    var message := rem[0];
    if !SS.WithinMeasure(ticksPerBeat, message.ticks, currTimeSignature, measureStart) {
      var m := SS.Measure(|acc| + 1, measureStart, currTimeSignature, currTempo,
                          CollectLatestTypeSpecificAdjustments(HistoryOf(done), measureStart), measureEvents);
      assert all[..|done|] == done;
      assert message.ticks.tick > measureStart.tick;
      forall j | |done| <= j < |all| ensures all[j].ticks.tick > m.start.tick {
        assert all[j] == rem[j - |done|];
      }
      assert SS.CollectedFrom(all, m);
      assert (acc + [m])[|acc|] == m;
    }
  }

  // ---------------------------------------------------------------------------
  // SongStructure.of
  // ---------------------------------------------------------------------------

  /**
   * `measures(midiFile)`: the first time-signature message sets the first measure's start and signature and
   * the first tempo message its tempo; without either the cast fails.
   */
  function Measures(ticksPerBeat: int, messages: seq<MidiMessage>): (r: Result<seq<SS.Measure>>)
    requires UnitsNonZero(messages)
    ensures r.Err? <==> (forall i :: 0 <= i < |messages| ==> !messages[i].TimeSignatureMessage?)
                        || (forall i :: 0 <= i < |messages| ==> !messages[i].TempoMessage?)
    ensures r.Err? ==> r.error == ClassCast
  {
    match FindFirst(messages, SS.IsTimeSignature)
    case None => Err(ClassCast)
    case Some(ts) =>
      match FindFirst(messages, SS.IsTempo)
      case None => Err(ClassCast)
      case Some(tempo) =>
        assert ts.timeSignature.unit != 0 by {
          var i :| 0 <= i < |messages| && messages[i] == ts;
        }
        Ok(ParseRec(ticksPerBeat, [], ts.timeSignature, tempo.tempo, [], ts.ticks, [], messages))
  }

  /** A song's measures are those `parseRec` builds from the first signature, tempo and tick on. */
  lemma MeasuresParse(ticksPerBeat: int, messages: seq<MidiMessage>)
    requires UnitsNonZero(messages) && Measures(ticksPerBeat, messages).Ok?
    ensures FindFirst(messages, SS.IsTimeSignature).Some? && FindFirst(messages, SS.IsTempo).Some?
    ensures FindFirst(messages, SS.IsTimeSignature).value.timeSignature.unit != 0
    ensures var ts := FindFirst(messages, SS.IsTimeSignature).value;
      Measures(ticksPerBeat, messages).value
      == ParseRec(ticksPerBeat, [], ts.timeSignature, FindFirst(messages, SS.IsTempo).value.tempo, [], ts.ticks, [],
                  messages)
  {
    var ts := FindFirst(messages, SS.IsTimeSignature).value;
    var j :| 0 <= j < |messages| && messages[j] == ts;
  }

  /**
   * The measures of a song: numbered 1, 2, … from the first time-signature message on, each starting one
   * measure after the previous one, every one after the first opened by a message at or after its start;
   * their events are the messages, none lost, added or reordered.
   */
  lemma MeasuresSpec(ticksPerBeat: int, messages: seq<MidiMessage>)
    requires UnitsNonZero(messages) && Measures(ticksPerBeat, messages).Ok?
    ensures var ms := Measures(ticksPerBeat, messages).value;
      && |ms| >= 1
      && FindFirst(messages, SS.IsTimeSignature).Some?
      && ms[0].start == FindFirst(messages, SS.IsTimeSignature).value.ticks
      && SS.Numbered(ms)
      && SS.Contiguous(ticksPerBeat, ms)
      && (forall i :: 0 < i < |ms| ==> OpenedByMessage(ms[i]))
      && SS.MeasureEvents(ms) == SS.MessageEvents(messages)
  {
    MeasuresParse(ticksPerBeat, messages);
    var ts := FindFirst(messages, SS.IsTimeSignature).value;
    var tempo := FindFirst(messages, SS.IsTempo).value;
    ParseRecNumbered(ticksPerBeat, [], ts.timeSignature, tempo.tempo, [], ts.ticks, [], messages);
    ParseRecContiguous(ticksPerBeat, [], ts.timeSignature, tempo.tempo, [], ts.ticks, [], messages);
    ParseRecFirstStart(ticksPerBeat, [], ts.timeSignature, tempo.tempo, [], ts.ticks, [], messages);
    ParseRecOpened(ticksPerBeat, [], ts.timeSignature, tempo.tempo, [], ts.ticks, [], messages);
    ParseRecEvents(ticksPerBeat, [], ts.timeSignature, tempo.tempo, [], ts.ticks, [], messages);
    assert SS.MeasureEvents([]) + [] + SS.MessageEvents(messages) == SS.MessageEvents(messages);
  }

  /**
   * With the messages sorted by tick and every measure of positive length, the adjustments a measure restores
   * on a jump, per channel, are for each adjustment type the last one at or before the measure start.
   */
  lemma MeasuresAdjustments(ticksPerBeat: int, messages: seq<MidiMessage>, i: int, channel: int, e: MidiMessage)
    requires SS.AllPlayable(ticksPerBeat, messages) && SortedBy(messages, TickKey)
    requires UnitsNonZero(messages) && Measures(ticksPerBeat, messages).Ok?
    requires 0 <= i < |Measures(ticksPerBeat, messages).value|
    ensures var m := Measures(ticksPerBeat, messages).value[i];
      e in Get(m.initialAdjustments, channel).GetOr([])
      <==> exists typeId :: LastAtOrBefore(AdjustmentsOf(messages, channel, typeId), m.start) == Some(e)
  {
    MeasureCollected(ticksPerBeat, messages, i);
    SS.CollectedFromIsLatest(messages, Measures(ticksPerBeat, messages).value[i], channel, e);
  }

  lemma MeasureCollected(ticksPerBeat: int, messages: seq<MidiMessage>, i: int)
    requires SS.AllPlayable(ticksPerBeat, messages) && SortedBy(messages, TickKey)
    requires UnitsNonZero(messages) && Measures(ticksPerBeat, messages).Ok?
    requires 0 <= i < |Measures(ticksPerBeat, messages).value|
    ensures SS.CollectedFrom(messages, Measures(ticksPerBeat, messages).value[i])
  {
    MeasuresParse(ticksPerBeat, messages);
    var ts := FindFirst(messages, SS.IsTimeSignature).value;
    var tempo := FindFirst(messages, SS.IsTempo).value;
    var j :| 0 <= j < |messages| && messages[j] == ts;
    assert SS.Playable(ticksPerBeat, ts.timeSignature);
    ParseRecCollected(ticksPerBeat, ts.timeSignature, tempo.tempo, ts.ticks, messages);
  }

  /** Every measure `parse` builds from a sorted stream has seen every adjustment up to its start. */
  lemma ParseRecCollected(ticksPerBeat: int, ts: TimeSignature, tempo: Tempo, start: Tick, messages: seq<MidiMessage>)
    requires SS.Playable(ticksPerBeat, ts) && SS.AllPlayable(ticksPerBeat, messages) && SortedBy(messages, TickKey)
    requires UnitsNonZero(messages)
    ensures var r := ParseRec(ticksPerBeat, [], ts, tempo, [], start, [], messages);
      forall i :: 0 <= i < |r| ==> SS.CollectedFrom(messages, r[i])
  {
    var none: seq<MidiMessage> := [];
    assert HistoryOf(none) == [];
    assert messages == none + messages;
    ParseRecAdjustments(ticksPerBeat, [], ts, tempo, start, [], none, messages, messages);
    assert ParseRec(ticksPerBeat, [], ts, tempo, HistoryOf(none), start, [], messages)
        == ParseRec(ticksPerBeat, [], ts, tempo, [], start, [], messages);
  }
}
