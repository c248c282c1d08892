/**
 * The oldest song-structure builder (src/engine/kotlin/midituutti/engine/SongStructure.kt): measures carry
 * only their start, time signature and events; there is no tempo, no adjustment history and no chunking.
 * A message past the current measure closes exactly one measure. The click injection is the same as in the
 * later builders.
 */
module PrototypeSongStructure {
  import opened Midi
  import opened EngineTypes
  import opened Collections
  import opened Outcomes
  import MessageDecoder
  import SS = SongStructure

  /** `Measure(start, timeSignature, events)`. */
  datatype Measure = Measure(start: Tick, timeSignature: TimeSignature, events: seq<EngineEvent>)

  // ---------------------------------------------------------------------------
  // injectClick
  // ---------------------------------------------------------------------------

  /** `measureClick`: a new measure with the same start and signature and the clicks merged into the events. */
  function MeasureClick(ticksPerBeat: int, m: Measure): Measure
    requires m.timeSignature.unit >= 2
  {
    Measure(m.start, m.timeSignature, SortBy(SS.Clicks(ticksPerBeat, m.start, m.timeSignature) + m.events, EventTickKey))
  }

  /**
   * After `measureClick`: start and signature are kept; the events are sorted by tick; they are the clicks and
   * the original events, none lost or added; there are `numerator * 8 / denominator` more clicks.
   */
  lemma MeasureClickSpec(ticksPerBeat: int, m: Measure)
    requires m.timeSignature.unit >= 2
    ensures MeasureClick(ticksPerBeat, m).start == m.start
    ensures MeasureClick(ticksPerBeat, m).timeSignature == m.timeSignature
    ensures SortedBy(MeasureClick(ticksPerBeat, m).events, EventTickKey)
    ensures multiset(MeasureClick(ticksPerBeat, m).events)
         == multiset(SS.Clicks(ticksPerBeat, m.start, m.timeSignature)) + multiset(m.events)
    ensures CountWhere(MeasureClick(ticksPerBeat, m).events, SS.IsClick)
         == SS.ClickCount(m.timeSignature) + CountWhere(m.events, SS.IsClick)
  {
    var clicks := SS.Clicks(ticksPerBeat, m.start, m.timeSignature);
    SortByIsStableSort(clicks + m.events, EventTickKey);
    SortByCount(clicks + m.events, EventTickKey, SS.IsClick);
    CountWhereAppend(clicks, m.events, SS.IsClick);
    CountWhereAll(clicks, SS.IsClick);
  }

  /** `injectClick`: every measure gets its clicks. */
  function InjectClick(ticksPerBeat: int, measures: seq<Measure>): (r: seq<Measure>)
    requires forall i :: 0 <= i < |measures| ==> measures[i].timeSignature.unit >= 2
    ensures |r| == |measures|
    ensures forall i :: 0 <= i < |r| ==> r[i] == MeasureClick(ticksPerBeat, measures[i])
  {
    seq(|measures|, i requires 0 <= i < |measures| => MeasureClick(ticksPerBeat, measures[i]))
  }

  // ---------------------------------------------------------------------------
  // Parser
  // ---------------------------------------------------------------------------

  /** `message.metaType() == MetaType.TimeSignature`. */
  function IsTimeSignature(m: MidiMessage): (r: bool)
    ensures r <==> m.TimeSignatureMessage?
  {
    MessageDecoder.MessageMetaType(m) == MessageDecoder.TimeSignatureMeta
  }

  /** Every time-signature message has a non-zero denominator, so that the measure length is defined. */
  predicate UnitsNonZero(messages: seq<MidiMessage>) {
    forall i :: 0 <= i < |messages| ==> (messages[i].TimeSignatureMessage? ==> messages[i].timeSignature.unit != 0)
  }

  /** The signature after `message`: the one it carries, if it is a time-signature message. */
  function NextTimeSignature(message: MidiMessage, currTimeSignature: TimeSignature): TimeSignature {
    if IsTimeSignature(message) then message.timeSignature else currTimeSignature
  }

  /** `nextMeasureStart(start, timeSignature)`: `start + measureTicks`. */
  function NextMeasureStart(ticksPerBeat: int, start: Tick, ts: TimeSignature): (r: Tick)
    requires ts.unit != 0
    ensures r == SS.NextMeasureStart(ticksPerBeat, start, ts, 1)
    ensures SS.Playable(ticksPerBeat, ts) ==> r.tick > start.tick
  {
    start.Plus(Tick(SS.MeasureTicks(ticksPerBeat, ts)))
  }

  /**
   * `Parser.parseRec`: a message within the current measure joins its events; any other closes the current
   * measure and opens the next one, `measureTicks` later. The signature a message carries takes effect after
   * it is placed. At the end the current measure is closed.
   */
  function ParseRec(ticksPerBeat: int, acc: seq<Measure>, currTimeSignature: TimeSignature, measureStart: Tick,
                    measure: seq<EngineEvent>, rem: seq<MidiMessage>): (r: seq<Measure>)
    requires currTimeSignature.unit != 0 && UnitsNonZero(rem)
    ensures |r| > |acc| && r[..|acc|] == acc
    decreases |rem|
  {
    if rem == [] then acc + [Measure(measureStart, currTimeSignature, measure)]
    else
      var message := rem[0];
      var nextTimeSignature := NextTimeSignature(message, currTimeSignature);
      RestNonZero(currTimeSignature, rem);
      if SS.WithinMeasure(ticksPerBeat, message.ticks, currTimeSignature, measureStart) then
        ParseRec(ticksPerBeat, acc, nextTimeSignature, measureStart, measure + [MessageEvent(message)], rem[1..])
      else
        var r := ParseRec(ticksPerBeat, acc + [Measure(measureStart, currTimeSignature, measure)], nextTimeSignature,
                          NextMeasureStart(ticksPerBeat, measureStart, currTimeSignature), [MessageEvent(message)],
                          rem[1..]);
        assert r[..|acc|] == r[..|acc| + 1][..|acc|];
        r
  }

  lemma RestNonZero(currTimeSignature: TimeSignature, rem: seq<MidiMessage>)
    requires currTimeSignature.unit != 0 && UnitsNonZero(rem) && rem != []
    ensures UnitsNonZero(rem[1..]) && NextTimeSignature(rem[0], currTimeSignature).unit != 0
  {
    forall i | 0 <= i < |rem[1..]| ensures rem[1..][i] == rem[i + 1] { }
  }

  /**
   * `measures(midiFile)`: parsing starts at the first time-signature message, with its signature; without one
   * the cast of `null` fails.
   */
  function Measures(ticksPerBeat: int, messages: seq<MidiMessage>): (r: Result<seq<Measure>>)
    requires UnitsNonZero(messages)
    ensures r.Err? <==> forall i :: 0 <= i < |messages| ==> !messages[i].TimeSignatureMessage?
    ensures r.Err? ==> r.error == ClassCast
  {
    match FindFirst(messages, IsTimeSignature)
    case None => Err(ClassCast)
    case Some(ts) =>
      assert ts.timeSignature.unit != 0 by {
        var i :| 0 <= i < |messages| && messages[i] == ts;
      }
      Ok(ParseRec(ticksPerBeat, [], ts.timeSignature, ts.ticks, [], messages))
  }

  // ---------------------------------------------------------------------------
  // What the parser guarantees
  // ---------------------------------------------------------------------------

  /** The events of the measures, measure after measure. */
  function MeasureEvents(measures: seq<Measure>): seq<EngineEvent> {
    if measures == [] then [] else MeasureEvents(measures[..|measures| - 1]) + measures[|measures| - 1].events
  }

  /** Closing one more measure appends its events. */
  lemma MeasureEventsSnoc(measures: seq<Measure>, m: Measure)
    ensures MeasureEvents(measures + [m]) == MeasureEvents(measures) + m.events
  {
    assert (measures + [m])[..|measures|] == measures;
  }

  /** Concatenating the measures' events gives the pending events and then every message, in order. */
  lemma ParseRecEvents(ticksPerBeat: int, acc: seq<Measure>, currTimeSignature: TimeSignature, measureStart: Tick,
                       measure: seq<EngineEvent>, rem: seq<MidiMessage>)
    requires currTimeSignature.unit != 0 && UnitsNonZero(rem)
    ensures MeasureEvents(ParseRec(ticksPerBeat, acc, currTimeSignature, measureStart, measure, rem))
         == MeasureEvents(acc) + measure + SS.MessageEvents(rem)
    decreases |rem|
  {
    if rem == [] {
      MeasureEventsSnoc(acc, Measure(measureStart, currTimeSignature, measure));
      assert SS.MessageEvents(rem) == [];
    } else {
      var message := rem[0];
      var nextTs := NextTimeSignature(message, currTimeSignature);
      RestNonZero(currTimeSignature, rem);
      SS.MessageEventsCons(rem);
      var e, d := [MessageEvent(message)], SS.MessageEvents(rem[1..]);
      var a := MeasureEvents(acc);
      if SS.WithinMeasure(ticksPerBeat, message.ticks, currTimeSignature, measureStart) {
        var r := ParseRec(ticksPerBeat, acc, nextTs, measureStart, measure + e, rem[1..]);
        assert ParseRec(ticksPerBeat, acc, currTimeSignature, measureStart, measure, rem) == r;
        ParseRecEvents(ticksPerBeat, acc, nextTs, measureStart, measure + e, rem[1..]);
        Regroup(a, measure, e, d);
      } else {
        var closed := Measure(measureStart, currTimeSignature, measure);
        var next := NextMeasureStart(ticksPerBeat, measureStart, currTimeSignature);
        var r := ParseRec(ticksPerBeat, acc + [closed], nextTs, next, e, rem[1..]);
        assert ParseRec(ticksPerBeat, acc, currTimeSignature, measureStart, measure, rem) == r;
        ParseRecEvents(ticksPerBeat, acc + [closed], nextTs, next, e, rem[1..]);
        MeasureEventsSnoc(acc, closed);
        AppendAssoc(a + measure, e, d);
      }
    }
  }

  lemma Regroup<T>(a: seq<T>, b: seq<T>, c: seq<T>, d: seq<T>)
    ensures a + (b + c) + d == a + b + (c + d)
  {
  }

  /** Each measure starts `measureTicks` of its own signature after the previous one. */
  ghost predicate Contiguous(ticksPerBeat: int, measures: seq<Measure>) {
    forall i :: 0 < i < |measures| ==> FollowsPrevious(ticksPerBeat, measures, i)
  }

  ghost predicate FollowsPrevious(ticksPerBeat: int, measures: seq<Measure>, i: int)
    requires 0 < i < |measures|
  {
    FollowedBy(ticksPerBeat, measures[i - 1], measures[i].start)
  }

  ghost predicate FollowedBy(ticksPerBeat: int, prev: Measure, start: Tick) {
    prev.timeSignature.unit != 0 && start == NextMeasureStart(ticksPerBeat, prev.start, prev.timeSignature)
  }

  /** Closing a measure that the last one is followed by keeps the measures contiguous. */
  lemma ContiguousSnoc(ticksPerBeat: int, measures: seq<Measure>, m: Measure)
    requires Contiguous(ticksPerBeat, measures)
    requires measures != [] ==> FollowedBy(ticksPerBeat, measures[|measures| - 1], m.start)
    ensures Contiguous(ticksPerBeat, measures + [m])
  {
    var all := measures + [m];
    forall i | 0 < i < |all| ensures FollowsPrevious(ticksPerBeat, all, i) {
      if i < |measures| {
        assert FollowsPrevious(ticksPerBeat, measures, i);
        assert all[i - 1] == measures[i - 1] && all[i] == measures[i];
      } else {
        assert all[i - 1] == measures[|measures| - 1] && all[i] == m;
      }
    }
  }

  /** Consecutive measure starts differ by exactly one measure length of the earlier measure's signature. */
  lemma ParseRecContiguous(ticksPerBeat: int, acc: seq<Measure>, currTimeSignature: TimeSignature, measureStart: Tick,
                           measure: seq<EngineEvent>, rem: seq<MidiMessage>)
    requires currTimeSignature.unit != 0 && UnitsNonZero(rem)
    requires Contiguous(ticksPerBeat, acc)
    requires acc != [] ==> FollowedBy(ticksPerBeat, acc[|acc| - 1], measureStart)
    ensures Contiguous(ticksPerBeat, ParseRec(ticksPerBeat, acc, currTimeSignature, measureStart, measure, rem))
    decreases |rem|
  {
    var closed := Measure(measureStart, currTimeSignature, measure);
    ContiguousSnoc(ticksPerBeat, acc, closed);
    if rem != [] {
      var message := rem[0];
      var nextTs := NextTimeSignature(message, currTimeSignature);
      RestNonZero(currTimeSignature, rem);
      if SS.WithinMeasure(ticksPerBeat, message.ticks, currTimeSignature, measureStart) {
        ParseRecContiguous(ticksPerBeat, acc, nextTs, measureStart, measure + [MessageEvent(message)], rem[1..]);
      } else {
        var next := NextMeasureStart(ticksPerBeat, measureStart, currTimeSignature);
        assert (acc + [closed])[|acc|] == closed;
        ParseRecContiguous(ticksPerBeat, acc + [closed], nextTs, next, [MessageEvent(message)], rem[1..]);
      }
    }
  }

  /** The first measure the call adds starts at the current measure start. */
  lemma ParseRecFirstStart(ticksPerBeat: int, acc: seq<Measure>, currTimeSignature: TimeSignature, measureStart: Tick,
                           measure: seq<EngineEvent>, rem: seq<MidiMessage>)
    requires currTimeSignature.unit != 0 && UnitsNonZero(rem)
    ensures ParseRec(ticksPerBeat, acc, currTimeSignature, measureStart, measure, rem)[|acc|].start == measureStart
    decreases |rem|
  {
    if rem != [] {
      var message := rem[0];
      var nextTs := NextTimeSignature(message, currTimeSignature);
      RestNonZero(currTimeSignature, rem);
      if SS.WithinMeasure(ticksPerBeat, message.ticks, currTimeSignature, measureStart) {
        ParseRecFirstStart(ticksPerBeat, acc, nextTs, measureStart, measure + [MessageEvent(message)], rem[1..]);
      } else {
        var closed := Measure(measureStart, currTimeSignature, measure);
        var r := ParseRec(ticksPerBeat, acc + [closed], nextTs,
                          NextMeasureStart(ticksPerBeat, measureStart, currTimeSignature), [MessageEvent(message)],
                          rem[1..]);
        assert r[|acc|] == r[..|acc| + 1][|acc|];
      }
    }
  }

  /**
   * Every measure's signature is the current one or one a time-signature message of the stream carries; the
   * signature of a message is used from the next message on.
   */
  lemma ParseRecSignatures(ticksPerBeat: int, acc: seq<Measure>, currTimeSignature: TimeSignature, measureStart: Tick,
                           measure: seq<EngineEvent>, rem: seq<MidiMessage>, q: TimeSignature -> bool)
    requires currTimeSignature.unit != 0 && UnitsNonZero(rem)
    requires (forall i :: 0 <= i < |acc| ==> q(acc[i].timeSignature)) && q(currTimeSignature)
    requires forall j :: 0 <= j < |rem| ==> rem[j].TimeSignatureMessage? ==> q(rem[j].timeSignature)
    ensures var r := ParseRec(ticksPerBeat, acc, currTimeSignature, measureStart, measure, rem);
      forall i :: 0 <= i < |r| ==> q(r[i].timeSignature)
    decreases |rem|
  {
    if rem != [] {
      var message := rem[0];
      var nextTs := NextTimeSignature(message, currTimeSignature);
      RestNonZero(currTimeSignature, rem);
      assert forall j :: 0 <= j < |rem[1..]| ==> rem[1..][j] == rem[j + 1];
      if SS.WithinMeasure(ticksPerBeat, message.ticks, currTimeSignature, measureStart) {
        ParseRecSignatures(ticksPerBeat, acc, nextTs, measureStart, measure + [MessageEvent(message)], rem[1..], q);
      } else {
        var closed := Measure(measureStart, currTimeSignature, measure);
        ParseRecSignatures(ticksPerBeat, acc + [closed], nextTs,
                           NextMeasureStart(ticksPerBeat, measureStart, currTimeSignature), [MessageEvent(message)],
                           rem[1..], q);
      }
    }
  }

  /** The time signatures the stream's time-signature messages carry. */
  ghost function Signatures(messages: seq<MidiMessage>): set<TimeSignature> {
    set j | 0 <= j < |messages| && messages[j].TimeSignatureMessage? :: messages[j].timeSignature
  }

  /** A song's measures are those `parseRec` builds from the first time-signature message on. */
  lemma MeasuresParse(ticksPerBeat: int, messages: seq<MidiMessage>)
    requires UnitsNonZero(messages) && Measures(ticksPerBeat, messages).Ok?
    ensures FindFirst(messages, IsTimeSignature).Some?
    ensures FindFirst(messages, IsTimeSignature).value.timeSignature.unit != 0
    ensures var ts := FindFirst(messages, IsTimeSignature).value;
      Measures(ticksPerBeat, messages).value == ParseRec(ticksPerBeat, [], ts.timeSignature, ts.ticks, [], messages)
  {
    var ts := FindFirst(messages, IsTimeSignature).value;
    var j :| 0 <= j < |messages| && messages[j] == ts;
  }

  /**
   * The measures of a song start at the first time-signature message, each starting one measure after the
   * previous one, each with a signature some message sets; their events are the messages, each wrapped as a
   * `MessageEvent`, in order.
   */
  lemma MeasuresSpec(ticksPerBeat: int, messages: seq<MidiMessage>)
    requires UnitsNonZero(messages) && Measures(ticksPerBeat, messages).Ok?
    ensures var ms := Measures(ticksPerBeat, messages).value;
      && |ms| >= 1
      && FindFirst(messages, IsTimeSignature).Some?
      && ms[0].start == FindFirst(messages, IsTimeSignature).value.ticks
      && Contiguous(ticksPerBeat, ms)
      && MeasureEvents(ms) == SS.MessageEvents(messages)
      && forall i :: 0 <= i < |ms| ==> ms[i].timeSignature in Signatures(messages)
  {
    MeasuresParse(ticksPerBeat, messages);
    var ts := FindFirst(messages, IsTimeSignature).value;
    var ms := ParseRec(ticksPerBeat, [], ts.timeSignature, ts.ticks, [], messages);
    assert Measures(ticksPerBeat, messages).value == ms;
    assert Contiguous(ticksPerBeat, ms) by {
      ParseRecContiguous(ticksPerBeat, [], ts.timeSignature, ts.ticks, [], messages);
    }
    assert ms[0].start == ts.ticks by {
      ParseRecFirstStart(ticksPerBeat, [], ts.timeSignature, ts.ticks, [], messages);
    }
    assert MeasureEvents(ms) == SS.MessageEvents(messages) by {
      ParseRecEvents(ticksPerBeat, [], ts.timeSignature, ts.ticks, [], messages);
      assert MeasureEvents([]) + [] + SS.MessageEvents(messages) == SS.MessageEvents(messages);
    }
    var sigs := Signatures(messages);
    assert forall i :: 0 <= i < |ms| ==> ms[i].timeSignature in sigs by {
      assert ts.timeSignature in sigs;
      ParseRecSignatures(ticksPerBeat, [], ts.timeSignature, ts.ticks, [], messages, t => t in sigs);
    }
  }
}
