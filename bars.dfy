/**
 * The Python prototype src/bars.py: `inject_bar_meta` walks a list of mido messages with delta times and,
 * whenever a message would fall past the end of the current bar, first emits a 4/4 time_signature meta
 * message at the bar line and then the message with the rest of its delta.
 *
 * A bar is `ticks_per_beat * numerator` ticks long. Before the first time_signature there is no bar
 * length, so those messages are dropped.
 */
module Bars {
  import opened Collections

  /** A mido message as `inject_bar_meta` sees it: a time_signature meta message, or any other message. */
  datatype MidoMessage =
    | TimeSignatureMeta(numerator: int, denominator: int, time: int)
    | OtherMessage(msgType: string, note: int, time: int)
  {
    /** `message.copy(time=t)`. */
    function WithTime(t: int): (r: MidoMessage)
      ensures r.time == t && r.TimeSignatureMeta? == this.TimeSignatureMeta?
    {
      match this
      case TimeSignatureMeta(n, d, _) => TimeSignatureMeta(n, d, t)
      case OtherMessage(k, note, _) => OtherMessage(k, note, t)
    }
  }

  /** The marker `inject_bar_meta` inserts at a bar line: always 4/4. */
  function BarMarker(time: int): MidoMessage {
    TimeSignatureMeta(4, 4, time)
  }

  /** `bar_ticks`: the denominator plays no part. */
  function BarTicks(ticksPerBeat: int, numerator: int, denominator: int): int {
    ticksPerBeat * numerator
  }

  /** The bar lengths `test_bar_ticks` expects. */
  lemma BarTicksExamples()
    ensures BarTicks(2, 4, 4) == 8 && BarTicks(2, 5, 4) == 10 && BarTicks(2, 7, 8) == 14
  {
  }

  /** `TimeSignature`: its bar length is fixed when it is built. */
  datatype TimeSignature = TimeSignature(numerator: int, denominator: int, barTicks: int) {
    /** `within_bar(ticks)`. */
    predicate WithinBar(ticks: int) {
      ticks < barTicks
    }

    /** `next_bar_start_delta(bar_tick)`: the ticks from `barTick` to the next bar line. */
    function NextBarStartDelta(barTick: int): int {
      barTicks - barTick
    }
  }

  function NewTimeSignature(ticksPerBeat: int, numerator: int, denominator: int): TimeSignature {
    TimeSignature(numerator, denominator, BarTicks(ticksPerBeat, numerator, denominator))
  }

  // ---------------------------------------------------------------------------
  // inject_bar_meta
  // ---------------------------------------------------------------------------

  /** The loop's variables: the output so far, the current signature (`None` before the first) and `bar_tick`. */
  datatype Injection = Injection(output: seq<MidoMessage>, timeSignature: Option<TimeSignature>, barTick: int)

  const Start: Injection := Injection([], None, 0)

  /** One iteration of the loop over `messages`. */
  function Step(ticksPerBeat: int, s: Injection, m: MidoMessage): Injection {
    if m.TimeSignatureMeta? then
      Injection(s.output + [m], Some(NewTimeSignature(ticksPerBeat, m.numerator, m.denominator)), 0)
    else if s.timeSignature.None? then
      s
    else
      var ts := s.timeSignature.value;
      if ts.WithinBar(s.barTick + m.time) then
        Injection(s.output + [m], s.timeSignature, s.barTick + m.time)
      else
        var delta := ts.NextBarStartDelta(s.barTick);
        Injection(s.output + [BarMarker(delta), m.WithTime(m.time - delta)], s.timeSignature, 0)
  }

  /** The loop run over `messages` from state `s`. */
  function Injected(ticksPerBeat: int, s: Injection, messages: seq<MidoMessage>): Injection
    decreases |messages|
  {
    if messages == [] then s
    else Step(ticksPerBeat, Injected(ticksPerBeat, s, messages[..|messages| - 1]), messages[|messages| - 1])
  }

  /** `inject_bar_meta(ticks_per_beat, messages)`. */
  method InjectBarMeta(ticksPerBeat: int, messages: seq<MidoMessage>) returns (outputMessages: seq<MidoMessage>)
    ensures outputMessages == Injected(ticksPerBeat, Start, messages).output
  {
    outputMessages := [];
    var timeSignature: Option<TimeSignature> := None;
    var barTick := 0;
    for i := 0 to |messages|
      invariant Injection(outputMessages, timeSignature, barTick) == Injected(ticksPerBeat, Start, messages[..i])
    {
      var message := messages[i];
      assert messages[..i + 1][..i] == messages[..i];
      if message.TimeSignatureMeta? {
        timeSignature := Some(NewTimeSignature(ticksPerBeat, message.numerator, message.denominator));
        outputMessages := outputMessages + [message];
        barTick := 0;
      } else if timeSignature.Some? {
        if timeSignature.value.WithinBar(barTick + message.time) {
          outputMessages := outputMessages + [message];
          barTick := barTick + message.time;
        } else {
          outputMessages := outputMessages + [BarMarker(timeSignature.value.NextBarStartDelta(barTick))];
          outputMessages := outputMessages + [message.WithTime(message.time - timeSignature.value.NextBarStartDelta(barTick))];
          barTick := 0;
        }
      }
    }
    assert messages[..|messages|] == messages;
  }

  // ---------------------------------------------------------------------------
  // What the loop promises
  // ---------------------------------------------------------------------------

  /** Running over `a + b` is running over `a` and then over `b`. */
  lemma {:induction false} InjectedAppend(ticksPerBeat: int, s: Injection, a: seq<MidoMessage>, b: seq<MidoMessage>)
    ensures Injected(ticksPerBeat, s, a + b) == Injected(ticksPerBeat, Injected(ticksPerBeat, s, a), b)
    decreases |b|
  {
    if b != [] {
      var ab := a + b;
      assert ab[..|ab| - 1] == a + b[..|b| - 1];
      assert ab[|ab| - 1] == b[|b| - 1];
      InjectedAppend(ticksPerBeat, s, a, b[..|b| - 1]);
    } else {
      assert a + b == a;
    }
  }

  ghost predicate NoTimeSignature(messages: seq<MidoMessage>) {
    forall i :: 0 <= i < |messages| ==> !messages[i].TimeSignatureMeta?
  }

  /** Before the first time_signature nothing is emitted and nothing changes. */
  lemma {:induction false} DroppedBeforeSignature(ticksPerBeat: int, prefix: seq<MidoMessage>)
    requires NoTimeSignature(prefix)
    ensures Injected(ticksPerBeat, Start, prefix) == Start
    decreases |prefix|
  {
    if prefix != [] {
      DroppedBeforeSignature(ticksPerBeat, prefix[..|prefix| - 1]);
    }
  }

  /** So the output for `prefix + rest` is the output for `rest` alone. */
  lemma OutputSkipsUnsignedPrefix(ticksPerBeat: int, prefix: seq<MidoMessage>, rest: seq<MidoMessage>)
    requires NoTimeSignature(prefix)
    ensures Injected(ticksPerBeat, Start, prefix + rest).output == Injected(ticksPerBeat, Start, rest).output
  {
    InjectedAppend(ticksPerBeat, Start, prefix, rest);
    DroppedBeforeSignature(ticksPerBeat, prefix);
  }

  /** The sum of the delta times: the time of the last message. */
  function TotalTime(messages: seq<MidoMessage>): int
    decreases |messages|
  {
    if messages == [] then 0 else TotalTime(messages[..|messages| - 1]) + messages[|messages| - 1].time
  }

  lemma {:induction false} TotalTimeAppend(a: seq<MidoMessage>, b: seq<MidoMessage>)
    ensures TotalTime(a + b) == TotalTime(a) + TotalTime(b)
    decreases |b|
  {
    if b == [] {
      assert a + b == a;
    } else {
      var ab := a + b;
      assert ab[..|ab| - 1] == a + b[..|b| - 1];
      TotalTimeAppend(a, b[..|b| - 1]);
    }
  }

  /** A single message of delta `d` adds `d` to the total. */
  lemma TotalTimeSnoc(a: seq<MidoMessage>, m: MidoMessage)
    ensures TotalTime(a + [m]) == TotalTime(a) + m.time
  {
    assert (a + [m])[..|a|] == a;
  }

  /** Once a signature is known, a marker and the rewritten message split the message's delta between them. */
  lemma StepTime(ticksPerBeat: int, s: Injection, m: MidoMessage)
    requires s.timeSignature.Some?
    ensures Step(ticksPerBeat, s, m).timeSignature.Some?
    ensures TotalTime(Step(ticksPerBeat, s, m).output) == TotalTime(s.output) + m.time
  {
    var r := Step(ticksPerBeat, s, m);
    if m.TimeSignatureMeta? || s.timeSignature.value.WithinBar(s.barTick + m.time) {
      TotalTimeSnoc(s.output, m);
    } else {
      var d := s.timeSignature.value.NextBarStartDelta(s.barTick);
      assert r.output == (s.output + [BarMarker(d)]) + [m.WithTime(m.time - d)];
      TotalTimeSnoc(s.output + [BarMarker(d)], m.WithTime(m.time - d));
      TotalTimeSnoc(s.output, BarMarker(d));
    }
  }

  /** So, once a signature is known, the output takes exactly as long as the input. */
  lemma {:induction false} TimePreserved(ticksPerBeat: int, s: Injection, messages: seq<MidoMessage>)
    requires s.timeSignature.Some?
    ensures Injected(ticksPerBeat, s, messages).timeSignature.Some?
    ensures TotalTime(Injected(ticksPerBeat, s, messages).output) == TotalTime(s.output) + TotalTime(messages)
    decreases |messages|
  {
    if messages != [] {
      var init := messages[..|messages| - 1];
      TimePreserved(ticksPerBeat, s, init);
      StepTime(ticksPerBeat, Injected(ticksPerBeat, s, init), messages[|messages| - 1]);
    }
  }

  /** Messages from the first time_signature on take as long in the output as in the input. */
  lemma OutputTime(ticksPerBeat: int, messages: seq<MidoMessage>, k: nat)
    requires k < |messages| && messages[k].TimeSignatureMeta? && NoTimeSignature(messages[..k])
    ensures TotalTime(Injected(ticksPerBeat, Start, messages).output) == TotalTime(messages[k..])
  {
    var prefix := messages[..k];
    var m := messages[k];
    var rest := messages[k + 1..];
    var s := Step(ticksPerBeat, Start, m);
    assert Injected(ticksPerBeat, Start, prefix + [m]) == s by {
      InjectedSnoc(ticksPerBeat, Start, prefix, m);
      DroppedBeforeSignature(ticksPerBeat, prefix);
    }
    SplitAt(messages, k);
    assert Injected(ticksPerBeat, Start, messages) == Injected(ticksPerBeat, s, rest) by {
      InjectedAppend(ticksPerBeat, Start, prefix + [m], rest);
    }
    assert s.output == [m] && s.timeSignature.Some?;
    assert TotalTime([m]) == m.time by {
      TotalTimeSnoc([], m);
      assert [] + [m] == [m];
    }
    TimePreserved(ticksPerBeat, s, rest);
    assert TotalTime(messages[k..]) == m.time + TotalTime(rest) by {
      TotalTimeAppend([m], rest);
    }
  }

  lemma InjectedSnoc(ticksPerBeat: int, s: Injection, messages: seq<MidoMessage>, m: MidoMessage)
    ensures Injected(ticksPerBeat, s, messages + [m]) == Step(ticksPerBeat, Injected(ticksPerBeat, s, messages), m)
  {
    assert (messages + [m])[..|messages|] == messages;
  }

  /** Every signature the input can bring has a positive bar, and no delta time is negative. */
  ghost predicate Playable(ticksPerBeat: int, messages: seq<MidoMessage>) {
    forall i :: 0 <= i < |messages| ==>
      messages[i].time >= 0
      && (messages[i].TimeSignatureMeta? ==> BarTicks(ticksPerBeat, messages[i].numerator, messages[i].denominator) > 0)
  }

  /** `bar_tick` stays inside the current bar, and no emitted delta time is negative. */
  ghost predicate InBar(s: Injection) {
    && (s.timeSignature.Some? ==> 0 <= s.barTick < s.timeSignature.value.barTicks)
    && forall i :: 0 <= i < |s.output| ==> s.output[i].time >= 0
  }

  lemma {:induction false} InBarKept(ticksPerBeat: int, s: Injection, messages: seq<MidoMessage>)
    requires InBar(s) && Playable(ticksPerBeat, messages)
    ensures InBar(Injected(ticksPerBeat, s, messages))
    decreases |messages|
  {
    if messages != [] {
      var init := messages[..|messages| - 1];
      var m := messages[|messages| - 1];
      assert Playable(ticksPerBeat, init) by {
        forall i | 0 <= i < |init| ensures init[i] == messages[i] { }
      }
      InBarKept(ticksPerBeat, s, init);
      assert m == messages[|messages| - 1];
    }
  }

  /** From the start, over well-formed input, every emitted delta time is non-negative. */
  lemma OutputTimesNonNegative(ticksPerBeat: int, messages: seq<MidoMessage>)
    requires Playable(ticksPerBeat, messages)
    ensures InBar(Injected(ticksPerBeat, Start, messages))
    ensures forall m :: m in Injected(ticksPerBeat, Start, messages).output ==> m.time >= 0
  {
    InBarKept(ticksPerBeat, Start, messages);
  }

  /**
   * What one input message contributes: a time_signature is copied; before any signature a message is
   * dropped; after one it is copied, or preceded by a single 4/4 marker that takes the part of its delta up
   * to the bar line (never more than the delta, and more than nothing when the bar is positive).
   */
  ghost predicate Emits(signed: bool, m: MidoMessage, piece: seq<MidoMessage>) {
    if m.TimeSignatureMeta? then piece == [m]
    else if !signed then piece == []
    else
      piece == [m]
      || (&& |piece| == 2
          && piece[0] == BarMarker(piece[0].time)
          && piece[1] == m.WithTime(m.time - piece[0].time))
  }

  ghost predicate SignedBefore(messages: seq<MidoMessage>, i: int) {
    exists j :: 0 <= j < i && j < |messages| && messages[j].TimeSignatureMeta?
  }

  lemma {:induction false} SignedState(ticksPerBeat: int, messages: seq<MidoMessage>)
    ensures Injected(ticksPerBeat, Start, messages).timeSignature.Some? <==> SignedBefore(messages, |messages|)
    decreases |messages|
  {
    if messages != [] {
      var init := messages[..|messages| - 1];
      SignedState(ticksPerBeat, init);
      if SignedBefore(init, |init|) {
        var j :| 0 <= j < |init| && init[j].TimeSignatureMeta?;
        assert messages[j] == init[j];
      }
      if SignedBefore(messages, |messages|) && !messages[|messages| - 1].TimeSignatureMeta? {
        var j :| 0 <= j < |messages| && messages[j].TimeSignatureMeta?;
        assert init[j] == messages[j];
      }
    }
  }

  /** The output grows message by message, each input message adding exactly the piece `Emits` allows. */
  lemma EachMessageEmits(ticksPerBeat: int, messages: seq<MidoMessage>, i: nat)
    requires i < |messages|
    ensures var before := Injected(ticksPerBeat, Start, messages[..i]).output;
            var after := Injected(ticksPerBeat, Start, messages[..i + 1]).output;
            && |before| <= |after|
            && after[..|before|] == before
            && Emits(SignedBefore(messages, i), messages[i], after[|before|..])
  {
    var p := Injected(ticksPerBeat, Start, messages[..i]);
    assert messages[..i + 1][..i] == messages[..i];
    SignedState(ticksPerBeat, messages[..i]);
    assert SignedBefore(messages[..i], i) <==> SignedBefore(messages, i) by {
      if SignedBefore(messages, i) {
        var j :| 0 <= j < i && j < |messages| && messages[j].TimeSignatureMeta?;
        assert messages[..i][j] == messages[j];
      }
    }
  }

  /** Under well-formed input an inserted marker takes a positive part of the delta and leaves a non-negative rest. */
  lemma MarkerSplitsDelta(ticksPerBeat: int, messages: seq<MidoMessage>, i: nat)
    requires i < |messages| && Playable(ticksPerBeat, messages)
    ensures var before := Injected(ticksPerBeat, Start, messages[..i]).output;
            var after := Injected(ticksPerBeat, Start, messages[..i + 1]).output;
            |after| == |before| + 2 ==> 0 < after[|before|].time <= messages[i].time
  {
    var p := Injected(ticksPerBeat, Start, messages[..i]);
    assert messages[..i + 1][..i] == messages[..i];
    assert Playable(ticksPerBeat, messages[..i]) by {
      forall j | 0 <= j < i ensures messages[..i][j] == messages[j] { }
    }
    InBarKept(ticksPerBeat, Start, messages[..i]);
  }

  // ---------------------------------------------------------------------------
  // The test fixture
  // ---------------------------------------------------------------------------

  function Note(msgType: string, time: int): MidoMessage {
    OtherMessage(msgType, 100, time)
  }

  /** `test_inject_bar_meta`: with two ticks per beat a 4/4 bar is 8 ticks, and markers go in at deltas 5 and 4. */
  lemma FixtureInjected()
    ensures Injected(2, Start, [TimeSignatureMeta(4, 4, 0), Note("note_on", 0), Note("note_off", 3),
                                Note("note_on", 5), Note("note_on", 4), Note("note_on", 6)]).output
            == [TimeSignatureMeta(4, 4, 0), Note("note_on", 0), Note("note_off", 3),
                TimeSignatureMeta(4, 4, 5), Note("note_on", 0), Note("note_on", 4),
                TimeSignatureMeta(4, 4, 4), Note("note_on", 2)]
  {
    var m0, m1, m2 := TimeSignatureMeta(4, 4, 0), Note("note_on", 0), Note("note_off", 3);
    var m3, m4, m5 := Note("note_on", 5), Note("note_on", 4), Note("note_on", 6);
    var ts := Some(TimeSignature(4, 4, 8));
    var s1 := Injection([m0], ts, 0);
    var s2 := Injection([m0, m1], ts, 0);
    var s3 := Injection([m0, m1, m2], ts, 3);
    var s4 := Injection([m0, m1, m2, BarMarker(5), m3.WithTime(0)], ts, 0);
    var s5 := Injection([m0, m1, m2, BarMarker(5), m3.WithTime(0), m4], ts, 4);
    var s6 := Injection([m0, m1, m2, BarMarker(5), m3.WithTime(0), m4, BarMarker(4), m5.WithTime(2)], ts, 0);
    var p1 := [] + [m0];
    var p2 := p1 + [m1];
    var p3 := p2 + [m2];
    var p4 := p3 + [m3];
    var p5 := p4 + [m4];
    var p6 := p5 + [m5];
    assert Injected(2, Start, p1) == s1 by {
      assert Step(2, Start, m0) == s1;
      InjectedFrom(2, [], m0, Start, s1);
    }
    assert Injected(2, Start, p2) == s2 by {
      assert Step(2, s1, m1) == s2;
      InjectedFrom(2, p1, m1, s1, s2);
    }
    assert Injected(2, Start, p3) == s3 by {
      assert Step(2, s2, m2) == s3;
      InjectedFrom(2, p2, m2, s2, s3);
    }
    assert Injected(2, Start, p4) == s4 by {
      assert Step(2, s3, m3) == s4;
      InjectedFrom(2, p3, m3, s3, s4);
    }
    assert Injected(2, Start, p5) == s5 by {
      assert Step(2, s4, m4) == s5;
      InjectedFrom(2, p4, m4, s4, s5);
    }
    assert Injected(2, Start, p6) == s6 by {
      assert Step(2, s5, m5) == s6;
      InjectedFrom(2, p5, m5, s5, s6);
    }
    assert p6 == [m0, m1, m2, m3, m4, m5];
  }

  /** A run that reached `t` on `prefix` reaches `Step(t, m)` on `prefix + [m]`. */
  lemma InjectedFrom(ticksPerBeat: int, prefix: seq<MidoMessage>, m: MidoMessage, t: Injection, u: Injection)
    requires Injected(ticksPerBeat, Start, prefix) == t && Step(ticksPerBeat, t, m) == u
    ensures Injected(ticksPerBeat, Start, prefix + [m]) == u
  {
    InjectedSnoc(ticksPerBeat, Start, prefix, m);
  }

  // ---------------------------------------------------------------------------
  // Bar lines after an inserted marker
  // ---------------------------------------------------------------------------

  /** The ticks since the last time_signature of the output: where the output stands in its last bar. */
  function SinceBar(output: seq<MidoMessage>): int
    decreases |output|
  {
    if output == [] then 0
    else if output[|output| - 1].TimeSignatureMeta? then 0
    else SinceBar(output[..|output| - 1]) + output[|output| - 1].time
  }

  /**
   * As written, the message after an inserted marker lands `delta - next_bar_start_delta` ticks into the new
   * bar, yet `bar_tick` restarts at 0: with three notes 6 ticks apart in 4/4 at two ticks per beat, the third
   * note sits 10 ticks after the last bar line of the output, past the 8-tick bar, with no marker before it.
   */
  lemma MarkerForgetsOffset()
    ensures var out := Injected(2, Start, [TimeSignatureMeta(4, 4, 0), Note("note_on", 6), Note("note_on", 6), Note("note_on", 6)]).output;
            && out == [TimeSignatureMeta(4, 4, 0), Note("note_on", 6), TimeSignatureMeta(4, 4, 2), Note("note_on", 4), Note("note_on", 6)]
            && SinceBar(out) == 10 > BarTicks(2, 4, 4)
  {
    var input := [TimeSignatureMeta(4, 4, 0), Note("note_on", 6), Note("note_on", 6), Note("note_on", 6)];
    var s0 := Start;
    assert input[..0] == [];
    var s1 := Step(2, s0, input[0]);
    InjectedSnoc(2, Start, input[..0], input[0]);
    assert input[..1] == input[..0] + [input[0]];
    var s2 := Step(2, s1, input[1]);
    InjectedSnoc(2, Start, input[..1], input[1]);
    assert input[..2] == input[..1] + [input[1]];
    var s3 := Step(2, s2, input[2]);
    InjectedSnoc(2, Start, input[..2], input[2]);
    assert input[..3] == input[..2] + [input[2]];
    var s4 := Step(2, s3, input[3]);
    InjectedSnoc(2, Start, input[..3], input[3]);
    assert input[..4] == input[..3] + [input[3]];
    assert input[..4] == input;
    var out := s4.output;
    assert out[..4] == [TimeSignatureMeta(4, 4, 0), Note("note_on", 6), TimeSignatureMeta(4, 4, 2), Note("note_on", 4)];
    assert out[..4][..3] == out[..3];
    assert SinceBar(out[..3]) == 0;
  }

  /**
   * The evident intent: a marker at every bar line a message crosses (the first one `next_bar_start_delta`
   * ticks on, the others a whole bar apart), and `bar_tick` left at where the message lands in its bar.
   */
  function CorrectedStep(ticksPerBeat: int, s: Injection, m: MidoMessage): Injection {
    if m.TimeSignatureMeta? then
      Injection(s.output + [m], Some(NewTimeSignature(ticksPerBeat, m.numerator, m.denominator)), 0)
    else if s.timeSignature.None? then
      s
    else
      var ts := s.timeSignature.value;
      if ts.WithinBar(s.barTick + m.time) || ts.barTicks <= 0 then
        Injection(s.output + [m], s.timeSignature, s.barTick + m.time)
      else
        var landing := s.barTick + m.time;
        var crossed := landing / ts.barTicks;
        var rest := landing % ts.barTicks;
        Injection(s.output + BarMarkers(ts.NextBarStartDelta(s.barTick), ts.barTicks, crossed) + [m.WithTime(rest)],
                  s.timeSignature, rest)
  }

  /** `count` markers, the first `first` ticks on and the rest a bar of `barTicks` apart. */
  function BarMarkers(first: int, barTicks: int, count: nat): (r: seq<MidoMessage>)
    ensures |r| == count
    ensures forall i :: 0 <= i < count ==> r[i] == BarMarker(if i == 0 then first else barTicks)
  {
    if count == 0 then [] else [BarMarker(first)] + seq(count - 1, _ => BarMarker(barTicks))
  }

  function CorrectedInjected(ticksPerBeat: int, s: Injection, messages: seq<MidoMessage>): Injection
    decreases |messages|
  {
    if messages == [] then s
    else CorrectedStep(ticksPerBeat, CorrectedInjected(ticksPerBeat, s, messages[..|messages| - 1]), messages[|messages| - 1])
  }

  /** `bar_tick` is where the output stands in its last bar, and that is inside the bar. */
  ghost predicate OnBarLines(s: Injection) {
    s.timeSignature.Some? ==> s.barTick == SinceBar(s.output) && 0 <= s.barTick < s.timeSignature.value.barTicks
  }

  lemma {:induction false} SinceBarAfterMarkers(prefix: seq<MidoMessage>, markers: seq<MidoMessage>, m: MidoMessage)
    requires |markers| >= 1 && markers[|markers| - 1].TimeSignatureMeta? && !m.TimeSignatureMeta?
    ensures SinceBar(prefix + markers + [m]) == m.time
  {
    var out := prefix + markers + [m];
    assert out[..|out| - 1] == prefix + markers;
  }

  lemma CorrectedStepOnBarLines(ticksPerBeat: int, s: Injection, m: MidoMessage)
    requires OnBarLines(s) && m.time >= 0
    requires m.TimeSignatureMeta? ==> BarTicks(ticksPerBeat, m.numerator, m.denominator) > 0
    ensures OnBarLines(CorrectedStep(ticksPerBeat, s, m))
  {
    var r := CorrectedStep(ticksPerBeat, s, m);
    if !m.TimeSignatureMeta? && s.timeSignature.Some? {
      var ts := s.timeSignature.value;
      if ts.WithinBar(s.barTick + m.time) {
        assert r.output[..|r.output| - 1] == s.output;
      } else {
        var landing := s.barTick + m.time;
        var markers := BarMarkers(ts.NextBarStartDelta(s.barTick), ts.barTicks, landing / ts.barTicks);
        assert landing / ts.barTicks >= 1;
        SinceBarAfterMarkers(s.output, markers, m.WithTime(landing % ts.barTicks));
      }
    }
  }

  lemma {:induction false} CorrectedOnBarLines(ticksPerBeat: int, s: Injection, messages: seq<MidoMessage>)
    requires OnBarLines(s) && Playable(ticksPerBeat, messages)
    ensures OnBarLines(CorrectedInjected(ticksPerBeat, s, messages))
    decreases |messages|
  {
    if messages != [] {
      var init := messages[..|messages| - 1];
      assert Playable(ticksPerBeat, init) by {
        forall i | 0 <= i < |init| ensures init[i] == messages[i] { }
      }
      CorrectedOnBarLines(ticksPerBeat, s, init);
      CorrectedStepOnBarLines(ticksPerBeat, CorrectedInjected(ticksPerBeat, s, init), messages[|messages| - 1]);
    }
  }

  /** The markers and the landing message of a corrected crossing take exactly the message's delta. */
  lemma {:induction false} BarMarkersTime(first: int, barTicks: int, count: nat)
    ensures TotalTime(BarMarkers(first, barTicks, count)) == if count == 0 then 0 else first + (count - 1) * barTicks
    decreases count
  {
    if count > 0 {
      var r := BarMarkers(first, barTicks, count);
      var init := r[..count - 1];
      assert init == BarMarkers(first, barTicks, count - 1);
      BarMarkersTime(first, barTicks, count - 1);
    }
  }

  /** Corrected, a crossing still splits the delta exactly: the output takes as long as the input. */
  lemma CorrectedStepTime(ticksPerBeat: int, s: Injection, m: MidoMessage)
    requires s.timeSignature.Some?
    ensures TotalTime(CorrectedStep(ticksPerBeat, s, m).output) == TotalTime(s.output) + m.time
  {
    var r := CorrectedStep(ticksPerBeat, s, m);
    var ts := s.timeSignature.value;
    if m.TimeSignatureMeta? || ts.WithinBar(s.barTick + m.time) || ts.barTicks <= 0 {
      assert r.output == s.output + [m];
      TotalTimeSnoc(s.output, m);
    } else {
      var landing := s.barTick + m.time;
      var crossed := landing / ts.barTicks;
      var markers := BarMarkers(ts.NextBarStartDelta(s.barTick), ts.barTicks, crossed);
      var last := m.WithTime(landing % ts.barTicks);
      assert r.output == (s.output + markers) + [last];
      TotalTimeSnoc(s.output + markers, last);
      TotalTimeAppend(s.output, markers);
      BarMarkersTime(ts.NextBarStartDelta(s.barTick), ts.barTicks, crossed);
      CrossingSplitsDelta(s.barTick, ts.barTicks, m.time);
    }
  }

  /** A delta that crosses `k >= 1` bar lines is the rest of the bar, `k - 1` whole bars and the remainder. */
  lemma CrossingSplitsDelta(barTick: int, barTicks: int, time: int)
    requires 0 < barTicks <= barTick + time
    ensures (barTick + time) / barTicks >= 1
    ensures (barTicks - barTick) + ((barTick + time) / barTicks - 1) * barTicks + (barTick + time) % barTicks == time
  {
    var landing := barTick + time;
    var q := landing / barTicks;
    assert q * barTicks + landing % barTicks == landing;
    assert (q - 1) * barTicks == q * barTicks - barTicks;
  }

  lemma {:induction false} CorrectedTimePreserved(ticksPerBeat: int, s: Injection, messages: seq<MidoMessage>)
    requires s.timeSignature.Some?
    ensures CorrectedInjected(ticksPerBeat, s, messages).timeSignature.Some?
    ensures TotalTime(CorrectedInjected(ticksPerBeat, s, messages).output) == TotalTime(s.output) + TotalTime(messages)
    decreases |messages|
  {
    if messages != [] {
      var init := messages[..|messages| - 1];
      CorrectedTimePreserved(ticksPerBeat, s, init);
      CorrectedStepTime(ticksPerBeat, CorrectedInjected(ticksPerBeat, s, init), messages[|messages| - 1]);
    }
  }

  lemma CorrectedSnoc(ticksPerBeat: int, s: Injection, messages: seq<MidoMessage>, m: MidoMessage)
    ensures CorrectedInjected(ticksPerBeat, s, messages + [m]) == CorrectedStep(ticksPerBeat, CorrectedInjected(ticksPerBeat, s, messages), m)
  {
    assert (messages + [m])[..|messages|] == messages;
  }

  /** Corrected, the three notes 6 ticks apart get a marker at each of the bar lines 8 and 16. */
  lemma CorrectedMarksEveryBar()
    ensures CorrectedInjected(2, Start, [TimeSignatureMeta(4, 4, 0), Note("note_on", 6), Note("note_on", 6), Note("note_on", 6)]).output
            == [TimeSignatureMeta(4, 4, 0), Note("note_on", 6), TimeSignatureMeta(4, 4, 2), Note("note_on", 4),
                TimeSignatureMeta(4, 4, 4), Note("note_on", 2)]
  {
    var input := [TimeSignatureMeta(4, 4, 0), Note("note_on", 6), Note("note_on", 6), Note("note_on", 6)];
    var s0 := Start;
    assert input[..0] == [];
    var s1 := CorrectedStep(2, s0, input[0]);
    CorrectedSnoc(2, Start, input[..0], input[0]);
    assert input[..1] == input[..0] + [input[0]];
    var s2 := CorrectedStep(2, s1, input[1]);
    CorrectedSnoc(2, Start, input[..1], input[1]);
    assert input[..2] == input[..1] + [input[1]];
    var s3 := CorrectedStep(2, s2, input[2]);
    CorrectedSnoc(2, Start, input[..2], input[2]);
    assert input[..3] == input[..2] + [input[2]];
    var s4 := CorrectedStep(2, s3, input[3]);
    CorrectedSnoc(2, Start, input[..3], input[3]);
    assert input[..4] == input[..3] + [input[3]];
    assert input[..4] == input;
  }
}
