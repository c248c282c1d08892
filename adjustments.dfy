/**
 * The adjustment history of the song-structure parser (`addPossibleAdjustmentEvent` and
 * `collectLatestTypeSpecificAdjustments`, identical in src/main/kotlin/midituutti/engine/SongStructure.kt
 * and engine/src/main/kotlin/midituutti/engine/SongStructure.kt).
 *
 * An adjustment is a channel message such as a program change, a controller change or a pitch-wheel
 * change. The parser keeps, per channel and per kind of adjustment, every adjustment seen so far with
 * the newest first; a measure records, per channel, the newest adjustment of each kind at or before
 * its start, so that jumping to the measure can restore the channel's state.
 */
module Adjustments {
  import opened Midi
  import opened Collections

  /** Per adjustment type, the adjustments seen so far, newest first. */
  type TypeHistory = seq<Entry<string, seq<MidiMessage>>>

  /** `Map<Int, Map<String, List<MessageEvent>>>`, keyed by channel. A `MessageEvent` is its message. */
  type History = seq<Entry<int, TypeHistory>>

  /** `Map<Int, List<MessageEvent>>`: a measure's initial adjustments per channel. */
  type InitialAdjustments = seq<Entry<int, seq<MidiMessage>>>

  /** The adjustments of `channel` and `typeId` in a history, `[]` when there are none. */
  function Lookup(h: History, channel: int, typeId: string): seq<MidiMessage> {
    Get(Get(h, channel).GetOr([]), typeId).GetOr([])
  }

  /** Both levels of the history are maps: no key twice. */
  ghost predicate WellFormed(h: History) {
    UniqueKeys(h) && forall i :: 0 <= i < |h| ==> UniqueKeys(h[i].value)
  }

  /**
   * `addPossibleAdjustmentEvent`: a channel adjustment is put in front of the list of its channel and
   * type (creating the channel's map or the type's list when missing); any other message leaves the
   * history as it is.
   */
  function AddPossibleAdjustmentEvent(h: History, message: MidiMessage): History {
    match message
    case ChannelAdjustmentMessage(_, channel, typeId, _) =>
      var channelAdjustments := Get(h, channel).GetOr([]);
      var typeAdjustments := Get(channelAdjustments, typeId).GetOr([]);
      Put(h, channel, Put(channelAdjustments, typeId, [message] + typeAdjustments))
    case _ => h
  }

  /**
   * Adding a message prepends it to exactly its own (channel, type) list and changes no other list;
   * the channel keys keep their order, a new channel being appended; a history stays well formed.
   */
  lemma AddPossibleAdjustmentEventSpec(h: History, message: MidiMessage, channel: int, typeId: string)
    requires WellFormed(h)
    ensures WellFormed(AddPossibleAdjustmentEvent(h, message))
    ensures !message.ChannelAdjustmentMessage? ==> AddPossibleAdjustmentEvent(h, message) == h
    ensures Lookup(AddPossibleAdjustmentEvent(h, message), channel, typeId)
         == if IsAdjustmentOf(message, channel, typeId) then [message] + Lookup(h, channel, typeId)
            else Lookup(h, channel, typeId)
    ensures message.ChannelAdjustmentMessage? ==>
              Keys(AddPossibleAdjustmentEvent(h, message))
              == if message.channel in Keys(h) then Keys(h) else Keys(h) + [message.channel]
  {
    if message.ChannelAdjustmentMessage? {
      AddLookup(h, message, channel, typeId);
      AddKeepsWellFormed(h, message);
    }
  }

  lemma AddLookup(h: History, message: MidiMessage, channel: int, typeId: string)
    requires message.ChannelAdjustmentMessage?
    ensures Lookup(AddPossibleAdjustmentEvent(h, message), channel, typeId)
         == if IsAdjustmentOf(message, channel, typeId) then [message] + Lookup(h, channel, typeId)
            else Lookup(h, channel, typeId)
  {
    var ch := message.channel;
    var channelAdjustments := Get(h, ch).GetOr([]);
    var typeAdjustments := Get(channelAdjustments, message.typeId).GetOr([]);
    var updated := Put(channelAdjustments, message.typeId, [message] + typeAdjustments);
    GetPut(h, ch, updated, channel);
    GetPut(channelAdjustments, message.typeId, [message] + typeAdjustments, typeId);
  }

  lemma AddKeepsWellFormed(h: History, message: MidiMessage)
    requires WellFormed(h) && message.ChannelAdjustmentMessage?
    ensures WellFormed(AddPossibleAdjustmentEvent(h, message))
  {
    var ch := message.channel;
    var channelAdjustments := Get(h, ch).GetOr([]);
    var typeAdjustments := Get(channelAdjustments, message.typeId).GetOr([]);
    var updated := Put(channelAdjustments, message.typeId, [message] + typeAdjustments);
    assert UniqueKeys(channelAdjustments) by {
      if Get(h, ch).Some? {
        var i :| 0 <= i < |h| && h[i] == Entry(ch, Get(h, ch).value);
      }
    }
    PutKeepsUniqueKeys(channelAdjustments, message.typeId, [message] + typeAdjustments);
    PutKeepsUniqueKeys(h, ch, updated);
    PutEntries(h, ch, updated);
    var r := Put(h, ch, updated);
    forall i | 0 <= i < |r| ensures UniqueKeys(r[i].value) {
      assert r[i] in r;
    }
  }

  /** The message is an adjustment of this channel and type. */
  predicate IsAdjustmentOf(message: MidiMessage, channel: int, typeId: string) {
    message.ChannelAdjustmentMessage? && message.channel == channel && message.typeId == typeId
  }

  /** `find { it.ticks() <= atOrBefore }`: the first (so, newest) adjustment at or before a tick. */
  function Find(s: seq<MidiMessage>, atOrBefore: Tick): (r: Option<MidiMessage>)
    ensures r.None? <==> forall i :: 0 <= i < |s| ==> s[i].ticks.tick > atOrBefore.tick
    ensures r.Some? ==> exists i :: 0 <= i < |s| && s[i] == r.value && s[i].ticks.tick <= atOrBefore.tick
                                    && forall j :: 0 <= j < i ==> s[j].ticks.tick > atOrBefore.tick
  {
    if s == [] then None
    else if s[0].ticks.tick <= atOrBefore.tick then Some(s[0])
    else
      var r := Find(s[1..], atOrBefore);
      assert r.Some? ==> exists i :: 0 <= i < |s[1..]| && s[1..][i] == r.value && s[1..][i].ticks.tick <= atOrBefore.tick
                                     && forall j :: 0 <= j < i ==> s[1..][j].ticks.tick > atOrBefore.tick;
      assert r.Some? ==> exists i :: 1 <= i < |s| && s[i] == r.value && s[i].ticks.tick <= atOrBefore.tick
                                     && forall j :: 1 <= j < i ==> s[j].ticks.tick > atOrBefore.tick;
      r
  }

  /** The types' `find` results that are not null, in the order of the channel's types. */
  function LatestPerType(c: TypeHistory, atOrBefore: Tick): (r: seq<MidiMessage>)
    ensures |r| <= |c|
    ensures forall i :: 0 <= i < |r| ==> r[i].ticks.tick <= atOrBefore.tick
  {
    if c == [] then []
    else
      (match Find(c[0].value, atOrBefore) case Some(e) => [e] case None => []) + LatestPerType(c[1..], atOrBefore)
  }

  /** A message is among a channel's latest adjustments exactly when it is the `find` result of one of its types. */
  lemma {:induction false} LatestPerTypeMembers(c: TypeHistory, atOrBefore: Tick, e: MidiMessage)
    ensures e in LatestPerType(c, atOrBefore) <==> exists i :: 0 <= i < |c| && Find(c[i].value, atOrBefore) == Some(e)
  {
    if c != [] {
      LatestPerTypeMembers(c[1..], atOrBefore, e);
      if exists i :: 0 <= i < |c| && Find(c[i].value, atOrBefore) == Some(e) {
        var i :| 0 <= i < |c| && Find(c[i].value, atOrBefore) == Some(e);
        if i > 0 {
          assert c[1..][i - 1] == c[i];
        }
      }
      if exists i :: 0 <= i < |c[1..]| && Find(c[1..][i].value, atOrBefore) == Some(e) {
        var i :| 0 <= i < |c[1..]| && Find(c[1..][i].value, atOrBefore) == Some(e);
        assert c[i + 1] == c[1..][i];
      }
    }
  }

  /**
   * `collectLatestTypeSpecificAdjustments`: per channel of the history (same channels, same order),
   * the newest adjustment of each type at or before `atOrBefore`; types without one contribute nothing.
   */
  function CollectLatestTypeSpecificAdjustments(h: History, atOrBefore: Tick): (r: InitialAdjustments)
    ensures Keys(r) == Keys(h)
    ensures forall i :: 0 <= i < |h| ==> r[i].value == LatestPerType(h[i].value, atOrBefore)
  {
    MapValues(h, (c: TypeHistory) => LatestPerType(c, atOrBefore))
  }

  // ---------------------------------------------------------------------------
  // The history as a function of the messages seen so far
  // ---------------------------------------------------------------------------

  /** The history after the parser has seen `messages`, starting from the empty map. */
  function HistoryOf(messages: seq<MidiMessage>): History {
    if messages == [] then []
    else AddPossibleAdjustmentEvent(HistoryOf(messages[..|messages| - 1]), messages[|messages| - 1])
  }

  /** The adjustments of a channel and type among `messages`, in input order. */
  function AdjustmentsOf(messages: seq<MidiMessage>, channel: int, typeId: string): seq<MidiMessage> {
    if messages == [] then []
    else
      AdjustmentsOf(messages[..|messages| - 1], channel, typeId)
      + (if IsAdjustmentOf(messages[|messages| - 1], channel, typeId) then [messages[|messages| - 1]] else [])
  }

  function Reversed<T>(s: seq<T>): (r: seq<T>)
    ensures |r| == |s|
  {
    if s == [] then [] else [s[|s| - 1]] + Reversed(s[..|s| - 1])
  }

  /** The last element of `s` at or before a tick: the latest adjustment in input order. */
  function LastAtOrBefore(s: seq<MidiMessage>, atOrBefore: Tick): Option<MidiMessage> {
    if s == [] then None
    else if s[|s| - 1].ticks.tick <= atOrBefore.tick then Some(s[|s| - 1])
    else LastAtOrBefore(s[..|s| - 1], atOrBefore)
  }

  /** The history built from `messages` is well formed and holds, per channel and type, its adjustments newest first. */
  lemma {:induction false} HistoryOfIsNewestFirst(messages: seq<MidiMessage>, channel: int, typeId: string)
    ensures WellFormed(HistoryOf(messages))
    ensures Lookup(HistoryOf(messages), channel, typeId) == Reversed(AdjustmentsOf(messages, channel, typeId))
  {
    if messages != [] {
      var prefix := messages[..|messages| - 1];
      var last := messages[|messages| - 1];
      var h := HistoryOf(prefix);
      assert HistoryOf(messages) == AddPossibleAdjustmentEvent(h, last);
      HistoryOfIsNewestFirst(prefix, channel, typeId);
      AddPossibleAdjustmentEventSpec(h, last, channel, typeId);
      var a := AdjustmentsOf(prefix, channel, typeId);
      if IsAdjustmentOf(last, channel, typeId) {
        assert AdjustmentsOf(messages, channel, typeId) == a + [last];
        assert (a + [last])[..|a|] == a;
        assert Reversed(a + [last]) == [last] + Reversed(a);
      } else {
        assert AdjustmentsOf(messages, channel, typeId) == a + [];
        assert a + [] == a;
      }
    }
  }

  /** `find` on a newest-first list is the latest one at or before the tick in input order. */
  lemma {:induction false} FindOnReversed(s: seq<MidiMessage>, atOrBefore: Tick)
    ensures Find(Reversed(s), atOrBefore) == LastAtOrBefore(s, atOrBefore)
  {
    if s != [] {
      FindOnReversed(s[..|s| - 1], atOrBefore);
      assert Reversed(s)[1..] == Reversed(s[..|s| - 1]);
    }
  }

  /**
   * What a measure records for a channel and type is the latest adjustment of that channel and type,
   * in input order, at or before the measure start, when the history was built from `messages`.
   */
  lemma LatestAdjustment(messages: seq<MidiMessage>, atOrBefore: Tick, channel: int, typeId: string)
    ensures Find(Lookup(HistoryOf(messages), channel, typeId), atOrBefore)
         == LastAtOrBefore(AdjustmentsOf(messages, channel, typeId), atOrBefore)
  {
    HistoryOfIsNewestFirst(messages, channel, typeId);
    FindOnReversed(AdjustmentsOf(messages, channel, typeId), atOrBefore);
  }

  /** Messages after the tick cannot change the latest adjustment at or before it. */
  lemma {:induction false} LastAtOrBeforeIgnoresLater(messages: seq<MidiMessage>, later: seq<MidiMessage>,
                                                       atOrBefore: Tick, channel: int, typeId: string)
    requires forall i :: 0 <= i < |later| ==> later[i].ticks.tick > atOrBefore.tick
    ensures LastAtOrBefore(AdjustmentsOf(messages + later, channel, typeId), atOrBefore)
         == LastAtOrBefore(AdjustmentsOf(messages, channel, typeId), atOrBefore)
  {
    if later == [] {
      assert messages + later == messages;
    } else {
      var all := messages + later;
      assert all[..|all| - 1] == messages + later[..|later| - 1];
      LastAtOrBeforeIgnoresLater(messages, later[..|later| - 1], atOrBefore, channel, typeId);
      var a := AdjustmentsOf(all[..|all| - 1], channel, typeId);
      if IsAdjustmentOf(all[|all| - 1], channel, typeId) {
        assert (a + [all[|all| - 1]])[..|a|] == a;
      } else {
        assert a + [] == a;
      }
    }
  }

  /** With every message after the first `k` later than the tick, the history of those `k` finds the latest adjustment. */
  lemma LookupIsLatest(all: seq<MidiMessage>, k: int, atOrBefore: Tick, channel: int, typeId: string)
    requires 0 <= k <= |all|
    requires forall j :: k <= j < |all| ==> all[j].ticks.tick > atOrBefore.tick
    ensures Find(Lookup(HistoryOf(all[..k]), channel, typeId), atOrBefore)
         == LastAtOrBefore(AdjustmentsOf(all, channel, typeId), atOrBefore)
  {
    TakeDrop(all, k);
    LatestAdjustment(all[..k], atOrBefore, channel, typeId);
    LastAtOrBeforeIgnoresLater(all[..k], all[k..], atOrBefore, channel, typeId);
  }

  /** A channel's latest adjustments per type are the `find` results of its lists, one per type. */
  lemma LatestPerTypeIsLookup(h: History, channel: int, c: TypeHistory, atOrBefore: Tick, e: MidiMessage)
    requires WellFormed(h) && Get(h, channel) == Some(c)
    ensures e in LatestPerType(c, atOrBefore) <==> exists typeId :: Find(Lookup(h, channel, typeId), atOrBefore) == Some(e)
  {
    var i :| 0 <= i < |h| && h[i] == Entry(channel, c);
    assert UniqueKeys(c);
    LatestPerTypeMembers(c, atOrBefore, e);
    if e in LatestPerType(c, atOrBefore) {
      var t :| 0 <= t < |c| && Find(c[t].value, atOrBefore) == Some(e);
      GetEntry(c, t);
      assert Find(Lookup(h, channel, c[t].key), atOrBefore) == Some(e);
    }
    if exists typeId :: Find(Lookup(h, channel, typeId), atOrBefore) == Some(e) {
      var typeId :| Find(Lookup(h, channel, typeId), atOrBefore) == Some(e);
      var t :| 0 <= t < |c| && c[t] == Entry(typeId, Get(c, typeId).value);
      assert Find(c[t].value, atOrBefore) == Some(e);
    }
  }

  /** A channel's collected adjustments are the `find` results of its lists, one per type. */
  lemma CollectedPerChannel(h: History, atOrBefore: Tick, channel: int, e: MidiMessage)
    requires WellFormed(h)
    ensures e in Get(CollectLatestTypeSpecificAdjustments(h, atOrBefore), channel).GetOr([])
        <==> exists typeId :: Find(Lookup(h, channel, typeId), atOrBefore) == Some(e)
  {
    GetMapValues(h, (c: TypeHistory) => LatestPerType(c, atOrBefore), channel);
    if Get(h, channel).None? {
      forall typeId ensures Find(Lookup(h, channel, typeId), atOrBefore) == None {
        assert Lookup(h, channel, typeId) == [];
      }
    } else {
      LatestPerTypeIsLookup(h, channel, Get(h, channel).value, atOrBefore, e);
    }
  }

  /**
   * What a measure records is what jumping to it must restore: when the history holds the first `k`
   * messages and every later message is after the tick, a channel's collected adjustments are exactly,
   * over its adjustment types, the latest adjustment at or before the tick in the whole input.
   */
  lemma CollectedAreLatest(all: seq<MidiMessage>, k: int, atOrBefore: Tick, channel: int, e: MidiMessage)
    requires 0 <= k <= |all|
    requires forall j :: k <= j < |all| ==> all[j].ticks.tick > atOrBefore.tick
    ensures e in Get(CollectLatestTypeSpecificAdjustments(HistoryOf(all[..k]), atOrBefore), channel).GetOr([])
        <==> exists typeId :: LastAtOrBefore(AdjustmentsOf(all, channel, typeId), atOrBefore) == Some(e)
  {
    var h := HistoryOf(all[..k]);
    HistoryOfIsNewestFirst(all[..k], channel, "");
    CollectedPerChannel(h, atOrBefore, channel, e);
    if exists typeId :: Find(Lookup(h, channel, typeId), atOrBefore) == Some(e) {
      var typeId :| Find(Lookup(h, channel, typeId), atOrBefore) == Some(e);
      LookupIsLatest(all, k, atOrBefore, channel, typeId);
    }
    if exists typeId :: LastAtOrBefore(AdjustmentsOf(all, channel, typeId), atOrBefore) == Some(e) {
      var typeId :| LastAtOrBefore(AdjustmentsOf(all, channel, typeId), atOrBefore) == Some(e);
      LookupIsLatest(all, k, atOrBefore, channel, typeId);
    }
  }
}
