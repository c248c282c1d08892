/**
 * The UI-side `PlayerController` of src/main/kotlin/midituutti/playerController.kt: it owns the mixer
 * (one `MixerChannel` per track, kept in insertion order) and resolves it into the gain map the engine's
 * `updateMixer` takes, where mute wins, a solo silences every other channel and volumes are scaled down
 * by the loudest one whenever one is above nominal.
 *
 * Reading the file is I/O: `load` takes the song the file was parsed into, and the port, as parameters.
 */
module Controller {
  import opened Collections
  import opened Outcomes
  import opened EngineTypes
  import opened Midi
  import SS = SongStructure
  import Engine

  /** `Map<EngineTrack, MixerChannel>`, a `LinkedHashMap`: entries in insertion order. */
  type MixerState = seq<Entry<EngineTrack, MixerChannel>>

  /** Each track is a key at most once, and every channel is stored under its own track. */
  ghost predicate WellKeyed(state: MixerState) {
    UniqueKeys(state) && TrackKeyed(state)
  }

  ghost predicate TrackKeyed(state: MixerState) {
    forall i :: 0 <= i < |state| ==> state[i].key == state[i].value.track
  }

  /** Storing a channel under its own track keeps the state well keyed. */
  lemma {:induction false} PutWellKeyed(state: MixerState, c: MixerChannel)
    requires WellKeyed(state)
    ensures WellKeyed(Put(state, c.track, c))
  {
    PutKeepsUniqueKeys(state, c.track, c);
    PutTrackKeyed(state, c);
  }

  lemma {:induction false} PutTrackKeyed(state: MixerState, c: MixerChannel)
    requires TrackKeyed(state)
    ensures TrackKeyed(Put(state, c.track, c))
  {
    if state != [] && state[0].key != c.track {
      var rest := Put(state[1..], c.track, c);
      assert Put(state, c.track, c) == [state[0]] + rest;
      PutTrackKeyed(state[1..], c);
    }
  }

  /** Putting a new key appends its entry. */
  lemma {:induction false} PutNewKey<K, V>(m: seq<Entry<K, V>>, k: K, v: V)
    requires k !in Keys(m)
    ensures Put(m, k, v) == m + [Entry(k, v)]
  {
    if m != [] {
      assert Keys(m)[0] == m[0].key;
      assert Keys(m[1..]) == Keys(m)[1..];
      PutNewKey(m[1..], k, v);
    }
  }

  /** `associateBy { it.track }`: later channels of the same track replace earlier ones in place. */
  function AssociateBy(channels: seq<MixerChannel>): (r: MixerState)
    ensures WellKeyed(r)
    decreases |channels|
  {
    if channels == [] then []
    else
      var init := AssociateBy(channels[..|channels| - 1]);
      var c := channels[|channels| - 1];
      PutWellKeyed(init, c);
      Put(init, c.track, c)
  }

  /** Channels of distinct tracks are associated one entry each, in their order. */
  lemma {:induction false} AssociateByDistinct(channels: seq<MixerChannel>)
    requires forall i, j :: 0 <= i < j < |channels| ==> channels[i].track != channels[j].track
    ensures |AssociateBy(channels)| == |channels|
    ensures forall i :: 0 <= i < |channels| ==> AssociateBy(channels)[i] == Entry(channels[i].track, channels[i])
    decreases |channels|
  {
    if channels != [] {
      var init := channels[..|channels| - 1];
      var c := channels[|channels| - 1];
      AssociateByDistinct(init);
      PutNewKey(AssociateBy(init), c.track, c);
    }
  }

  /** Channels of distinct tracks: each is found under its track, and the values are the channels in order. */
  lemma AssociatedChannels(channels: seq<MixerChannel>)
    requires forall i, j :: 0 <= i < j < |channels| ==> channels[i].track != channels[j].track
    ensures Values(AssociateBy(channels)) == channels
    ensures forall i :: 0 <= i < |channels| ==> Keys(AssociateBy(channels))[i] == channels[i].track
    ensures forall i :: 0 <= i < |channels| ==> Get(AssociateBy(channels), channels[i].track) == Some(channels[i])
  {
    AssociateByDistinct(channels);
    var m := AssociateBy(channels);
    forall i | 0 <= i < |channels|
      ensures Get(m, channels[i].track) == Some(channels[i])
    {
      GetAt(m, i);
    }
  }

  /** The channels the mixer starts from: MIDI channels 1..16 at nominal volume, and the muted click. */
  function InitialChannels(): seq<MixerChannel> {
    seq(17, i => MixerChannel(if i < 16 then MidiTrack(i + 1) else ClickTrack, 1.0, i == 16, false))
  }

  function InitialMixerState(): (r: MixerState)
    ensures WellKeyed(r)
  {
    AssociateBy(InitialChannels())
  }

  /** The initial channels are of the tracks `MidiTrack(1..16)` and then `ClickTrack`, each once. */
  lemma InitialChannelsDistinct()
    ensures |InitialChannels()| == 17
    ensures forall i :: 0 <= i < 16 ==> InitialChannels()[i].track == MidiTrack(i + 1)
    ensures InitialChannels()[16].track == ClickTrack
    ensures forall i :: 0 <= i < 17 ==> InitialChannels()[i] == NominalChannel(InitialChannels()[i].track, true)
    ensures forall i, j :: 0 <= i < j < 17 ==> InitialChannels()[i].track != InitialChannels()[j].track
  {
  }

  /** The initial mixer's tracks: the sixteen MIDI channels and then the click track. */
  lemma InitialMixerTracks()
    ensures |Keys(InitialMixerState())| == 17
    ensures forall i :: 0 <= i < 16 ==> Keys(InitialMixerState())[i] == MidiTrack(i + 1)
    ensures Keys(InitialMixerState())[16] == ClickTrack
  {
    InitialChannelsDistinct();
    AssociatedChannels(InitialChannels());
  }

  /** A channel at volume 1.0, not soloed, and muted only if it is the click track and the click starts muted. */
  function NominalChannel(track: EngineTrack, clickMuted: bool): MixerChannel {
    MixerChannel(track, 1.0, clickMuted && track == ClickTrack, false)
  }

  /** Channels of distinct tracks that all start nominal are each found, nominal, under their own track. */
  lemma AssociatedNominal(channels: seq<MixerChannel>, clickMuted: bool, t: EngineTrack)
    requires forall i, j :: 0 <= i < j < |channels| ==> channels[i].track != channels[j].track
    requires forall i :: 0 <= i < |channels| ==> channels[i] == NominalChannel(channels[i].track, clickMuted)
    requires t in Keys(AssociateBy(channels))
    ensures Get(AssociateBy(channels), t) == Some(NominalChannel(t, clickMuted))
  {
    AssociatedChannels(channels);
    var i :| 0 <= i < |channels| && Keys(AssociateBy(channels))[i] == t;
  }

  /** Every MIDI channel starts unmuted and the click track muted, all at volume 1.0 and none soloed. */
  lemma InitialMixerChannels()
    ensures forall t :: t in Keys(InitialMixerState()) ==>
              Get(InitialMixerState(), t) == Some(MixerChannel(t, 1.0, t == ClickTrack, false))
  {
    InitialChannelsDistinct();
    forall t | t in Keys(InitialMixerState())
      ensures Get(InitialMixerState(), t) == Some(MixerChannel(t, 1.0, t == ClickTrack, false))
    {
      AssociatedNominal(InitialChannels(), true, t);
    }
  }

  /** Nothing is soloed at the start. */
  lemma InitialMixerNoSolo()
    ensures !SomeSolo(Values(InitialMixerState()))
  {
    InitialChannelsDistinct();
    NominalNoSolo(InitialChannels(), true);
  }

  lemma NominalNoSolo(channels: seq<MixerChannel>, clickMuted: bool)
    requires forall i, j :: 0 <= i < j < |channels| ==> channels[i].track != channels[j].track
    requires forall i :: 0 <= i < |channels| ==> channels[i] == NominalChannel(channels[i].track, clickMuted)
    ensures !SomeSolo(Values(AssociateBy(channels)))
  {
    AssociatedChannels(channels);
  }

  // ---------------------------------------------------------------------------
  // Gain resolution (updateEngineMixer)
  // ---------------------------------------------------------------------------

  /** `maxOf(1.0, volumes.maxOrNull() ?: 1.0)`: the least bound of 1.0 and every volume. */
  function MaximumVolume(channels: seq<MixerChannel>): (r: real)
    ensures r >= 1.0
    ensures forall i :: 0 <= i < |channels| ==> channels[i].volumeAdjustment <= r
    ensures r == 1.0 || exists i :: 0 <= i < |channels| && r == channels[i].volumeAdjustment
    decreases |channels|
  {
    if channels == [] then 1.0
    else
      var m := MaximumVolume(channels[..|channels| - 1]);
      var v := channels[|channels| - 1].volumeAdjustment;
      if v > m then v else m
  }

  /** `values.filter { it.solo }.any()`. */
  function SomeSolo(channels: seq<MixerChannel>): (r: bool)
    ensures r <==> exists i :: 0 <= i < |channels| && channels[i].solo
  {
    if channels == [] then false
    else channels[0].solo || SomeSolo(channels[1..])
  }

  /** The gain of one channel: silent when muted or left out of a solo, else its volume scaled by the maximum. */
  function ResolvedVolume(c: MixerChannel, someSolo: bool, maximum: real): (r: real)
    requires maximum >= 1.0
    ensures c.muted || (someSolo && !c.solo) ==> r == 0.0
    ensures 0.0 <= c.volumeAdjustment <= maximum ==> 0.0 <= r <= 1.0
    ensures !c.muted && (!someSolo || c.solo) && c.volumeAdjustment == maximum ==> r == 1.0
  {
    if c.muted || (someSolo && !c.solo) then 0.0 else c.volumeAdjustment / maximum
  }

  /** `.map { Pair(track, volume) }.toMap()`: the last pair of a track wins. */
  function TrackVolumes(channels: seq<MixerChannel>, someSolo: bool, maximum: real): (r: map<EngineTrack, real>)
    requires maximum >= 1.0
    ensures forall t :: t in r <==> exists i :: 0 <= i < |channels| && channels[i].track == t
    decreases |channels|
  {
    if channels == [] then map[]
    else
      var c := channels[|channels| - 1];
      var init := channels[..|channels| - 1];
      assert forall i :: 0 <= i < |init| ==> init[i] == channels[i];
      TrackVolumes(init, someSolo, maximum)[c.track := ResolvedVolume(c, someSolo, maximum)]
  }

  /** A channel whose track no later channel repeats has its resolved volume in the map. */
  lemma {:induction false} TrackVolumesAt(channels: seq<MixerChannel>, someSolo: bool, maximum: real, i: nat)
    requires maximum >= 1.0
    requires i < |channels|
    requires forall j :: i < j < |channels| ==> channels[j].track != channels[i].track
    ensures TrackVolumes(channels, someSolo, maximum)[channels[i].track] == ResolvedVolume(channels[i], someSolo, maximum)
    decreases |channels|
  {
    if i < |channels| - 1 {
      var init := channels[..|channels| - 1];
      assert init[i] == channels[i];
      TrackVolumesAt(init, someSolo, maximum, i);
    }
  }

  /** The gains `updateEngineMixer` hands to the engine for a mixer state. */
  function EngineGains(state: MixerState): map<EngineTrack, real> {
    var channels := Values(state);
    TrackVolumes(channels, SomeSolo(channels), MaximumVolume(channels))
  }

  /** The volumes of a well-keyed state: every track has one, its channel's resolved volume. */
  lemma StateVolumesOf(state: MixerState, someSolo: bool, maximum: real, t: EngineTrack)
    requires WellKeyed(state) && maximum >= 1.0
    ensures t in TrackVolumes(Values(state), someSolo, maximum) <==> t in Keys(state)
    ensures t in Keys(state) ==>
              TrackVolumes(Values(state), someSolo, maximum)[t] == ResolvedVolume(Get(state, t).value, someSolo, maximum)
  {
    var channels := Values(state);
    var keys := Keys(state);
    var volumes := TrackVolumes(channels, someSolo, maximum);
    assert t in keys ==> t in volumes && volumes[t] == ResolvedVolume(Get(state, t).value, someSolo, maximum) by {
      if t in keys {
        var i :| 0 <= i < |state| && keys[i] == t;
        TrackedAt(state, i);
        GetAt(state, i);
        forall j | i < j < |channels| ensures channels[j].track != channels[i].track {
          TrackedAt(state, j);
        }
        TrackVolumesAt(channels, someSolo, maximum, i);
      }
    }
    assert t in volumes ==> t in keys by {
      if t in volumes {
        var i :| 0 <= i < |channels| && channels[i].track == t;
        TrackedAt(state, i);
      }
    }
  }

  /** In a well-keyed state the `i`-th key is the track of the `i`-th channel. */
  lemma TrackedAt(state: MixerState, i: int)
    requires WellKeyed(state) && 0 <= i < |state|
    ensures Keys(state)[i] == state[i].key && Values(state)[i] == state[i].value
    ensures Values(state)[i].track == Keys(state)[i]
  {
  }

  /** Every track of the mixer has a gain, and it is its channel's resolved volume. */
  lemma EngineGainsOf(state: MixerState, t: EngineTrack)
    requires WellKeyed(state)
    ensures t in EngineGains(state) <==> t in Keys(state)
    ensures t in Keys(state) ==>
              EngineGains(state)[t] == ResolvedVolume(Get(state, t).value, SomeSolo(Values(state)), MaximumVolume(Values(state)))
  {
    StateVolumesOf(state, SomeSolo(Values(state)), MaximumVolume(Values(state)), t);
  }

  /** A volume no louder than the maximum, scaled by it, lies in [0, 1]. */
  lemma ScaledIntoUnitRange(volume: real, maximum: real)
    requires 0.0 <= volume <= maximum && maximum >= 1.0
    ensures 0.0 <= volume / maximum <= 1.0
  {
    var q := volume / maximum;
    assert q * maximum == volume;
  }

  /** With non-negative volumes every gain lies in [0, 1]. */
  lemma GainInUnitRange(state: MixerState, t: EngineTrack)
    requires WellKeyed(state) && t in Keys(state)
    requires forall i :: 0 <= i < |state| ==> state[i].value.volumeAdjustment >= 0.0
    ensures 0.0 <= EngineGains(state)[t] <= 1.0
  {
    EngineGainsOf(state, t);
    var i :| 0 <= i < |state| && state[i] == Entry(t, Get(state, t).value);
    var c := Values(state)[i];
    assert c == state[i].value;
    var maximum := MaximumVolume(Values(state));
    if !(c.muted || (SomeSolo(Values(state)) && !c.solo)) {
      ScaledIntoUnitRange(c.volumeAdjustment, maximum);
    }
  }

  /** A muted channel is silent, whatever its volume and solo flag. */
  lemma MutedIsSilent(state: MixerState, t: EngineTrack)
    requires WellKeyed(state) && Get(state, t).Some? && Get(state, t).value.muted
    ensures EngineGains(state)[t] == 0.0
  {
    EngineGainsOf(state, t);
  }

  /** Once any channel is soloed, every channel that is not is silent. */
  lemma SoloSilencesOthers(state: MixerState, t: EngineTrack)
    requires WellKeyed(state) && Get(state, t).Some? && !Get(state, t).value.solo
    requires exists i :: 0 <= i < |state| && state[i].value.solo
    ensures EngineGains(state)[t] == 0.0
  {
    EngineGainsOf(state, t);
    var i :| 0 <= i < |state| && state[i].value.solo;
    assert Values(state)[i].solo;
  }

  /** A soloed, unmuted channel keeps its scaled volume. */
  lemma SoloedIsHeard(state: MixerState, t: EngineTrack)
    requires WellKeyed(state) && Get(state, t).Some? && Get(state, t).value.solo && !Get(state, t).value.muted
    ensures EngineGains(state)[t] == Get(state, t).value.volumeAdjustment / MaximumVolume(Values(state))
  {
    EngineGainsOf(state, t);
  }

  /** With nothing muted or soloed and no volume above nominal, every gain is the channel's volume itself. */
  lemma NominalGains(state: MixerState, t: EngineTrack)
    requires WellKeyed(state) && t in Keys(state)
    requires forall i :: 0 <= i < |state| ==> !state[i].value.muted && !state[i].value.solo && state[i].value.volumeAdjustment <= 1.0
    ensures EngineGains(state)[t] == Get(state, t).value.volumeAdjustment
  {
    EngineGainsOf(state, t);
    var channels := Values(state);
    assert MaximumVolume(channels) == 1.0;
    var i :| 0 <= i < |state| && state[i] == Entry(t, Get(state, t).value);
    assert channels[i] == state[i].value;
  }

  /** `mixerState.plus(track to channel)`: the channel's track is replaced (or added) and nothing else changes. */
  lemma UpdatedEntry(state: MixerState, c: MixerChannel, t: EngineTrack)
    requires WellKeyed(state)
    ensures WellKeyed(Put(state, c.track, c))
    ensures Get(Put(state, c.track, c), t) == if t == c.track then Some(c) else Get(state, t)
  {
    PutWellKeyed(state, c);
    GetPut(state, c.track, c, t);
  }

  // ---------------------------------------------------------------------------
  // The controller
  // ---------------------------------------------------------------------------

  /** What the engine applied to its mixer after being handed `state`'s gains. */
  function PushedMixer(mixer: map<EngineTrack, real>, state: MixerState): map<EngineTrack, real> {
    Engine.MergedMixer(mixer, EngineGains(state))
  }

  /** After a push, every track the engine and the controller both know plays at the controller's resolved gain. */
  lemma PushedGains(mixer: map<EngineTrack, real>, state: MixerState, t: EngineTrack)
    requires WellKeyed(state) && t in mixer && t in Keys(state)
    ensures Engine.GainOf(PushedMixer(mixer, state), t) == EngineGains(state)[t]
  {
    EngineGainsOf(state, t);
    Engine.MergedMixerGains(mixer, EngineGains(state), t);
  }

  class PlayerController {
    var player: Engine.PlayerControl?
    var song: Option<seq<SS.Measure>>
    var mixerState: MixerState

    /** A loaded controller holds a live player and that player's song; an empty one holds neither. */
    ghost predicate Valid()
      reads this, if player == null then {} else {player, player.player}
    {
      && WellKeyed(mixerState)
      && (player == null <==> song.None?)
      && (player != null ==> player.Valid() && song == Some(player.player.song))
    }

    constructor ()
      ensures Valid() && player == null && song == None
      ensures mixerState == InitialMixerState()
    {
      player := null;
      song := None;
      mixerState := InitialMixerState();
    }

    /**
     * `load`: a new player over the whole song replaces (and quits) the old one, the mixer as it stands is
     * pushed to it, and the song becomes the new player's.
     */
    method Load(newSong: seq<SS.Measure>, port: MidiPort)
      requires Valid()
      requires |newSong| >= 1 && SS.Numbered(newSong)
      modifies this, if player == null then {} else {player.player, player.player.port}
      ensures Valid() && player != null && fresh(player) && fresh(player.player)
      ensures song == Some(newSong) && player.player.port == port && mixerState == old(mixerState)
      ensures !player.player.playing && player.player.currentMeasure == 1 && player.player.end == Some(|newSong|)
      ensures player.player.mixerState == PushedMixer(Engine.InitialMixer(), mixerState)
      ensures old(player) != null ==>
                !old(player).player.playing
                && old(player).player.broadcast == old(player.player.broadcast) + [PlayEvent(false)]
                && Engine.Panicked(old(player.player.port.sent), old(player).player.port.sent)
    {
      var created := Engine.CreatePlayer(newSong, port, None, None);
      if player != null {
        player.Quit();
      }
      player := created;
      var _ := UpdateEngineMixer(mixerState);
      song := Some(created.player.song);
    }

    /** `togglePlay`: stop a playing player, start a stopped one; before `load` it throws. */
    method TogglePlay() returns (failure: Option<Failure>)
      requires Valid()
      modifies if player == null then {} else {player.player, player.player.port}
      ensures Valid()
      ensures failure == (if old(player) == null then Some(IllegalState) else None)
      ensures player != null ==> player.player.playing == !old(player.player.playing)
    {
      if player == null {
        return Some(IllegalState);
      }
      if player.player.playing {
        player.Stop();
      } else {
        player.Play();
      }
      return None;
    }

    /** `jump(f)`: the player's `jumpToBar`. */
    method Jump(f: int -> int) returns (failure: Option<Failure>)
      requires Valid()
      modifies if player == null then {} else {player.player, player.player.port}
      ensures Valid()
      ensures failure == (if player == null then Some(IllegalState) else None)
      ensures player != null ==>
                player.player.playing
                && player.player.currentMeasure
                   == Engine.Clamp(f(old(player.player.currentMeasure)), player.player.start, player.player.end.value)
    {
      if player == null {
        return Some(IllegalState);
      }
      player.JumpToBar(f);
      return None;
    }

    /** `resetMeasureRange(range)`: the player's `resetMeasureRange`. */
    method ResetMeasureRange(range: (int, int)) returns (failure: Option<Failure>)
      requires Valid()
      requires player != null ==> 1 <= range.0 <= range.1 <= player.player.song[|player.player.song| - 1].number
      modifies if player == null then {} else {player.player, player.player.port}
      ensures Valid()
      ensures failure == (if player == null then Some(IllegalState) else None)
      ensures player != null ==>
                player.player.start == range.0 && player.player.end == Some(range.1)
                && player.player.currentMeasure == range.0 && player.player.playing == old(player.player.playing)
    {
      if player == null {
        return Some(IllegalState);
      }
      player.ResetMeasureRange(range.0, range.1);
      return None;
    }

    /** `setTempoModifier(f)`: the player's `setTempoModifier`. */
    method SetTempoModifier(f: Tempo -> Tempo) returns (failure: Option<Failure>)
      requires Valid()
      modifies if player == null then {} else {player.player}
      ensures Valid()
      ensures failure == (if player == null then Some(IllegalState) else None)
      ensures player != null ==> player.player.tempoModifier == f && player.player.tempo == old(player.player.tempo)
    {
      if player == null {
        return Some(IllegalState);
      }
      player.SetTempoModifier(f);
      return None;
    }

    /** `song()`: the loaded song, or IllegalStateException before `load`. */
    function Song(): (r: Result<seq<SS.Measure>>)
      reads this
      ensures r.Ok? <==> song.Some?
      ensures r.Ok? ==> song == Some(r.value)
      ensures r.Err? ==> r.error == IllegalState
    {
      if song.Some? then Ok(song.value) else Err(IllegalState)
    }

    /** `mixerChannelState(track)`: `getValue` throws NoSuchElementException for a track the mixer does not hold. */
    function MixerChannelState(track: EngineTrack): (r: Result<MixerChannel>)
      reads this
      ensures r.Ok? <==> track in Keys(mixerState)
      ensures r.Ok? ==> Entry(track, r.value) in mixerState
      ensures r.Err? ==> r.error == NoSuchElement
    {
      match Get(mixerState, track)
      case Some(c) => Ok(c)
      case None => Err(NoSuchElement)
    }

    /** `updateEngineMixer(state)`: the resolved gains go to the player's `updateMixer`. */
    method UpdateEngineMixer(state: MixerState) returns (failure: Option<Failure>)
      requires player != null ==> player.Valid()
      modifies if player == null then {} else {player.player}
      ensures failure == (if player == null then Some(IllegalState) else None)
      ensures player != null ==>
                && player.Valid()
                && player.player.mixerState == PushedMixer(old(player.player.mixerState), state)
                && player.player.playing == old(player.player.playing)
                && player.player.currentMeasure == old(player.player.currentMeasure)
                && player.player.end == old(player.player.end)
    {
      if player == null {
        return Some(IllegalState);
      }
      player.UpdateMixer(EngineGains(state));
      return None;
    }

    /**
     * `updateMixerChannel(track, update)`: the track's channel is looked up, updated, stored under the
     * updated channel's track, and the engine is given the new gains before the mixer state is replaced, so
     * a failure of either step leaves the mixer as it was.
     */
    method UpdateMixerChannel(track: EngineTrack, update: MixerChannel -> MixerChannel) returns (failure: Option<Failure>)
      requires Valid()
      modifies this, if player == null then {} else {player.player}
      ensures Valid() && player == old(player) && song == old(song)
      ensures track !in Keys(old(mixerState)) ==> failure == Some(NoSuchElement) && mixerState == old(mixerState)
      ensures track in Keys(old(mixerState)) && player == null ==> failure == Some(IllegalState) && mixerState == old(mixerState)
      ensures track in Keys(old(mixerState)) && player != null ==>
                var c := update(Get(old(mixerState), track).value);
                && failure == None
                && mixerState == Put(old(mixerState), c.track, c)
                && player.player.mixerState == PushedMixer(old(player.player.mixerState), mixerState)
    {
      var current := MixerChannelState(track);
      if current.Err? {
        return Some(current.error);
      }
      assert current.value == Get(mixerState, track).value;
      var c := update(current.value);
      var newMixerState := Put(mixerState, c.track, c);
      PutWellKeyed(mixerState, c);
      failure := UpdateEngineMixer(newMixerState);
      if failure.Some? {
        return;
      }
      mixerState := newMixerState;
    }
  }
}

/**
 * The `PlayerController` of app/src/main/kotlin/midituutti/playerController.kt: every track starts
 * unmuted, mute and unmute are the player's own, and `updateMixer` resolves gains from mute and volume
 * alone, ignoring the solo flag.
 *
 * The player interface this controller calls (`mute`, `isMuted` and `updateMixer` together) is not part of
 * this model's sources, so `AppPlayer` is a minimal class holding just the state those calls touch.
 */
module AppController {
  import opened Collections
  import opened Outcomes
  import opened EngineTypes
  import opened Midi
  import SS = SongStructure
  import Controller

  /** `val drumTrack = MidiTrack(10)`. */
  const DrumTrack: EngineTrack := MidiTrack(10)

  /** The player as the app controller sees it: playing or not, its muted tracks and the gains it was handed. */
  class AppPlayer {
    const song: seq<SS.Measure>
    var playing: bool
    var mutedTracks: set<EngineTrack>
    var gains: map<EngineTrack, real>

    constructor (song: seq<SS.Measure>)
      ensures this.song == song && !playing && mutedTracks == {} && gains == map[]
    {
      this.song := song;
      playing := false;
      mutedTracks := {};
      gains := map[];
    }

    function IsMuted(track: EngineTrack): bool
      reads this
    {
      track in mutedTracks
    }

    method Mute(track: EngineTrack)
      modifies this
      ensures mutedTracks == old(mutedTracks) + {track}
      ensures playing == old(playing) && gains == old(gains)
    {
      mutedTracks := mutedTracks + {track};
    }

    method UnMute(track: EngineTrack)
      modifies this
      ensures mutedTracks == old(mutedTracks) - {track}
      ensures playing == old(playing) && gains == old(gains)
    {
      mutedTracks := mutedTracks - {track};
    }

    method Play()
      modifies this
      ensures playing && mutedTracks == old(mutedTracks) && gains == old(gains)
    {
      playing := true;
    }

    method Stop()
      modifies this
      ensures !playing && mutedTracks == old(mutedTracks) && gains == old(gains)
    {
      playing := false;
    }

    method UpdateMixer(state: map<EngineTrack, real>)
      modifies this
      ensures gains == state && playing == old(playing) && mutedTracks == old(mutedTracks)
    {
      gains := state;
    }
  }

  /** `(1..16).map { MidiTrack(it) } + ClickTrack`, each as an unmuted, unsoloed channel at 1.0. */
  function InitialChannels(): seq<MixerChannel> {
    seq(17, i => MixerChannel(if i < 16 then MidiTrack(i + 1) else ClickTrack, 1.0, false, false))
  }

  function InitialMixerState(): (r: Controller.MixerState)
    ensures Controller.WellKeyed(r)
  {
    Controller.AssociateBy(InitialChannels())
  }

  lemma InitialChannelsDistinct()
    ensures |InitialChannels()| == 17
    ensures forall i :: 0 <= i < 16 ==> InitialChannels()[i].track == MidiTrack(i + 1)
    ensures InitialChannels()[16].track == ClickTrack
    ensures forall i :: 0 <= i < 17 ==> InitialChannels()[i] == Controller.NominalChannel(InitialChannels()[i].track, false)
    ensures forall i, j :: 0 <= i < j < 17 ==> InitialChannels()[i].track != InitialChannels()[j].track
  {
  }

  /** All seventeen tracks: MIDI channels 1..16 and then the click. */
  lemma InitialMixerTracks()
    ensures |Keys(InitialMixerState())| == 17
    ensures forall i :: 0 <= i < 16 ==> Keys(InitialMixerState())[i] == MidiTrack(i + 1)
    ensures Keys(InitialMixerState())[16] == ClickTrack
  {
    InitialChannelsDistinct();
    Controller.AssociatedChannels(InitialChannels());
  }

  /** Every track starts at volume 1.0, unmuted and not soloed. */
  lemma InitialMixerChannels()
    ensures forall t :: t in Keys(InitialMixerState()) ==> Get(InitialMixerState(), t) == Some(MixerChannel(t, 1.0, false, false))
  {
    InitialChannelsDistinct();
    forall t | t in Keys(InitialMixerState())
      ensures Get(InitialMixerState(), t) == Some(MixerChannel(t, 1.0, false, false))
    {
      Controller.AssociatedNominal(InitialChannels(), false, t);
    }
  }

  /** The gains `updateMixer` hands to the player: mute silences, every other track is scaled by the maximum. */
  function MuteGains(state: Controller.MixerState): map<EngineTrack, real> {
    var channels := Values(state);
    Controller.TrackVolumes(channels, false, Controller.MaximumVolume(channels))
  }

  /** Every track of the mixer gets a gain: 0 when muted, otherwise its volume over the maximum volume. */
  lemma MuteGainsOf(state: Controller.MixerState, t: EngineTrack)
    requires Controller.WellKeyed(state)
    ensures t in MuteGains(state) <==> t in Keys(state)
    ensures t in Keys(state) ==>
              var c := Get(state, t).value;
              MuteGains(state)[t] == if c.muted then 0.0 else c.volumeAdjustment / Controller.MaximumVolume(Values(state))
  {
    Controller.StateVolumesOf(state, false, Controller.MaximumVolume(Values(state)), t);
  }

  /** With a non-negative volume a track's gain lies in [0, 1]; the solo flags play no part. */
  lemma MuteGainInUnitRange(state: Controller.MixerState, t: EngineTrack)
    requires Controller.WellKeyed(state) && t in Keys(state) && Get(state, t).value.volumeAdjustment >= 0.0
    ensures 0.0 <= MuteGains(state)[t] <= 1.0
  {
    MuteGainsOf(state, t);
    var c := Get(state, t).value;
    var i :| 0 <= i < |state| && state[i] == Entry(t, c);
    assert Values(state)[i] == c;
    if !c.muted {
      Controller.ScaledIntoUnitRange(c.volumeAdjustment, Controller.MaximumVolume(Values(state)));
    }
  }

  class PlayerController {
    var player: AppPlayer?
    var song: Option<seq<SS.Measure>>
    var mixerState: Controller.MixerState

    ghost predicate Valid()
      reads this, player
    {
      && Controller.WellKeyed(mixerState)
      && (player == null <==> song.None?)
      && (player != null ==> song == Some(player.song))
    }

    constructor ()
      ensures Valid() && player == null && song == None
      ensures mixerState == InitialMixerState()
    {
      player := null;
      song := None;
      mixerState := InitialMixerState();
    }

    /**
     * `load`: the new player (created by the engine from the file) replaces the old one, which is quit;
     * the click is muted and the drum track unmuted, and the song becomes the new player's.
     */
    method Load(created: AppPlayer)
      requires Valid() && created != player
      modifies this, player, created
      ensures Valid() && player == created && song == Some(created.song) && mixerState == old(mixerState)
      ensures old(player) != null ==> !old(player).playing
      ensures created.mutedTracks == old(created.mutedTracks) + {ClickTrack} - {DrumTrack}
      ensures created.gains == old(created.gains)
    {
      if player != null {
        player.Stop();
      }
      player := created;
      player.Mute(ClickTrack);
      player.UnMute(DrumTrack);
      song := Some(created.song);
    }

    /** `togglePlay`. */
    method TogglePlay() returns (failure: Option<Failure>)
      requires Valid()
      modifies player
      ensures Valid()
      ensures failure == (if player == null then Some(IllegalState) else None)
      ensures player != null ==> player.playing == !old(player.playing) && player.mutedTracks == old(player.mutedTracks)
    {
      if player == null {
        return Some(IllegalState);
      }
      if player.playing {
        player.Stop();
      } else {
        player.Play();
      }
      return None;
    }

    /** `toggleTrack(track)`: a muted track is unmuted and any other one muted. */
    method ToggleTrack(track: EngineTrack) returns (failure: Option<Failure>)
      requires Valid()
      modifies player
      ensures Valid()
      ensures failure == (if player == null then Some(IllegalState) else None)
      ensures player != null ==>
                (player.IsMuted(track) <==> !old(player.IsMuted(track)))
                && forall t :: t != track ==> (player.IsMuted(t) <==> old(player.IsMuted(t)))
    {
      if player == null {
        return Some(IllegalState);
      }
      if player.IsMuted(track) {
        player.UnMute(track);
      } else {
        player.Mute(track);
      }
      return None;
    }

    /** `toggleClick`: `toggleTrack` of the click track. */
    method ToggleClick() returns (failure: Option<Failure>)
      requires Valid()
      modifies player
      ensures Valid()
      ensures failure == (if player == null then Some(IllegalState) else None)
      ensures player != null ==>
                (player.IsMuted(ClickTrack) <==> !old(player.IsMuted(ClickTrack)))
                && forall t :: t != ClickTrack ==> (player.IsMuted(t) <==> old(player.IsMuted(t)))
    {
      if player == null {
        return Some(IllegalState);
      }
      if player.IsMuted(ClickTrack) {
        player.UnMute(ClickTrack);
      } else {
        player.Mute(ClickTrack);
      }
      return None;
    }

    /** `song()`: the loaded song, or IllegalStateException before `load`. */
    function Song(): (r: Result<seq<SS.Measure>>)
      reads this
      ensures r.Ok? <==> song.Some?
      ensures r.Ok? ==> song == Some(r.value)
      ensures r.Err? ==> r.error == IllegalState
    {
      if song.Some? then Ok(song.value) else Err(IllegalState)
    }

    /**
     * `updateMixer(channel)`: the channel is stored under its track, the player is given the resolved gains
     * of the new state, and only then is the state replaced; before `load` nothing changes.
     */
    method UpdateMixer(c: MixerChannel) returns (failure: Option<Failure>)
      requires Valid()
      modifies this, player
      ensures Valid() && player == old(player) && song == old(song)
      ensures player == null ==> failure == Some(IllegalState) && mixerState == old(mixerState)
      ensures player != null ==>
                && failure == None
                && mixerState == Put(old(mixerState), c.track, c)
                && player.gains == MuteGains(mixerState)
                && player.mutedTracks == old(player.mutedTracks) && player.playing == old(player.playing)
    {
      var newMixerState := Put(mixerState, c.track, c);
      if player == null {
        return Some(IllegalState);
      }
      Controller.PutWellKeyed(mixerState, c);
      player.UpdateMixer(MuteGains(newMixerState));
      mixerState := newMixerState;
      return None;
    }
  }
}
