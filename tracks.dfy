/**
 * The pieces of the playback engine that are plain values: the commands the
 * engine sends to audio handles, the bundled asset map, and the functions
 * that describe what one pass of a loop over the active tracks does.
 */
module Tracks {
  import opened Types
  import opened Seqs
  import opened Sounds

  /**
   * A call on the platform's audio library, as recorded by the engine.
   * `Create` loads a file into a fresh handle with the given start flag,
   * looping flag and volume.
   */
  datatype Command =
    | Create(handle: Handle, fileName: string, shouldPlay: bool, looping: bool, volume: real)
    | Play(handle: Handle)
    | Pause(handle: Handle)
    | Stop(handle: Handle)
    | Unload(handle: Handle)
    | SetVolume(handle: Handle, volume: real)

  /** The file names the bundler maps to an audio asset. */
  const AUDIO_ASSETS: seq<string> := [
    "ocean_waves.mp3", "rain_light.mp3", "forest_birds.mp3", "rain_thunder.mp3",
    "night_crickets.mp3", "flowing_water.mp3", "wind_chimes.mp3", "coffee_shop.mp3",
    "fireplace.mp3", "city_rain.mp3", "white_noise.mp3", "brown_noise.mp3",
    "tibetan_bowls.mp3", "ambient_drone.mp3", "om_chanting.mp3", "gentle_piano.mp3",
    "deep_breathing.mp3", "alpha_waves.mp3"
  ]

  /** `this.audioAssets[fileName]` is defined. */
  predicate HasAsset(fileName: string)
  {
    fileName in AUDIO_ASSETS
  }

  /** Where the asset map holds the file of the `k`-th catalog sound. */
  function AssetIndex(k: nat): (j: nat)
    requires k < |SOUNDS|
    ensures j < |AUDIO_ASSETS| && AUDIO_ASSETS[j] == SOUNDS[k].fileName
  {
    [0, 1, 2, 10, 7, 11, 3, 4, 8, 5, 9, 6, 12, 13, 14, 15, 16, 17][k]
  }

  /** Every catalog sound has a bundled asset, so no catalog sound falls back to simulation for want of one. */
  lemma CatalogAssetsAvailable()
    ensures forall k :: 0 <= k < |SOUNDS| ==> HasAsset(SOUNDS[k].fileName)
  {
    forall k | 0 <= k < |SOUNDS| ensures HasAsset(SOUNDS[k].fileName) {
      var j := AssetIndex(k);
    }
  }

  // ------------------------------------------------------------ track lists

  /** The ids of the active tracks, in order. */
  function TrackIds(tracks: seq<ActiveSound>): (r: seq<string>)
    ensures |r| == |tracks|
    ensures forall i :: 0 <= i < |tracks| ==> r[i] == tracks[i].id
  {
    if tracks == [] then [] else TrackIds(tracks[..|tracks| - 1]) + [tracks[|tracks| - 1].id]
  }

  /** `activeSounds.findIndex(as => as.id === id)`. */
  function TrackIndex(tracks: seq<ActiveSound>, id: string): (r: Option<nat>)
    ensures r.Some? ==> r.value < |tracks| && tracks[r.value].id == id
    ensures r.Some? ==> forall j :: 0 <= j < r.value ==> tracks[j].id != id
    ensures r.None? <==> id !in TrackIds(tracks)
  {
    FindIndex(tracks, (e: ActiveSound) => e.id == id)
  }

  /** No track holds a handle, as in simulation mode. */
  predicate NoHandles(tracks: seq<ActiveSound>)
  {
    forall i :: 0 <= i < |tracks| ==> tracks[i].sound.None?
  }

  /** What a loop over the tracks does to each handle it finds. */
  datatype TrackOp = PlayOp | PauseOp | ReleaseOp | VolumeOp(factor: real)

  /** A track or file volume scaled by the mix volume, as the engine hands it to a handle. */
  function Scaled(volume: real, factor: real): real
  {
    volume * factor
  }

  /** The calls the loop makes on the handle `h` of track `e`. */
  function OpCommands(h: Handle, e: ActiveSound, op: TrackOp): seq<Command>
  {
    match op
    case PlayOp => [Play(h)]
    case PauseOp => [Pause(h)]
    case ReleaseOp => [Stop(h), Unload(h)]
    case VolumeOp(f) => [SetVolume(h, Scaled(e.volume, f))]
  }

  /** The calls a loop over `tracks` makes, in track order; tracks without a handle are skipped. */
  function TrackCommands(tracks: seq<ActiveSound>, op: TrackOp): (r: seq<Command>)
    ensures NoHandles(tracks) ==> r == []
  {
    if tracks == [] then []
    else
      var e := tracks[|tracks| - 1];
      TrackCommands(tracks[..|tracks| - 1], op) + (if e.sound.Some? then OpCommands(e.sound.value, e, op) else [])
  }

  /** Every call the loop makes belongs to some handled track: the loop invents nothing. */
  lemma {:induction false} TrackCommandsSound(tracks: seq<ActiveSound>, op: TrackOp, c: Command)
    requires c in TrackCommands(tracks, op)
    ensures exists i :: 0 <= i < |tracks| && tracks[i].sound.Some? && c in OpCommands(tracks[i].sound.value, tracks[i], op)
  {
    var init := tracks[..|tracks| - 1];
    var e := tracks[|tracks| - 1];
    if c in TrackCommands(init, op) {
      TrackCommandsSound(init, op, c);
      var i :| 0 <= i < |init| && init[i].sound.Some? && c in OpCommands(init[i].sound.value, init[i], op);
      assert init[i] == tracks[i];
    } else {
      assert e == tracks[|tracks| - 1];
    }
  }

  /** Every handled track gets its calls: the loop misses no track. */
  lemma {:induction false} TrackCommandsComplete(tracks: seq<ActiveSound>, op: TrackOp, i: nat)
    requires i < |tracks| && tracks[i].sound.Some?
    ensures forall c :: c in OpCommands(tracks[i].sound.value, tracks[i], op) ==> c in TrackCommands(tracks, op)
  {
    var init := tracks[..|tracks| - 1];
    if i < |tracks| - 1 {
      TrackCommandsComplete(init, op, i);
    }
  }

  /** Under a volume loop, the volume sent to a track's handle is the track's volume times the factor. */
  lemma {:induction false} VolumeCommandsScale(tracks: seq<ActiveSound>, factor: real, h: Handle, v: real)
    requires SetVolume(h, v) in TrackCommands(tracks, VolumeOp(factor))
    ensures exists i :: 0 <= i < |tracks| && tracks[i].sound == Some(h) && v == Scaled(tracks[i].volume, factor)
  {
    TrackCommandsSound(tracks, VolumeOp(factor), SetVolume(h, v));
    var i :| 0 <= i < |tracks| && tracks[i].sound.Some? &&
             SetVolume(h, v) in OpCommands(tracks[i].sound.value, tracks[i], VolumeOp(factor));
    var e := tracks[i];
    assert OpCommands(e.sound.value, e, VolumeOp(factor))[0] == SetVolume(e.sound.value, Scaled(e.volume, factor));
  }

  /** `tracks[..i + 1]`'s commands are `tracks[..i]`'s followed by the `i`-th track's. */
  lemma TrackCommandsSnoc(tracks: seq<ActiveSound>, op: TrackOp, i: nat)
    requires i < |tracks|
    ensures TrackCommands(tracks[..i + 1], op) ==
            TrackCommands(tracks[..i], op) +
            (if tracks[i].sound.Some? then OpCommands(tracks[i].sound.value, tracks[i], op) else [])
  {
    assert tracks[..i + 1][..i] == tracks[..i];
  }

  /**
   * The `for (const activeSound of activeSounds)` loop that sends `op` to
   * every track holding a handle; a simulated engine sends nothing.
   */
  method SendToTracks(tracks: seq<ActiveSound>, op: TrackOp, simulated: bool) returns (sent: seq<Command>)
    ensures sent == if simulated then [] else TrackCommands(tracks, op)
  {
    sent := [];
    var i := 0;
    while i < |tracks|
      invariant 0 <= i <= |tracks|
      invariant sent == if simulated then [] else TrackCommands(tracks[..i], op)
    {
      TrackCommandsSnoc(tracks, op, i);
      if tracks[i].sound.Some? && !simulated {
        sent := sent + OpCommands(tracks[i].sound.value, tracks[i], op);
      }
      i := i + 1;
    }
    assert tracks[..i] == tracks;
  }

  /** The tracks after `activeSound.isPlaying = b` for each of them. */
  function SetAllPlaying(tracks: seq<ActiveSound>, b: bool): (r: seq<ActiveSound>)
    ensures |r| == |tracks|
    ensures forall i :: 0 <= i < |r| ==> r[i].isPlaying == b && r[i].id == tracks[i].id
    ensures forall i :: 0 <= i < |r| ==>
              r[i].sound == tracks[i].sound && r[i].volume == tracks[i].volume && r[i].soundData == tracks[i].soundData
  {
    var r := seq(|tracks|, i requires 0 <= i < |tracks| => tracks[i].(isPlaying := b));
    assert forall i :: 0 <= i < |r| ==> r[i].id == tracks[i].id;
    r
  }

  // ------------------------------------------------------------ mixes

  /** The sound ids of a mix, in listed order. */
  function MixIds(sounds: seq<MixSound>): (r: seq<string>)
    ensures |r| == |sounds|
    ensures forall i :: 0 <= i < |sounds| ==> r[i] == sounds[i].soundId
  {
    if sounds == [] then [] else MixIds(sounds[..|sounds| - 1]) + [sounds[|sounds| - 1].soundId]
  }

  /** The volume of the last listed occurrence of `id` in a mix (0 when absent). */
  function LastVolume(sounds: seq<MixSound>, id: string): real
  {
    if sounds == [] then 0.0
    else if sounds[|sounds| - 1].soundId == id then sounds[|sounds| - 1].volume
    else LastVolume(sounds[..|sounds| - 1], id)
  }

  /** `LastVolume` is the volume at the last position listing `id`. */
  lemma {:induction false} LastVolumeSpec(sounds: seq<MixSound>, id: string)
    requires id in MixIds(sounds)
    ensures exists k :: 0 <= k < |sounds| && sounds[k].soundId == id && LastVolume(sounds, id) == sounds[k].volume &&
                        forall j :: k < j < |sounds| ==> sounds[j].soundId != id
  {
    var n := |sounds| - 1;
    if sounds[n].soundId != id {
      var init := sounds[..n];
      var w :| 0 <= w < |sounds| && MixIds(sounds)[w] == id;
      assert w < n;
      assert MixIds(init)[w] == id;
      LastVolumeSpec(init, id);
      var k :| 0 <= k < |init| && init[k].soundId == id && LastVolume(init, id) == init[k].volume &&
               forall j :: k < j < |init| ==> init[j].soundId != id;
      assert sounds[k] == init[k];
    }
  }

  /** What `simulateMixPlayback` pushes for one listed sound: an unhandled, playing track. */
  function SimulatedTrack(ms: MixSound, soundData: Sound, now: int): ActiveSound
  {
    ActiveSound(ms.soundId, None, ms.volume, soundData, true, 0, now)
  }

  /**
   * The tracks `simulateMixPlayback` builds: one per listed sound that
   * `lookup` (the catalog's `getSoundById`) knows, duplicates included.
   */
  function SimulatedTracks(sounds: seq<MixSound>, lookup: string -> Option<Sound>, now: int): seq<ActiveSound>
  {
    if sounds == [] then []
    else
      var init := SimulatedTracks(sounds[..|sounds| - 1], lookup, now);
      var ms := sounds[|sounds| - 1];
      var sd := lookup(ms.soundId);
      if sd.Some? then init + [SimulatedTrack(ms, sd.value, now)] else init
  }

  /** The simulated tracks are exactly the listed sounds the catalog knows, in listed order. */
  lemma {:induction false} SimulatedTrackIds(sounds: seq<MixSound>, lookup: string -> Option<Sound>, now: int)
    ensures TrackIds(SimulatedTracks(sounds, lookup, now)) == Filter(MixIds(sounds), (id: string) => lookup(id).Some?)
  {
    if sounds != [] {
      var n := |sounds| - 1;
      var init := sounds[..n];
      var p := (id: string) => lookup(id).Some?;
      SimulatedTrackIds(init, lookup, now);
      assert MixIds(sounds) == MixIds(init) + [sounds[n].soundId];
      FilterAppend(MixIds(init), [sounds[n].soundId], p);
      var t := SimulatedTracks(init, lookup, now);
      if p(sounds[n].soundId) {
        var e := SimulatedTrack(sounds[n], lookup(sounds[n].soundId).value, now);
        assert (t + [e])[..|t|] == t;
      }
    }
  }

  /**
   * Each simulated track is what the catalog says of its id, at one of its
   * listed volumes, without a handle, playing from position 0 since `now`.
   */
  lemma {:induction false} SimulatedTracksFields(sounds: seq<MixSound>, lookup: string -> Option<Sound>, now: int)
    ensures NoHandles(SimulatedTracks(sounds, lookup, now))
    ensures forall i :: 0 <= i < |SimulatedTracks(sounds, lookup, now)| ==>
              var e := SimulatedTracks(sounds, lookup, now)[i];
              e.isPlaying && e.position == 0 && e.startTime == now && lookup(e.id) == Some(e.soundData) &&
              exists k :: 0 <= k < |sounds| && sounds[k] == MixSound(e.id, e.volume)
  {
    if sounds != [] {
      var n := |sounds| - 1;
      var init := sounds[..n];
      SimulatedTracksFields(init, lookup, now);
      var t := SimulatedTracks(init, lookup, now);
      forall i | 0 <= i < |t| ensures exists k :: 0 <= k < |sounds| && sounds[k] == MixSound(t[i].id, t[i].volume) {
        var k :| 0 <= k < |init| && init[k] == MixSound(t[i].id, t[i].volume);
        assert sounds[k] == init[k];
      }
    }
  }

  /**
   * Whether a loop over a mix may add a fresh track for `id`: a simulated
   * engine always may; a real one only for a sound `lookup` knows and whose
   * file `hasAsset` accepts.
   */
  predicate Admits(simulated: bool, lookup: string -> Option<Sound>, hasAsset: string -> bool, id: string)
  {
    simulated || (lookup(id).Some? && hasAsset(lookup(id).value.fileName))
  }

  /** `Admits` for one engine, as a predicate value. */
  function AdmitsIn(simulated: bool, lookup: string -> Option<Sound>, hasAsset: string -> bool): string -> bool
  {
    (id: string) => Admits(simulated, lookup, hasAsset, id)
  }

  /** With the app's catalog, a sound it knows is always admitted: every catalog file has an asset. */
  lemma ResolvedAdmitted(simulated: bool, id: string)
    requires GetSoundById(id).Some?
    ensures Admits(simulated, GetSoundById, HasAsset, id)
  {
    var sd := GetSoundById(id).value;
    var k :| 0 <= k < |SOUNDS| && SOUNDS[k] == sd;
    CatalogAssetsAvailable();
  }

  /** With the app's catalog, every sound it knows is admitted. */
  lemma CatalogAdmits(simulated: bool)
    ensures forall id :: GetSoundById(id).Some? ==> Admits(simulated, GetSoundById, HasAsset, id)
  {
    forall id | GetSoundById(id).Some? ensures Admits(simulated, GetSoundById, HasAsset, id) {
      ResolvedAdmitted(simulated, id);
    }
  }

  /**
   * For a catalog that admits every sound it knows, a mix whose sounds it
   * all knows is admitted in full.
   */
  lemma MixAdmitted(simulated: bool, lookup: string -> Option<Sound>, hasAsset: string -> bool, sounds: seq<MixSound>)
    requires forall id :: lookup(id).Some? ==> Admits(simulated, lookup, hasAsset, id)
    requires forall k :: 0 <= k < |sounds| ==> lookup(sounds[k].soundId).Some?
    ensures Filter(MixIds(sounds), AdmitsIn(simulated, lookup, hasAsset)) == MixIds(sounds)
  {
    FilterAll(MixIds(sounds), AdmitsIn(simulated, lookup, hasAsset));
  }

  /**
   * The track list after `addSoundToMix(id, volume)` for a catalog sound: an
   * existing entry only takes the new volume; otherwise `entry` is appended
   * when the sound is admitted, and nothing changes when it is not.
   */
  function AddTrack(tracks: seq<ActiveSound>, id: string, volume: real, admitted: bool, entry: ActiveSound): (r: seq<ActiveSound>)
    ensures |r| == |tracks| || r == tracks + [entry]
    ensures forall j :: 0 <= j < |r| ==> (j < |tracks| && r[j] == tracks[j].(volume := r[j].volume)) || r[j] == entry
  {
    match TrackIndex(tracks, id)
    case Some(j) => tracks[j := tracks[j].(volume := volume)]
    case None => if admitted then tracks + [entry] else tracks
  }

  lemma MixIdsSnoc(p: seq<MixSound>, x: MixSound)
    ensures MixIds(p + [x]) == MixIds(p) + [x.soundId]
  {
    assert (p + [x])[..|p|] == p;
  }

  lemma LastVolumeSnoc(p: seq<MixSound>, x: MixSound, id: string)
    ensures LastVolume(p + [x], id) == if x.soundId == id then x.volume else LastVolume(p, id)
  {
    assert (p + [x])[..|p|] == p;
  }

  /**
   * One step of the loop in `playMix`, for the ids: if the tracks hold one
   * entry per admitted id of the mix so far, in first-listed order, they do
   * so for the prefix one longer after the next sound is added.
   */
  lemma AddTrackIds(tracks: seq<ActiveSound>, adm: string -> bool, p: seq<MixSound>, x: MixSound, entry: ActiveSound)
    requires TrackIds(tracks) == Dedup(Filter(MixIds(p), adm))
    requires entry.id == x.soundId
    ensures TrackIds(AddTrack(tracks, x.soundId, x.volume, adm(x.soundId), entry)) == Dedup(Filter(MixIds(p + [x]), adm))
  {
    var id := x.soundId;
    var f := Filter(MixIds(p), adm);
    assert Filter(MixIds(p + [x]), adm) == if adm(id) then f + [id] else f by {
      FilterSnoc(MixIds(p), id, adm);
      MixIdsSnoc(p, x);
    }
    if TrackIndex(tracks, id).Some? {
      RetunedIds(tracks, id, x.volume, adm(id), entry);
      if adm(id) {
        DedupSnoc(f, id);
      }
    } else if adm(id) {
      AppendedIds(tracks, id, x.volume, entry);
      DedupSnoc(f, id);
    }
  }

  /** Retuning a track already in the mix keeps the ids. */
  lemma RetunedIds(tracks: seq<ActiveSound>, id: string, volume: real, admitted: bool, entry: ActiveSound)
    requires TrackIndex(tracks, id).Some?
    ensures TrackIds(AddTrack(tracks, id, volume, admitted, entry)) == TrackIds(tracks)
  {
    var k := TrackIndex(tracks, id).value;
    SameIds(tracks, tracks[k := tracks[k].(volume := volume)]);
  }

  /** Appending the entry of a new id appends that id. */
  lemma AppendedIds(tracks: seq<ActiveSound>, id: string, volume: real, entry: ActiveSound)
    requires TrackIndex(tracks, id).None? && entry.id == id
    ensures TrackIds(AddTrack(tracks, id, volume, true, entry)) == TrackIds(tracks) + [id]
  {
    assert AddTrack(tracks, id, volume, true, entry) == tracks + [entry];
  }

  lemma FilterSnoc<T>(s: seq<T>, x: T, p: T -> bool)
    ensures Filter(s + [x], p) == if p(x) then Filter(s, p) + [x] else Filter(s, p)
  {
    FilterAppend(s, [x], p);
    assert Filter([x], p) == if p(x) then [x] else [];
  }

  lemma SameIds(a: seq<ActiveSound>, b: seq<ActiveSound>)
    requires |a| == |b| && forall j :: 0 <= j < |a| ==> a[j].id == b[j].id
    ensures TrackIds(a) == TrackIds(b)
  {
  }

  /**
   * One step of the loop in `playMix`, for the volumes: each entry carries
   * the volume last listed for its id, before and after the next sound is added.
   */
  lemma AddTrackVolumes(tracks: seq<ActiveSound>, admitted: bool, p: seq<MixSound>, x: MixSound, entry: ActiveSound)
    requires Distinct(TrackIds(tracks))
    requires forall j :: 0 <= j < |tracks| ==> tracks[j].volume == LastVolume(p, tracks[j].id)
    requires entry.id == x.soundId && entry.volume == x.volume
    ensures var r := AddTrack(tracks, x.soundId, x.volume, admitted, entry);
            forall j :: 0 <= j < |r| ==> r[j].volume == LastVolume(p + [x], r[j].id)
  {
    var id := x.soundId;
    var ids := TrackIds(tracks);
    var r := AddTrack(tracks, id, x.volume, admitted, entry);
    LastVolumeSnoc(p, x, id);
    forall k | 0 <= k < |r| ensures r[k].volume == LastVolume(p + [x], r[k].id) {
      LastVolumeSnoc(p, x, r[k].id);
      match TrackIndex(tracks, id)
      case Some(j) =>
        if k != j {
          assert ids[k] != ids[j];
        }
      case None =>
        if k < |tracks| {
          assert ids[k] != id;
        }
    }
  }

  /**
   * The track `addSoundToMix` appends for a sound not yet in the mix: a
   * simulated one without a handle, playing; a real one on handle `h`,
   * playing exactly when the engine is.
   */
  function NewEntry(simulated: bool, id: string, volume: real, sd: Sound, h: Handle, playing: bool, now: int): (e: ActiveSound)
    ensures e.id == id && e.volume == volume && e.soundData == sd && e.position == 0 && e.startTime == now
    ensures e.sound.None? <==> simulated
    ensures e.isPlaying == (simulated || playing)
  {
    if simulated then ActiveSound(id, None, volume, sd, true, 0, now)
    else ActiveSound(id, Some(h), volume, sd, playing, 0, now)
  }

  /** No call in `cs` starts a sound: nothing is played, nothing is created playing. */
  predicate NothingStarted(cs: seq<Command>)
  {
    forall c :: c in cs ==> !c.Play? && (c.Create? ==> !c.shouldPlay)
  }

  /**
   * The handle calls `addSoundToMix` makes for a sound the catalog knows: an
   * existing handled track gets the new volume raw; otherwise an admitted
   * sound on a real engine gets a new handle `h`, created playing exactly
   * when the engine is, at the volume scaled by the mix volume.
   */
  function AddCommands(tracks: seq<ActiveSound>, id: string, volume: real, admitted: bool, simulated: bool,
                       h: Handle, sd: Sound, playing: bool, mixVolume: real): (r: seq<Command>)
    ensures |r| <= 1
    ensures !playing ==> NothingStarted(r)
    ensures simulated ==> r == []
  {
    match TrackIndex(tracks, id)
    case Some(j) => if tracks[j].sound.Some? && !simulated then [SetVolume(tracks[j].sound.value, volume)] else []
    case None => if admitted && !simulated then [Create(h, sd.fileName, playing, sd.isLooped, Scaled(volume, mixVolume))] else []
  }

  /**
   * What the tracks satisfy once the sounds `p` of a mix were added, one
   * `addSoundToMix` each, to an empty list on an engine that is not playing:
   * one track per distinct admitted id in first-listed order, each at the
   * last volume listed for it, playing and without a handle exactly when
   * simulated.
   */
  ghost predicate MixBuilt(tracks: seq<ActiveSound>, p: seq<MixSound>, simulated: bool, adm: string -> bool)
  {
    TrackIds(tracks) == Dedup(Filter(MixIds(p), adm)) &&
    forall j :: 0 <= j < |tracks| ==>
      tracks[j].volume == LastVolume(p, tracks[j].id) &&
      tracks[j].isPlaying == simulated &&
      (tracks[j].sound.None? <==> simulated)
  }

  /** Nothing added yet: the empty list. */
  lemma MixBuiltStart(simulated: bool, adm: string -> bool)
    ensures MixBuilt([], [], simulated, adm)
  {
    assert MixIds([]) == [];
    assert Filter([], adm) == [];
  }

  /** One more `addSoundToMix` call keeps `MixBuilt` for the longer prefix. */
  lemma MixBuiltStep(tracks: seq<ActiveSound>, p: seq<MixSound>, x: MixSound, simulated: bool, adm: string -> bool,
                     sd: Sound, h: Handle, now: int)
    requires MixBuilt(tracks, p, simulated, adm)
    ensures MixBuilt(AddTrack(tracks, x.soundId, x.volume, adm(x.soundId),
                              NewEntry(simulated, x.soundId, x.volume, sd, h, false, now)),
                     p + [x], simulated, adm)
  {
    var entry := NewEntry(simulated, x.soundId, x.volume, sd, h, false, now);
    AddTrackIds(tracks, adm, p, x, entry);
    AddTrackVolumes(tracks, adm(x.soundId), p, x, entry);
    var r := AddTrack(tracks, x.soundId, x.volume, adm(x.soundId), entry);
    forall j | 0 <= j < |r| ensures r[j].isPlaying == simulated && (r[j].sound.None? <==> simulated) {
      if r[j] != entry {
        assert r[j] == tracks[j].(volume := r[j].volume);
      }
    }
  }

  /** Tracks, the next free handle and handle calls, as `addSoundToMix` and the `playMix` loop leave them. */
  datatype MixLoad = MixLoad(tracks: seq<ActiveSound>, nextHandle: Handle, calls: seq<Command>)

  /**
   * One `addSoundToMix` of a sound `sd` the catalog knows, on `tracks` with
   * `h` the next free handle: the new tracks, the next free handle and the
   * handle calls made. An existing track only takes the new volume; a new
   * admitted sound is appended, and takes handle `h` on a real engine; a
   * sound that is not admitted changes nothing.
   */
  function AddSound(tracks: seq<ActiveSound>, id: string, volume: real, sd: Sound, admitted: bool, simulated: bool,
                    h: Handle, playing: bool, mixVolume: real, now: int): (r: MixLoad)
    ensures TrackIndex(tracks, id).Some? ==>
              r.nextHandle == h && |r.tracks| == |tracks| && r.tracks[TrackIndex(tracks, id).value].volume == volume
    ensures TrackIndex(tracks, id).None? && admitted ==>
              r.tracks == tracks + [NewEntry(simulated, id, volume, sd, h, playing, now)] &&
              r.nextHandle == (if simulated then h else h + 1)
    ensures TrackIndex(tracks, id).None? && !admitted ==> r == MixLoad(tracks, h, [])
    ensures !playing ==> NothingStarted(r.calls)
  {
    var isNew := TrackIndex(tracks, id).None? && admitted;
    MixLoad(AddTrack(tracks, id, volume, admitted, NewEntry(simulated, id, volume, sd, h, playing, now)),
            h + (if isNew && !simulated then 1 else 0),
            AddCommands(tracks, id, volume, admitted, simulated, h, sd, playing, mixVolume))
  }

  /**
   * `addSoundToMix` for each of `p` in turn, from no tracks, on an engine in
   * mix mode that is not playing, with handles numbered from `h0`. The loop
   * never gets past an unknown id; one here is skipped.
   */
  function LoadMix(p: seq<MixSound>, simulated: bool, lookup: string -> Option<Sound>, hasAsset: string -> bool,
                   h0: Handle, mixVolume: real, now: int): MixLoad
  {
    if p == [] then MixLoad([], h0, [])
    else
      var prev := LoadMix(p[..|p| - 1], simulated, lookup, hasAsset, h0, mixVolume, now);
      var x := p[|p| - 1];
      if lookup(x.soundId).None? then prev
      else
        var d := AddSound(prev.tracks, x.soundId, x.volume, lookup(x.soundId).value, Admits(simulated, lookup, hasAsset, x.soundId),
                          simulated, prev.nextHandle, false, mixVolume, now);
        MixLoad(d.tracks, d.nextHandle, prev.calls + d.calls)
  }

  /** Loading one more known sound is one more `AddSound` on the tracks so far. */
  lemma LoadMixSnoc(p: seq<MixSound>, x: MixSound, simulated: bool, lookup: string -> Option<Sound>, hasAsset: string -> bool,
                    h0: Handle, mixVolume: real, now: int)
    requires lookup(x.soundId).Some?
    ensures var prev := LoadMix(p, simulated, lookup, hasAsset, h0, mixVolume, now);
            var d := AddSound(prev.tracks, x.soundId, x.volume, lookup(x.soundId).value, Admits(simulated, lookup, hasAsset, x.soundId),
                              simulated, prev.nextHandle, false, mixVolume, now);
            LoadMix(p + [x], simulated, lookup, hasAsset, h0, mixVolume, now) == MixLoad(d.tracks, d.nextHandle, prev.calls + d.calls)
  {
    assert (p + [x])[..|p + [x]| - 1] == p;
  }

  /** Loading the prefix through index `i` of known sound `s[i]` is one more `AddSound` after the prefix before it. */
  lemma LoadMixNext(s: seq<MixSound>, i: nat, simulated: bool, lookup: string -> Option<Sound>, hasAsset: string -> bool,
                    h0: Handle, mixVolume: real, now: int)
    requires i < |s| && lookup(s[i].soundId).Some?
    ensures var prev := LoadMix(s[..i], simulated, lookup, hasAsset, h0, mixVolume, now);
            var d := AddSound(prev.tracks, s[i].soundId, s[i].volume, lookup(s[i].soundId).value, Admits(simulated, lookup, hasAsset, s[i].soundId),
                              simulated, prev.nextHandle, false, mixVolume, now);
            LoadMix(s[..i + 1], simulated, lookup, hasAsset, h0, mixVolume, now) == MixLoad(d.tracks, d.nextHandle, prev.calls + d.calls)
  {
    assert s[..i + 1] == s[..i] + [s[i]];
    LoadMixSnoc(s[..i], s[i], simulated, lookup, hasAsset, h0, mixVolume, now);
  }

  /** The index of the first sound of `p` the catalog does not know, or `|p|`. */
  function FirstUnknown(p: seq<MixSound>, lookup: string -> Option<Sound>): (n: nat)
    ensures n <= |p|
  {
    if p == [] || lookup(p[0].soundId).None? then 0 else 1 + FirstUnknown(p[1..], lookup)
  }

  /** A known sound at an index not past `FirstUnknown` is before it. */
  lemma {:induction false} FirstUnknownPast(p: seq<MixSound>, lookup: string -> Option<Sound>, i: nat)
    requires i <= FirstUnknown(p, lookup) && i < |p| && lookup(p[i].soundId).Some?
    ensures i < FirstUnknown(p, lookup)
  {
    if i > 0 {
      FirstUnknownPast(p[1..], lookup, i - 1);
    }
  }

  /** An unknown sound is not before `FirstUnknown`. */
  lemma {:induction false} FirstUnknownAt(p: seq<MixSound>, lookup: string -> Option<Sound>, i: nat)
    requires i < |p| && lookup(p[i].soundId).None?
    ensures FirstUnknown(p, lookup) <= i
  {
    if i > 0 && lookup(p[0].soundId).Some? {
      FirstUnknownAt(p[1..], lookup, i - 1);
    }
  }

  /** The sound at `FirstUnknown`, if there is one, is unknown. */
  lemma {:induction false} FirstUnknownMissing(p: seq<MixSound>, lookup: string -> Option<Sound>)
    requires FirstUnknown(p, lookup) < |p|
    ensures lookup(p[FirstUnknown(p, lookup)].soundId).None?
  {
    if lookup(p[0].soundId).Some? {
      FirstUnknownMissing(p[1..], lookup);
    }
  }

  /** Every sound before `FirstUnknown` is known, and the one at it is not. */
  lemma {:induction false} FirstUnknownSpec(p: seq<MixSound>, lookup: string -> Option<Sound>)
    ensures forall k :: 0 <= k < FirstUnknown(p, lookup) ==> lookup(p[k].soundId).Some?
    ensures FirstUnknown(p, lookup) < |p| ==> lookup(p[FirstUnknown(p, lookup)].soundId).None?
  {
    if p != [] && lookup(p[0].soundId).Some? {
      FirstUnknownSpec(p[1..], lookup);
      forall k | 0 <= k < FirstUnknown(p, lookup) ensures lookup(p[k].soundId).Some? {
        if k > 0 { assert p[k] == p[1..][k - 1]; }
      }
    }
  }

  /**
   * Loading a mix whose ids the catalog all knows builds one track per
   * distinct admitted id, in first-listed order, at its last listed volume,
   * playing and without a handle exactly when simulated; and no handle call
   * made on the way starts a sound.
   */
  lemma {:induction false} LoadMixSpec(p: seq<MixSound>, simulated: bool, lookup: string -> Option<Sound>,
                                       hasAsset: string -> bool, h0: Handle, mixVolume: real, now: int)
    requires forall k :: 0 <= k < |p| ==> lookup(p[k].soundId).Some?
    ensures var l := LoadMix(p, simulated, lookup, hasAsset, h0, mixVolume, now);
            MixBuilt(l.tracks, p, simulated, AdmitsIn(simulated, lookup, hasAsset)) && NothingStarted(l.calls)
  {
    var adm := AdmitsIn(simulated, lookup, hasAsset);
    if p == [] {
      MixBuiltStart(simulated, adm);
    } else {
      var init := p[..|p| - 1];
      var x := p[|p| - 1];
      assert init + [x] == p;
      assert forall k :: 0 <= k < |init| ==> init[k] == p[k];
      LoadMixSpec(init, simulated, lookup, hasAsset, h0, mixVolume, now);
      LoadMixSnoc(init, x, simulated, lookup, hasAsset, h0, mixVolume, now);
      var prev := LoadMix(init, simulated, lookup, hasAsset, h0, mixVolume, now);
      var sd := lookup(x.soundId).value;
      var admitted := Admits(simulated, lookup, hasAsset, x.soundId);
      var d := AddSound(prev.tracks, x.soundId, x.volume, sd, admitted, simulated, prev.nextHandle, false, mixVolume, now);
      assert adm(x.soundId) == admitted;
      assert d.tracks == AddTrack(prev.tracks, x.soundId, x.volume, adm(x.soundId),
                                  NewEntry(simulated, x.soundId, x.volume, sd, prev.nextHandle, false, now));
      MixBuiltStep(prev.tracks, init, x, simulated, adm, sd, prev.nextHandle, now);
      assert NothingStarted(prev.calls + d.calls);
    }
  }


  /**
   * The `playMix` loop, up to its first unknown id, makes no handle call
   * that starts a sound.
   */
  lemma LoadUntilUnknownQuiet(p: seq<MixSound>, simulated: bool, lookup: string -> Option<Sound>, hasAsset: string -> bool,
                              h0: Handle, mixVolume: real, now: int)
    ensures NothingStarted(LoadMix(p[..FirstUnknown(p, lookup)], simulated, lookup, hasAsset, h0, mixVolume, now).calls)
  {
    var q := p[..FirstUnknown(p, lookup)];
    FirstUnknownSpec(p, lookup);
    assert forall k :: 0 <= k < |q| ==> q[k] == p[k];
    LoadMixSpec(q, simulated, lookup, hasAsset, h0, mixVolume, now);
  }

  /**
   * When the catalog knows every id of `p` and only holds sounds that may be
   * given a track, loading `p` builds one track per distinct id, as
   * `MixBuilt` says.
   */
  lemma LoadAllKnown(p: seq<MixSound>, simulated: bool, lookup: string -> Option<Sound>, hasAsset: string -> bool,
                     h0: Handle, mixVolume: real, now: int)
    requires forall id :: lookup(id).Some? ==> Admits(simulated, lookup, hasAsset, id)
    requires FirstUnknown(p, lookup) == |p|
    ensures forall k :: 0 <= k < |p| ==> lookup(p[k].soundId).Some?
    ensures var l := LoadMix(p, simulated, lookup, hasAsset, h0, mixVolume, now);
            MixBuilt(l.tracks, p, simulated, AdmitsIn(simulated, lookup, hasAsset)) &&
            TrackIds(l.tracks) == Dedup(MixIds(p))
  {
    FirstUnknownSpec(p, lookup);
    LoadMixSpec(p, simulated, lookup, hasAsset, h0, mixVolume, now);
    MixAdmitted(simulated, lookup, hasAsset, p);
  }

  // ------------------------------------------------------------ state records

  /** The fields `stopAllSounds` resets; everything else is kept. */
  function Stopped(s: PlaybackState): (r: PlaybackState)
  {
    s.(isPlaying := false, currentSound := None, currentMix := None, activeSounds := [],
       isMixMode := false, position := 0, mode := Single)
  }

  /**
   * A stopped state is silent, holds no tracks and is in single mode; volume,
   * mix volume, duration and timer are kept; stopping again changes nothing.
   */
  lemma StoppedSpec(s: PlaybackState)
    ensures var r := Stopped(s);
            !r.isPlaying && r.currentSound.None? && r.currentMix.None? && r.activeSounds == [] &&
            !r.isMixMode && r.position == 0 && r.mode == Single
    ensures var r := Stopped(s);
            r.volume == s.volume && r.mixVolume == s.mixVolume && r.duration == s.duration &&
            r.timerEndTime == s.timerEndTime && r.fadeDuration == s.fadeDuration
    ensures Stopped(Stopped(s)) == Stopped(s)
  {
  }

  /** A release loop only stops and unloads. */
  lemma ReleaseOnlyStops(tracks: seq<ActiveSound>)
    ensures forall c :: c in TrackCommands(tracks, ReleaseOp) ==> c.Stop? || c.Unload?
  {
    forall c | c in TrackCommands(tracks, ReleaseOp) ensures c.Stop? || c.Unload? {
      TrackCommandsSound(tracks, ReleaseOp, c);
    }
  }

  /**
   * The calls `stopAllSounds` makes: stop and unload the single-mode handle
   * (unless simulated), then the same for each handled track.
   */
  function ReleaseCommands(current: Option<Handle>, simulated: bool, tracks: seq<ActiveSound>): (r: seq<Command>)
    ensures forall c :: c in r ==> c.Stop? || c.Unload?
    ensures simulated && NoHandles(tracks) ==> r == []
  {
    ReleaseOnlyStops(tracks);
    (if current.Some? && !simulated then [Stop(current.value), Unload(current.value)] else []) +
    TrackCommands(tracks, ReleaseOp)
  }

  /** The state record the engine starts with. */
  const INITIAL_STATE: PlaybackState :=
    PlaybackState(false, None, 0.8, 0, 0, false, None, [], 0.8, None, None, Single)

  /** What `getStatusAsync()` reports about a handle. */
  datatype HandleStatus = HandleStatus(isLoaded: bool, positionMillis: Option<int>, durationMillis: Option<int>)

  /** `x || 0` for a number that may be missing. */
  function OrZero(x: Option<int>): int
  {
    if x.Some? then x.value else 0
  }
}
