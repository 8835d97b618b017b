/**
 * The playback engine: one state record, an ordered list of active tracks,
 * the single-mode handle, the position interval, the stop timer and the
 * state listeners. Calls on the audio library are recorded in a ghost log
 * of `Command`s; every snapshot handed to a listener in a ghost log of
 * deliveries. The interval and the timeout are explicit methods
 * (`UpdatePosition`, `TimerFires`) that the environment calls.
 */
module Audio {
  import opened Types
  import opened Seqs
  import opened Sounds
  import opened Listeners
  import opened Tracks

  class AudioService {
    var state: PlaybackState
    /** Set once by `initialize`: whether the audio mode could not be configured. */
    const isSimulationMode: bool
    /** The catalog lookup the engine imports, `getSoundById`. */
    const catalog: string -> Option<Sound>
    /** Whether a file name is in the bundled asset map. */
    const hasAsset: string -> bool
    /** The single-mode handle, if one is loaded. */
    var currentSoundObject: Option<Handle>
    /** The handle the next `createAsync` returns. */
    var nextHandle: Handle
    /** Whether the one-second position interval is registered. */
    var positionTimerActive: bool
    /** The pending stop timer, holding its `autoStop` flag. */
    var pendingTimer: Option<bool>
    var stateListeners: seq<ListenerId>
    /** Set by `initialize`, cleared by `cleanup`. */
    var isInitialized: bool
    /** Every call on the audio library so far, oldest first. */
    ghost var commands: seq<Command>
    /** Every listener invocation so far, oldest first. */
    ghost var deliveries: seq<Delivery<PlaybackState>>

    /**
     * A simulated engine never holds a handle, and every sound the catalog
     * knows may be given a track.
     */
    ghost predicate Valid()
      reads this
    {
      (isSimulationMode ==> currentSoundObject.None? && NoHandles(state.activeSounds)) &&
      (forall id :: catalog(id).Some? ==> Admits(isSimulationMode, catalog, hasAsset, id))
    }

    /**
     * The engine after construction and `initialize()`: simulated exactly
     * when the audio mode could not be set, nothing playing, both volumes 0.8.
     */
    constructor (audioAvailable: bool)
      ensures Valid()
      ensures isSimulationMode == !audioAvailable && catalog == GetSoundById && hasAsset == HasAsset
      ensures state == INITIAL_STATE && currentSoundObject.None? && !positionTimerActive && pendingTimer.None?
      ensures stateListeners == [] && commands == [] && deliveries == [] && isInitialized
    {
      isSimulationMode := !audioAvailable;
      catalog := GetSoundById;
      hasAsset := HasAsset;
      CatalogAdmits(!audioAvailable);
      state := INITIAL_STATE;
      currentSoundObject := None;
      nextHandle := 0;
      positionTimerActive := false;
      pendingTimer := None;
      stateListeners := [];
      isInitialized := true;
      commands := [];
      deliveries := [];
    }

    /** `getPlaybackState()`: a copy of the state record. */
    function GetPlaybackState(): (s: PlaybackState)
      reads this
      ensures s == state
    {
      state
    }

    /** `addStateListener(l)`: registers `l`; it is not called at once. */
    method AddStateListener(l: ListenerId)
      modifies this`stateListeners
      ensures stateListeners == old(stateListeners) + [l]
    {
      stateListeners := stateListeners + [l];
    }

    /** `removeStateListener(l)`: drops the first registration of `l`, if any. */
    method RemoveStateListener(l: ListenerId)
      modifies this`stateListeners
      ensures stateListeners == RemoveFirst(old(stateListeners), l)
    {
      stateListeners := RemoveFirst(stateListeners, l);
    }

    /** `notifyStateChange()`: every listener receives a snapshot of the state. */
    method NotifyStateChange()
      modifies this`deliveries
      ensures deliveries == old(deliveries) + Broadcast(stateListeners, state)
    {
      deliveries := deliveries + Broadcast(stateListeners, state);
    }

    /** `startPositionUpdates()`: (re)registers the position interval. */
    method StartPositionUpdates()
      modifies this`positionTimerActive
      ensures positionTimerActive
    {
      positionTimerActive := true;
    }

    /** `stopPositionUpdates()`: clears the position interval. */
    method StopPositionUpdates()
      modifies this`positionTimerActive
      ensures !positionTimerActive
    {
      positionTimerActive := false;
    }

    /**
     * `stopAllSounds()`: stops and unloads the single handle and every
     * track's handle, then resets the state to `Stopped`; volume, mix volume,
     * duration and timer survive.
     */
    method StopAllSounds()
      requires Valid()
      modifies this
      ensures Valid()
      ensures state == Stopped(old(state))
      ensures currentSoundObject.None? && !positionTimerActive
      ensures commands == old(commands) + ReleaseCommands(old(currentSoundObject), isSimulationMode, old(state.activeSounds))
      ensures deliveries == old(deliveries) + Broadcast(stateListeners, state)
      ensures stateListeners == old(stateListeners) && nextHandle == old(nextHandle) && pendingTimer == old(pendingTimer)
    {
      ghost var c0 := commands;
      ghost var own := if currentSoundObject.Some? && !isSimulationMode
                       then [Stop(currentSoundObject.value), Unload(currentSoundObject.value)] else [];
      if currentSoundObject.Some? && !isSimulationMode {
        commands := commands + [Stop(currentSoundObject.value), Unload(currentSoundObject.value)];
      }
      currentSoundObject := None;
      var sent := SendToTracks(state.activeSounds, ReleaseOp, isSimulationMode);
      commands := commands + sent;
      AppendAssoc(c0, own, sent);
      state := Stopped(state);
      StopPositionUpdates();
      NotifyStateChange();
    }

    /** `stopSound()`: the same as `stopAllSounds()`. */
    method StopSound()
      requires Valid()
      modifies this
      ensures Valid()
      ensures state == Stopped(old(state))
      ensures currentSoundObject.None? && !positionTimerActive
      ensures commands == old(commands) + ReleaseCommands(old(currentSoundObject), isSimulationMode, old(state.activeSounds))
      ensures deliveries == old(deliveries) + Broadcast(stateListeners, state)
      ensures stateListeners == old(stateListeners) && nextHandle == old(nextHandle) && pendingTimer == old(pendingTimer)
    {
      StopAllSounds();
    }

    /**
     * `cleanup()`: stops playback (the listeners still hear that), then
     * forgets every listener and marks the engine uninitialised.
     */
    method Cleanup()
      requires Valid()
      modifies this
      ensures Valid()
      ensures state == Stopped(old(state))
      ensures currentSoundObject.None? && !positionTimerActive
      ensures commands == old(commands) + ReleaseCommands(old(currentSoundObject), isSimulationMode, old(state.activeSounds))
      ensures deliveries == old(deliveries) + Broadcast(old(stateListeners), state)
      ensures stateListeners == [] && !isInitialized
      ensures nextHandle == old(nextHandle) && pendingTimer == old(pendingTimer)
    {
      StopSound();
      stateListeners := [];
      isInitialized := false;
    }

    /**
     * `simulatePlaySound(sound)`: the sound becomes current and "plays" for
     * its nominal length; `isMixMode` is left as it was.
     */
    method SimulatePlaySound(soundData: Sound)
      modifies this
      ensures state == old(state).(currentSound := Some(soundData), isPlaying := true,
                                   duration := soundData.duration * 1000, mode := Single)
      ensures positionTimerActive
      ensures deliveries == old(deliveries) + Broadcast(stateListeners, state)
      ensures commands == old(commands) && currentSoundObject == old(currentSoundObject)
      ensures stateListeners == old(stateListeners) && nextHandle == old(nextHandle) && pendingTimer == old(pendingTimer)
    {
      state := state.(currentSound := Some(soundData), isPlaying := true,
                      duration := soundData.duration * 1000, mode := Single);
      StartPositionUpdates();
      NotifyStateChange();
    }

    /**
     * `playSound(id)`: outside mix mode everything is stopped first. An
     * unknown id then does nothing more. A simulated engine, or a sound without
     * an asset, falls back to `simulatePlaySound`. Otherwise a fresh handle
     * starts the file at the single-mode volume and becomes the current sound,
     * or, in mix mode, a new playing track at that volume.
     */
    method PlaySound(soundId: string, now: int)
      requires Valid()
      modifies this
      ensures Valid()
      ensures stateListeners == old(stateListeners) && pendingTimer == old(pendingTimer)
      ensures var s0 := if old(state).isMixMode then old(state) else Stopped(old(state));
              var sd := catalog(soundId);
              var loaded := sd.Some? && !isSimulationMode && hasAsset(sd.value.fileName);
              var handle0 := if old(state).isMixMode then old(currentSoundObject) else None;
              var timer0 := old(state).isMixMode && old(positionTimerActive);
              (sd.None? ==> state == s0 && nextHandle == old(nextHandle) &&
                            currentSoundObject == handle0 && positionTimerActive == timer0) &&
              (sd.Some? && !loaded ==>
                 state == s0.(currentSound := sd, isPlaying := true, duration := sd.value.duration * 1000, mode := Single) &&
                 positionTimerActive && nextHandle == old(nextHandle) && currentSoundObject == handle0) &&
              (loaded && s0.isMixMode ==>
                 state == s0.(activeSounds := s0.activeSounds + [ActiveSound(soundId, Some(old(nextHandle)), s0.volume, sd.value, true, 0, now)],
                              isPlaying := true, mode := Mix) &&
                 currentSoundObject == old(currentSoundObject)) &&
              (loaded && !s0.isMixMode ==>
                 state == s0.(currentSound := sd, isPlaying := true, mode := Single) &&
                 currentSoundObject == Some(old(nextHandle))) &&
              (loaded ==> positionTimerActive && nextHandle == old(nextHandle) + 1) &&
              commands == old(commands) +
                          (if old(state).isMixMode then [] else ReleaseCommands(old(currentSoundObject), isSimulationMode, old(state.activeSounds))) +
                          (if loaded then [Create(old(nextHandle), sd.value.fileName, true, sd.value.isLooped, s0.volume)] else []) &&
              deliveries == old(deliveries) +
                            (if old(state).isMixMode then [] else Broadcast(stateListeners, s0)) +
                            (if sd.Some? then Broadcast(stateListeners, state) else [])
    {
      if !state.isMixMode {
        StopAllSounds();
      }
      var sd := catalog(soundId);
      if sd.None? {
        return;
      }
      if isSimulationMode || !hasAsset(sd.value.fileName) {
        SimulatePlaySound(sd.value);
        return;
      }
      var h := nextHandle;
      nextHandle := nextHandle + 1;
      commands := commands + [Create(h, sd.value.fileName, true, sd.value.isLooped, state.volume)];
      if state.isMixMode {
        var entry := ActiveSound(soundId, Some(h), state.volume, sd.value, true, 0, now);
        state := state.(activeSounds := state.activeSounds + [entry]);
      } else {
        currentSoundObject := Some(h);
        state := state.(currentSound := sd);
      }
      state := state.(isPlaying := true, mode := if state.isMixMode then Mix else Single);
      NotifyStateChange();
      StartPositionUpdates();
    }

    /** `togglePlayback()`: the mix toggle in mix mode, the single toggle otherwise. */
    method TogglePlayback()
      requires Valid()
      modifies this
      ensures Valid()
      ensures state.isPlaying == !old(state.isPlaying)
      ensures old(state.isMixMode) ==>
                state == old(state).(isPlaying := !old(state.isPlaying),
                                     activeSounds := SetAllPlaying(old(state.activeSounds), !old(state.isPlaying)))
      ensures !old(state.isMixMode) ==> state == old(state).(isPlaying := !old(state.isPlaying))
      ensures old(state.isMixMode) ==>
                commands == old(commands) + TrackCommands(old(state.activeSounds), if !old(state.isPlaying) then PlayOp else PauseOp) &&
                positionTimerActive == !old(state.isPlaying)
      ensures var handled := !old(state.isMixMode) && !isSimulationMode && old(currentSoundObject).Some?;
              (handled ==>
                 commands == old(commands) + [if old(state.isPlaying) then Pause(old(currentSoundObject).value)
                                              else Play(old(currentSoundObject).value)] &&
                 positionTimerActive == !old(state.isPlaying)) &&
              (!old(state.isMixMode) && !handled ==>
                 commands == old(commands) && positionTimerActive == old(positionTimerActive))
      ensures currentSoundObject == old(currentSoundObject) && nextHandle == old(nextHandle)
      ensures stateListeners == old(stateListeners) && pendingTimer == old(pendingTimer)
      ensures deliveries == old(deliveries) + Broadcast(stateListeners, state)
    {
      if state.isMixMode {
        ToggleMixPlayback();
      } else {
        ToggleSinglePlayback();
      }
    }

    /**
     * `toggleMixPlayback()`: negates `isPlaying`, gives every track the new
     * flag, plays or pauses every handle, and starts or stops the interval.
     */
    method ToggleMixPlayback()
      requires Valid()
      modifies this
      ensures Valid()
      ensures var b := !old(state.isPlaying);
              state == old(state).(isPlaying := b, activeSounds := SetAllPlaying(old(state.activeSounds), b)) &&
              commands == old(commands) + TrackCommands(old(state.activeSounds), if b then PlayOp else PauseOp) &&
              positionTimerActive == b
      ensures currentSoundObject == old(currentSoundObject) && nextHandle == old(nextHandle)
      ensures stateListeners == old(stateListeners) && pendingTimer == old(pendingTimer)
      ensures deliveries == old(deliveries) + Broadcast(stateListeners, state)
    {
      var b := !state.isPlaying;
      state := state.(isPlaying := b);
      var op := if b then PlayOp else PauseOp;
      var sent := SendToTracks(state.activeSounds, op, isSimulationMode);
      commands := commands + sent;
      state := state.(activeSounds := SetAllPlaying(state.activeSounds, b));
      if b {
        StartPositionUpdates();
      } else {
        StopPositionUpdates();
      }
      NotifyStateChange();
    }

    /**
     * `toggleSinglePlayback()`: without a real handle only the flag flips.
     * Otherwise the handle is paused or played, the flag flips and the
     * interval follows it.
     */
    method ToggleSinglePlayback()
      requires Valid()
      modifies this
      ensures Valid()
      ensures state == old(state).(isPlaying := !old(state.isPlaying))
      ensures var handled := !isSimulationMode && old(currentSoundObject).Some?;
              (handled ==>
                 commands == old(commands) + [if old(state.isPlaying) then Pause(old(currentSoundObject).value)
                                              else Play(old(currentSoundObject).value)] &&
                 positionTimerActive == !old(state.isPlaying)) &&
              (!handled ==> commands == old(commands) && positionTimerActive == old(positionTimerActive))
      ensures currentSoundObject == old(currentSoundObject) && nextHandle == old(nextHandle)
      ensures stateListeners == old(stateListeners) && pendingTimer == old(pendingTimer)
      ensures deliveries == old(deliveries) + Broadcast(stateListeners, state)
    {
      if isSimulationMode || currentSoundObject.None? {
        state := state.(isPlaying := !state.isPlaying);
        NotifyStateChange();
        return;
      }
      if state.isPlaying {
        commands := commands + [Pause(currentSoundObject.value)];
        state := state.(isPlaying := false);
        StopPositionUpdates();
      } else {
        commands := commands + [Play(currentSoundObject.value)];
        state := state.(isPlaying := true);
        StartPositionUpdates();
      }
      NotifyStateChange();
    }

    /**
     * `setMixVolume(v)`: stores `v` unclamped as the mix volume and sends each
     * handled track its own volume times `v`; track volumes are unchanged.
     */
    method SetMixVolume(volume: real)
      requires Valid()
      modifies this
      ensures Valid()
      ensures state == old(state).(mixVolume := volume)
      ensures commands == old(commands) + TrackCommands(state.activeSounds, VolumeOp(volume))
      ensures currentSoundObject == old(currentSoundObject) && nextHandle == old(nextHandle)
      ensures positionTimerActive == old(positionTimerActive)
      ensures stateListeners == old(stateListeners) && pendingTimer == old(pendingTimer)
      ensures deliveries == old(deliveries) + Broadcast(stateListeners, state)
    {
      state := state.(mixVolume := volume);
      var sent := SendToTracks(state.activeSounds, VolumeOp(volume), isSimulationMode);
      commands := commands + sent;
      NotifyStateChange();
    }

    /**
     * `setVolume(v)`: stores `v` unclamped. In mix mode it is also applied as
     * the mix volume (two notifications); otherwise it goes to the single handle.
     */
    method SetVolume(volume: real)
      requires Valid()
      modifies this
      ensures Valid()
      ensures old(state.isMixMode) ==>
                state == old(state).(volume := volume, mixVolume := volume) &&
                commands == old(commands) + TrackCommands(state.activeSounds, VolumeOp(volume)) &&
                deliveries == old(deliveries) + Broadcast(stateListeners, state) + Broadcast(stateListeners, state)
      ensures !old(state.isMixMode) ==>
                state == old(state).(volume := volume) &&
                commands == old(commands) +
                            (if currentSoundObject.Some? && !isSimulationMode
                             then [Tracks.SetVolume(currentSoundObject.value, volume)] else []) &&
                deliveries == old(deliveries) + Broadcast(stateListeners, state)
      ensures currentSoundObject == old(currentSoundObject) && nextHandle == old(nextHandle)
      ensures positionTimerActive == old(positionTimerActive)
      ensures stateListeners == old(stateListeners) && pendingTimer == old(pendingTimer)
    {
      state := state.(volume := volume);
      if state.isMixMode {
        SetMixVolume(volume);
      } else if currentSoundObject.Some? && !isSimulationMode {
        commands := commands + [Tracks.SetVolume(currentSoundObject.value, volume)];
      }
      NotifyStateChange();
    }

    /**
     * `setSoundVolumeInMix(id, v)`: the first track with that id takes volume
     * `v` and its handle gets `v` times the mix volume; an absent id changes nothing.
     */
    method SetSoundVolumeInMix(soundId: string, volume: real)
      requires Valid()
      modifies this
      ensures Valid()
      ensures var k := TrackIndex(old(state.activeSounds), soundId);
              (k.None? ==> state == old(state) && commands == old(commands) && deliveries == old(deliveries)) &&
              (k.Some? ==>
                 var e := old(state.activeSounds)[k.value];
                 state == old(state).(activeSounds := old(state.activeSounds)[k.value := e.(volume := volume)]) &&
                 commands == old(commands) +
                             (if e.sound.Some? && !isSimulationMode
                              then [Tracks.SetVolume(e.sound.value, Scaled(volume, old(state.mixVolume)))] else []) &&
                 deliveries == old(deliveries) + Broadcast(stateListeners, state))
      ensures currentSoundObject == old(currentSoundObject) && nextHandle == old(nextHandle)
      ensures positionTimerActive == old(positionTimerActive)
      ensures stateListeners == old(stateListeners) && pendingTimer == old(pendingTimer)
    {
      var k := TrackIndex(state.activeSounds, soundId);
      if k.None? {
        return;
      }
      var e := state.activeSounds[k.value];
      state := state.(activeSounds := state.activeSounds[k.value := e.(volume := volume)]);
      if e.sound.Some? && !isSimulationMode {
        var v := Scaled(volume, state.mixVolume);
        commands := commands + [Tracks.SetVolume(e.sound.value, v)];
      }
      NotifyStateChange();
    }

    /**
     * `addSoundToMix(id, volume)`, returning whether the id was found (the
     * source throws otherwise). Mix mode is switched on before the lookup. An
     * id already playing only takes the new volume, sent raw to its handle,
     * without a notification. A new sound becomes a track: simulated and
     * playing, or on a fresh handle created at `volume` times the mix volume
     * and playing only if the engine is; one without an asset is skipped.
     */
    method AddSoundToMix(soundId: string, volume: real, now: int) returns (found: bool)
      requires Valid()
      modifies this`state, this`commands, this`nextHandle, this`deliveries
      ensures Valid()
      ensures found <==> catalog(soundId).Some?
      ensures var flipped := old(state).(isMixMode := true, mode := if old(state.isMixMode) then old(state.mode) else Mix);
              (!found ==> state == flipped && commands == old(commands) && deliveries == old(deliveries) &&
                          nextHandle == old(nextHandle)) &&
              (found ==>
                 var tracks := old(state.activeSounds);
                 var admitted := Admits(isSimulationMode, catalog, hasAsset, soundId);
                 var r := AddSound(tracks, soundId, volume, catalog(soundId).value, admitted, isSimulationMode,
                                   old(nextHandle), old(state.isPlaying), old(state.mixVolume), now);
                 state == flipped.(activeSounds := r.tracks) && nextHandle == r.nextHandle &&
                 commands == old(commands) + r.calls &&
                 deliveries == old(deliveries) +
                               (if TrackIndex(tracks, soundId).None? && admitted then Broadcast(stateListeners, state) else []))
      ensures currentSoundObject == old(currentSoundObject) && positionTimerActive == old(positionTimerActive)
      ensures stateListeners == old(stateListeners) && pendingTimer == old(pendingTimer)
    {
      if !state.isMixMode {
        state := state.(isMixMode := true, mode := Mix);
      }
      var sd := catalog(soundId);
      if sd.None? {
        return false;
      }
      found := true;
      AddKnownSound(soundId, sd.value, volume, now);
    }

    /**
     * `addSoundToMix` once the catalog has found the sound: an id already
     * in the mix is retuned, any other becomes a new track.
     */
    method AddKnownSound(soundId: string, sd: Sound, volume: real, now: int)
      requires Valid() && catalog(soundId) == Some(sd)
      modifies this`state, this`commands, this`nextHandle, this`deliveries
      ensures Valid()
      ensures var tracks := old(state.activeSounds);
              var admitted := Admits(isSimulationMode, catalog, hasAsset, soundId);
              var r := AddSound(tracks, soundId, volume, sd, admitted, isSimulationMode,
                                old(nextHandle), old(state.isPlaying), old(state.mixVolume), now);
              state == old(state).(activeSounds := r.tracks) && nextHandle == r.nextHandle &&
              commands == old(commands) + r.calls &&
              deliveries == old(deliveries) +
                            (if TrackIndex(tracks, soundId).None? && admitted then Broadcast(stateListeners, state) else [])
      ensures currentSoundObject == old(currentSoundObject) && positionTimerActive == old(positionTimerActive)
      ensures stateListeners == old(stateListeners) && pendingTimer == old(pendingTimer)
    {
      var k := TrackIndex(state.activeSounds, soundId);
      if k.Some? {
        RetuneTrack(k.value, volume);
      } else {
        AddFreshTrack(soundId, sd, volume, now);
      }
    }

    /**
     * The branch of `addSoundToMix` for a sound already in the mix: track `j`
     * takes the new volume and its handle gets it raw; nobody is notified.
     */
    method RetuneTrack(j: nat, volume: real)
      requires Valid() && j < |state.activeSounds|
      modifies this`state, this`commands
      ensures Valid()
      ensures var e := old(state.activeSounds)[j];
              state == old(state).(activeSounds := old(state.activeSounds)[j := e.(volume := volume)]) &&
              commands == old(commands) +
                          (if e.sound.Some? && !isSimulationMode then [Tracks.SetVolume(e.sound.value, volume)] else [])
      ensures TrackIds(state.activeSounds) == TrackIds(old(state.activeSounds))
      ensures deliveries == old(deliveries) && nextHandle == old(nextHandle)
      ensures currentSoundObject == old(currentSoundObject) && positionTimerActive == old(positionTimerActive)
      ensures stateListeners == old(stateListeners) && pendingTimer == old(pendingTimer)
    {
      var tracks := state.activeSounds;
      var e := tracks[j];
      state := state.(activeSounds := tracks[j := e.(volume := volume)]);
      if e.sound.Some? && !isSimulationMode {
        commands := commands + [Tracks.SetVolume(e.sound.value, volume)];
      }
      SameIds(tracks, state.activeSounds);
    }

    /**
     * The branch of `addSoundToMix` for a sound not yet in the mix: a
     * simulated engine appends a playing track without a handle; a real one
     * skips a file without an asset, and otherwise creates a handle at
     * `volume` times the mix volume, playing only if the engine is, and
     * appends its track. An appended track is announced.
     */
    method AddFreshTrack(soundId: string, sd: Sound, volume: real, now: int)
      requires Valid()
      modifies this`state, this`commands, this`nextHandle, this`deliveries
      ensures Valid()
      ensures var admitted := isSimulationMode || hasAsset(sd.fileName);
              var entry := NewEntry(isSimulationMode, soundId, volume, sd, old(nextHandle), old(state.isPlaying), now);
              state == old(state).(activeSounds := if admitted then old(state.activeSounds) + [entry] else old(state.activeSounds)) &&
              commands == old(commands) +
                          (if admitted && !isSimulationMode
                           then [Create(old(nextHandle), sd.fileName, old(state.isPlaying), sd.isLooped, Scaled(volume, old(state.mixVolume)))]
                           else []) &&
              deliveries == old(deliveries) + (if admitted then Broadcast(stateListeners, state) else []) &&
              nextHandle == old(nextHandle) + (if admitted && !isSimulationMode then 1 else 0) &&
              TrackIds(state.activeSounds) == TrackIds(old(state.activeSounds)) + (if admitted then [soundId] else [])
      ensures currentSoundObject == old(currentSoundObject) && positionTimerActive == old(positionTimerActive)
      ensures stateListeners == old(stateListeners) && pendingTimer == old(pendingTimer)
    {
      var tracks := state.activeSounds;
      if isSimulationMode {
        var entry := ActiveSound(soundId, None, volume, sd, true, 0, now);
        state := state.(activeSounds := tracks + [entry]);
      } else {
        if !hasAsset(sd.fileName) {
          return;
        }
        var h := nextHandle;
        nextHandle := nextHandle + 1;
        var v := Scaled(volume, state.mixVolume);
        commands := commands + [Create(h, sd.fileName, state.isPlaying, sd.isLooped, v)];
        var entry := ActiveSound(soundId, Some(h), volume, sd, state.isPlaying, 0, now);
        state := state.(activeSounds := tracks + [entry]);
      }
      assert TrackIds(state.activeSounds) == TrackIds(tracks) + [soundId];
      NotifyStateChange();
    }

    /**
     * `removeSoundFromMix(id)`: an absent id changes nothing. Otherwise the
     * first track with that id is stopped, unloaded and removed, the others
     * keep their order; when none is left, mix mode ends and playback stops.
     */
    method RemoveSoundFromMix(soundId: string)
      requires Valid()
      modifies this
      ensures Valid()
      ensures var k := TrackIndex(old(state.activeSounds), soundId);
              (k.None? ==> state == old(state) && commands == old(commands) && deliveries == old(deliveries)) &&
              (k.Some? ==>
                 var e := old(state.activeSounds)[k.value];
                 var rest := RemoveAt(old(state.activeSounds), k.value);
                 state == (if rest == [] then old(state).(activeSounds := rest, isMixMode := false, isPlaying := false,
                                                          currentMix := None, mode := Single)
                           else old(state).(activeSounds := rest)) &&
                 commands == old(commands) +
                             (if e.sound.Some? && !isSimulationMode then [Stop(e.sound.value), Unload(e.sound.value)] else []) &&
                 deliveries == old(deliveries) + Broadcast(stateListeners, state))
      ensures currentSoundObject == old(currentSoundObject) && nextHandle == old(nextHandle)
      ensures positionTimerActive == old(positionTimerActive)
      ensures stateListeners == old(stateListeners) && pendingTimer == old(pendingTimer)
    {
      var k := TrackIndex(state.activeSounds, soundId);
      if k.None? {
        return;
      }
      var e := state.activeSounds[k.value];
      if e.sound.Some? && !isSimulationMode {
        commands := commands + [Stop(e.sound.value), Unload(e.sound.value)];
      }
      state := state.(activeSounds := RemoveAt(state.activeSounds, k.value));
      if |state.activeSounds| == 0 {
        state := state.(isMixMode := false, isPlaying := false, currentMix := None, mode := Single);
      }
      NotifyStateChange();
    }

    /**
     * `simulateMixPlayback(mix)`: the mix becomes current and playing in mix
     * mode, with one simulated track per listed sound the catalog knows.
     */
    method SimulateMixPlayback(mix: SoundMix, now: int)
      requires Valid()
      modifies this`state, this`positionTimerActive, this`deliveries
      ensures Valid()
      ensures state == old(state).(currentMix := Some(mix), isMixMode := true, isPlaying := true, mode := Mix,
                                   activeSounds := SimulatedTracks(mix.sounds, catalog, now))
      ensures positionTimerActive
      ensures commands == old(commands) && currentSoundObject == old(currentSoundObject) && nextHandle == old(nextHandle)
      ensures stateListeners == old(stateListeners) && pendingTimer == old(pendingTimer)
      ensures deliveries == old(deliveries) + Broadcast(stateListeners, state)
      ensures |deliveries| >= |stateListeners| && deliveries[|deliveries| - |stateListeners|..] == Broadcast(stateListeners, state)
    {
      state := state.(currentMix := Some(mix), isMixMode := true, isPlaying := true, mode := Mix, activeSounds := []);
      var tracks := [];
      var i := 0;
      while i < |mix.sounds|
        modifies {}
        invariant 0 <= i <= |mix.sounds|
        invariant tracks == SimulatedTracks(mix.sounds[..i], catalog, now)
      {
        var ms := mix.sounds[i];
        assert mix.sounds[..i + 1][..i] == mix.sounds[..i];
        var sd := catalog(ms.soundId);
        if sd.Some? {
          tracks := tracks + [SimulatedTrack(ms, sd.value, now)];
        }
        i := i + 1;
      }
      assert mix.sounds[..i] == mix.sounds;
      state := state.(activeSounds := tracks);
      SimulatedTracksFields(mix.sounds, catalog, now);
      StartPositionUpdates();
      NotifyStateChange();
    }

    /**
     * `playMix(mix)`: stops everything, then adds each listed sound in turn.
     * If every id is known, the tracks are one per distinct id, in first-listed
     * order, at the last listed volume, and the state reports the mix playing
     * in mix mode; on a real engine no track is started and the interval stays
     * off. An unknown id aborts the loop and falls back to `simulateMixPlayback`.
     */
    method PlayMix(mix: SoundMix, now: int)
      requires Valid()
      modifies this
      ensures Valid()
      ensures state == Stopped(old(state)).(isMixMode := true, currentMix := Some(mix), isPlaying := true, mode := Mix,
                                            activeSounds := state.activeSounds)
      ensures var resolvable := forall k :: 0 <= k < |mix.sounds| ==> catalog(mix.sounds[k].soundId).Some?;
              (resolvable ==>
                 TrackIds(state.activeSounds) == Dedup(MixIds(mix.sounds)) &&
                 MixBuilt(state.activeSounds, mix.sounds, isSimulationMode, AdmitsIn(isSimulationMode, catalog, hasAsset)) &&
                 !positionTimerActive) &&
              (!resolvable ==> state.activeSounds == SimulatedTracks(mix.sounds, catalog, now) && positionTimerActive)
      ensures currentSoundObject.None?
      ensures var released := old(commands) + ReleaseCommands(old(currentSoundObject), isSimulationMode, old(state.activeSounds));
              released <= commands && NothingStarted(commands[|released|..])
      ensures |deliveries| >= |stateListeners| && deliveries[|deliveries| - |stateListeners|..] == Broadcast(stateListeners, state)
      ensures stateListeners == old(stateListeners) && pendingTimer == old(pendingTimer)
    {
      StopAllSounds();
      state := state.(isMixMode := true, currentMix := Some(mix), activeSounds := []);
      var failed := LoadMixAndPlay(mix, now);
    }

    /**
     * The rest of `playMix` once everything is stopped and the mix is
     * current: the loop over its sounds, then either the state reports the
     * mix playing, or, after an unknown id, `simulateMixPlayback` takes over.
     */
    method LoadMixAndPlay(mix: SoundMix, now: int) returns (failed: bool)
      requires Valid()
      requires state.isMixMode && !state.isPlaying && state.activeSounds == [] && state.currentMix == Some(mix)
      modifies this`state, this`commands, this`nextHandle, this`deliveries, this`positionTimerActive
      ensures Valid()
      ensures !failed <==> forall k :: 0 <= k < |mix.sounds| ==> catalog(mix.sounds[k].soundId).Some?
      ensures state == old(state).(isPlaying := true, mode := Mix, activeSounds := state.activeSounds)
      ensures !failed ==>
                TrackIds(state.activeSounds) == Dedup(MixIds(mix.sounds)) &&
                MixBuilt(state.activeSounds, mix.sounds, isSimulationMode, AdmitsIn(isSimulationMode, catalog, hasAsset)) &&
                positionTimerActive == old(positionTimerActive)
      ensures failed ==> state.activeSounds == SimulatedTracks(mix.sounds, catalog, now) && positionTimerActive
      ensures old(commands) <= commands && NothingStarted(commands[|old(commands)|..])
      ensures |deliveries| >= |stateListeners| && deliveries[|deliveries| - |stateListeners|..] == Broadcast(stateListeners, state)
      ensures currentSoundObject == old(currentSoundObject)
      ensures stateListeners == old(stateListeners) && pendingTimer == old(pendingTimer)
    {
      failed := AddMixSounds(mix, now);
      FinishMix(mix, now, failed);
    }

    /**
     * How `playMix` ends: after the loop the state reports the mix playing;
     * after an unknown id, `simulateMixPlayback` replaces the tracks by
     * simulated ones and starts the position interval.
     */
    method FinishMix(mix: SoundMix, now: int, failed: bool)
      requires Valid()
      requires state.isMixMode && state.currentMix == Some(mix)
      modifies this`state, this`deliveries, this`positionTimerActive
      ensures Valid()
      ensures state == old(state).(isPlaying := true, mode := Mix, activeSounds := state.activeSounds)
      ensures !failed ==> state.activeSounds == old(state.activeSounds) && positionTimerActive == old(positionTimerActive)
      ensures failed ==> state.activeSounds == SimulatedTracks(mix.sounds, catalog, now) && positionTimerActive
      ensures |deliveries| >= |stateListeners| && deliveries[|deliveries| - |stateListeners|..] == Broadcast(stateListeners, state)
    {
      if !failed {
        MixStarted();
      } else {
        SimulateMixPlayback(mix, now);
      }
    }

    /** The end of `playMix` once every sound is added: the mix is reported playing. */
    method MixStarted()
      requires Valid()
      modifies this`state, this`deliveries
      ensures Valid()
      ensures state == old(state).(isPlaying := true, mode := Mix)
      ensures deliveries == old(deliveries) + Broadcast(stateListeners, state)
      ensures |deliveries| >= |stateListeners| && deliveries[|deliveries| - |stateListeners|..] == Broadcast(stateListeners, state)
    {
      state := state.(isPlaying := true, mode := Mix);
      NotifyStateChange();
    }

    /**
     * The loop of `playMix`: `addSoundToMix` for each listed sound of the mix
     * in turn, on an engine in mix mode that is not playing and holds no
     * track. The first unknown id ends the loop (the source's throw), and
     * `failed` says whether there was one. The engine then holds what
     * `LoadMix` builds from the sounds before it: no handle call starts a
     * sound, and without an unknown id the tracks are as `MixBuilt` says.
     */
    method AddMixSounds(mix: SoundMix, now: int) returns (failed: bool)
      requires Valid()
      requires state.isMixMode && !state.isPlaying && state.activeSounds == []
      modifies this`state, this`commands, this`nextHandle, this`deliveries
      ensures Valid()
      ensures !failed <==> forall k :: 0 <= k < |mix.sounds| ==> catalog(mix.sounds[k].soundId).Some?
      ensures state == old(state).(activeSounds := state.activeSounds)
      ensures old(commands) <= commands && NothingStarted(commands[|old(commands)|..])
      ensures !failed ==>
                TrackIds(state.activeSounds) == Dedup(MixIds(mix.sounds)) &&
                MixBuilt(state.activeSounds, mix.sounds, isSimulationMode, AdmitsIn(isSimulationMode, catalog, hasAsset))
      ensures currentSoundObject == old(currentSoundObject) && positionTimerActive == old(positionTimerActive)
      ensures stateListeners == old(stateListeners) && pendingTimer == old(pendingTimer)
    {
      ghost var h0 := nextHandle;
      failed := LoadSounds(mix, now);
      ghost var n := FirstUnknown(mix.sounds, catalog);
      ghost var l := LoadMix(mix.sounds[..n], isSimulationMode, catalog, hasAsset, h0, old(state.mixVolume), now);
      LoadUntilUnknownQuiet(mix.sounds, isSimulationMode, catalog, hasAsset, h0, old(state.mixVolume), now);
      if failed {
        FirstUnknownMissing(mix.sounds, catalog);
      } else {
        assert mix.sounds[..n] == mix.sounds;
        LoadAllKnown(mix.sounds, isSimulationMode, catalog, hasAsset, h0, old(state.mixVolume), now);
      }
      assert commands[|old(commands)|..] == l.calls;
    }

    /**
     * The loop itself: it stops at the first unknown id, and the engine then
     * holds what `LoadMix` builds from the sounds before it.
     */
    method LoadSounds(mix: SoundMix, now: int) returns (failed: bool)
      requires Valid()
      requires state.isMixMode && !state.isPlaying && state.activeSounds == []
      modifies this`state, this`commands, this`nextHandle, this`deliveries
      ensures Valid()
      ensures var n := FirstUnknown(mix.sounds, catalog);
              (failed <==> n < |mix.sounds|) && Loaded(state, nextHandle, commands, isSimulationMode, catalog, hasAsset, mix.sounds[..n], old(state), old(nextHandle), old(commands), now)
      ensures currentSoundObject == old(currentSoundObject) && positionTimerActive == old(positionTimerActive)
      ensures stateListeners == old(stateListeners) && pendingTimer == old(pendingTimer)
    {
      ghost var start := state;
      ghost var released := commands;
      ghost var h0 := nextHandle;
      var i := 0;
      failed := false;
      while i < |mix.sounds|
        invariant 0 <= i <= |mix.sounds|
        invariant Valid()
        invariant i <= FirstUnknown(mix.sounds, catalog)
        invariant Loaded(state, nextHandle, commands, isSimulationMode, catalog, hasAsset, mix.sounds[..i], start, h0, released, now)
      {
        var found := LoadNextSound(mix, i, now, start, h0, released);
        if !found {
          failed := true;
          break;
        }
        i := i + 1;
      }
      assert i == FirstUnknown(mix.sounds, catalog);
    }

    /**
     * One turn of the `playMix` loop: `addSoundToMix` for the `i`-th sound of
     * the mix after the ones before it were loaded. Its id is known exactly
     * when no earlier id was unknown; an unknown id leaves everything as it was.
     */
    method LoadNextSound(mix: SoundMix, i: nat, now: int, ghost start: PlaybackState, ghost h0: Handle,
                         ghost released: seq<Command>) returns (found: bool)
      requires Valid() && start.isMixMode && !start.isPlaying
      requires i < |mix.sounds| && i <= FirstUnknown(mix.sounds, catalog)
      requires Loaded(state, nextHandle, commands, isSimulationMode, catalog, hasAsset, mix.sounds[..i], start, h0, released, now)
      modifies this`state, this`commands, this`nextHandle, this`deliveries
      ensures Valid()
      ensures found <==> i < FirstUnknown(mix.sounds, catalog)
      ensures found ==> Loaded(state, nextHandle, commands, isSimulationMode, catalog, hasAsset, mix.sounds[..i + 1], start, h0, released, now)
      ensures !found ==> state == old(state) && nextHandle == old(nextHandle) && commands == old(commands)
      ensures currentSoundObject == old(currentSoundObject) && positionTimerActive == old(positionTimerActive)
      ensures stateListeners == old(stateListeners) && pendingTimer == old(pendingTimer)
    {
      var ms := mix.sounds[i];
      ghost var s0, nh0, c0 := state, nextHandle, commands;
      found := AddSoundToMix(ms.soundId, ms.volume, now);
      if found {
        FirstUnknownPast(mix.sounds, catalog, i);
        LoadedStep(s0, nh0, c0, state, nextHandle, commands, isSimulationMode, catalog, hasAsset, mix.sounds, i, start, h0, released, now);
      } else {
        FirstUnknownAt(mix.sounds, catalog, i);
      }
    }

    /**
     * `setTimer(config)` at time `now`: replaces any pending timer by one
     * that fires after `duration` milliseconds; the state records the end
     * time and the fade length, which nothing acts on.
     */
    method SetTimer(duration: int, fadeDuration: int, autoStop: bool, now: int)
      modifies this
      ensures state == old(state).(timerEndTime := Some(now + duration), fadeDuration := Some(fadeDuration))
      ensures pendingTimer == Some(autoStop)
      ensures commands == old(commands) && currentSoundObject == old(currentSoundObject) && nextHandle == old(nextHandle)
      ensures positionTimerActive == old(positionTimerActive) && stateListeners == old(stateListeners)
      ensures deliveries == old(deliveries) + Broadcast(stateListeners, state)
    {
      pendingTimer := Some(autoStop);
      state := state.(timerEndTime := Some(now + duration), fadeDuration := Some(fadeDuration));
      NotifyStateChange();
    }

    /**
     * The stop timer's callback: with `autoStop` it stops everything (the
     * end time stays recorded); without, it does nothing. It fires once.
     */
    method TimerFires()
      requires Valid()
      modifies this
      ensures Valid()
      ensures pendingTimer.None?
      ensures old(pendingTimer) == Some(true) ==>
                state == Stopped(old(state)) && state.timerEndTime == old(state.timerEndTime) &&
                currentSoundObject.None? && !positionTimerActive &&
                commands == old(commands) + ReleaseCommands(old(currentSoundObject), isSimulationMode, old(state.activeSounds)) &&
                deliveries == old(deliveries) + Broadcast(stateListeners, state)
      ensures old(pendingTimer) != Some(true) ==>
                state == old(state) && commands == old(commands) && deliveries == old(deliveries) &&
                positionTimerActive == old(positionTimerActive) && currentSoundObject == old(currentSoundObject)
      ensures stateListeners == old(stateListeners) && nextHandle == old(nextHandle)
    {
      var autoStop := pendingTimer == Some(true);
      pendingTimer := None;
      if autoStop {
        StopAllSounds();
      }
    }

    /**
     * The position interval's callback `updatePosition()`, given the status
     * the queried handle would report. Simulated: while playing, one second
     * more and a notification, else nothing. Real: the first track's handle
     * in mix mode, the single handle otherwise, sets position and duration
     * when loaded; a notification follows in every case.
     */
    method UpdatePosition(status: HandleStatus)
      modifies this
      ensures isSimulationMode ==>
                state == old(state).(position := old(state.position) + (if old(state.isPlaying) then 1000 else 0)) &&
                deliveries == old(deliveries) + (if old(state.isPlaying) then Broadcast(stateListeners, state) else [])
      ensures !isSimulationMode ==>
                var queried := if old(state.isMixMode)
                               then |old(state.activeSounds)| > 0 && old(state.activeSounds)[0].sound.Some?
                               else old(currentSoundObject).Some?;
                state == (if queried && status.isLoaded
                          then old(state).(position := OrZero(status.positionMillis), duration := OrZero(status.durationMillis))
                          else old(state)) &&
                deliveries == old(deliveries) + Broadcast(stateListeners, state)
      ensures commands == old(commands) && currentSoundObject == old(currentSoundObject) && nextHandle == old(nextHandle)
      ensures positionTimerActive == old(positionTimerActive)
      ensures stateListeners == old(stateListeners) && pendingTimer == old(pendingTimer)
    {
      if isSimulationMode {
        if state.isPlaying {
          state := state.(position := state.position + 1000);
          NotifyStateChange();
        }
        return;
      }
      if state.isMixMode {
        if |state.activeSounds| > 0 && state.activeSounds[0].sound.Some? && status.isLoaded {
          state := state.(position := OrZero(status.positionMillis), duration := OrZero(status.durationMillis));
        }
      } else if currentSoundObject.Some? && status.isLoaded {
        state := state.(position := OrZero(status.positionMillis), duration := OrZero(status.durationMillis));
      }
      NotifyStateChange();
    }
  }

  /**
   * An engine with state `st`, next handle `nh` and command log `cmds` holds
   * what loading `p` from `start` produces: the start state with the tracks
   * of `LoadMix`, its next handle, and its handle calls after `released`.
   */
  ghost predicate Loaded(st: PlaybackState, nh: Handle, cmds: seq<Command>, simulated: bool,
                         catalog: string -> Option<Sound>, hasAsset: string -> bool,
                         p: seq<MixSound>, start: PlaybackState, h0: Handle, released: seq<Command>, now: int)
  {
    var l := LoadMix(p, simulated, catalog, hasAsset, h0, start.mixVolume, now);
    st == start.(activeSounds := l.tracks) && nh == l.nextHandle && cmds == released + l.calls
  }

  /** One more known sound added to an engine holding the load of `s[..i]` leaves it holding the load of `s[..i + 1]`. */
  lemma LoadedStep(st0: PlaybackState, nh0: Handle, c0: seq<Command>, st1: PlaybackState, nh1: Handle, c1: seq<Command>,
                   simulated: bool, catalog: string -> Option<Sound>, hasAsset: string -> bool,
                   s: seq<MixSound>, i: nat, start: PlaybackState, h0: Handle, released: seq<Command>, now: int)
    requires i < |s| && catalog(s[i].soundId).Some? && !start.isPlaying
    requires Loaded(st0, nh0, c0, simulated, catalog, hasAsset, s[..i], start, h0, released, now)
    requires var r := AddSound(st0.activeSounds, s[i].soundId, s[i].volume, catalog(s[i].soundId).value,
                               Admits(simulated, catalog, hasAsset, s[i].soundId), simulated, nh0, st0.isPlaying, st0.mixVolume, now);
             st1 == st0.(activeSounds := r.tracks) && nh1 == r.nextHandle && c1 == c0 + r.calls
    ensures Loaded(st1, nh1, c1, simulated, catalog, hasAsset, s[..i + 1], start, h0, released, now)
  {
    var l := LoadMix(s[..i], simulated, catalog, hasAsset, h0, start.mixVolume, now);
    assert st0 == start.(activeSounds := l.tracks) && nh0 == l.nextHandle && c0 == released + l.calls;
    var r := AddSound(l.tracks, s[i].soundId, s[i].volume, catalog(s[i].soundId).value,
                      Admits(simulated, catalog, hasAsset, s[i].soundId), simulated, l.nextHandle, false, start.mixVolume, now);
    assert st1 == start.(activeSounds := r.tracks) && nh1 == r.nextHandle && c1 == c0 + r.calls;
    LoadMixNext(s, i, simulated, catalog, hasAsset, h0, start.mixVolume, now);
    assert c0 + r.calls == released + (l.calls + r.calls) by {
      AppendAssoc(released, l.calls, r.calls);
    }
  }
}
