# MoodVibe playback and library model

A Dafny model of the core of MoodVibe. MoodVibe is a React Native app for ambient sounds:

- single sounds are played from a bundled catalog;
- several sounds are layered into a *mix*, with a volume per track and a master mix volume;
- users save mixes, favourite sounds and keep preferences.

The model covers these modules:

- **`Audio.AudioService`** (`audio.dfy`): the playback engine as a class.
  - Its fields are the `PlaybackState` record, the single-mode handle, the position interval, the pending stop timer and the state listeners.
  - Calls on the platform audio library are recorded in a ghost log of `Command`s, and every listener invocation in a ghost log of deliveries.
  - A handle is a token issued by a counter.
  - An engine whose audio mode could not be set is *simulated* and never holds a handle.
  - The one-second position interval and the stop timeout become two explicit methods that the environment calls: `UpdatePosition` and `TimerFires`.
- **`Tracks`** (`tracks.dfy`): value-level descriptions of the engine's loops over its active tracks.
  - The commands a loop sends.
  - The tracks `playMix` builds.
  - What "stopped" means.
  - The bundled asset map.
- **`SoundMixes.SoundMixService`** (`soundmixes.dfy`): the saved-mix list, as a class whose `mixes` sequence the methods reassign. Beside the class are its pure queries: category filters, search, most played, recent, and the update overlay.
- **`MixTags`** (`mixtags.dfy`): the deterministic tag derivation for a new mix.
- **`Settings.SettingsService`** (`settings.dfy`): the preferences record and its setters.
  - Also the field-wise validation of an imported document.
  - Also the wording of the default timer duration.
- **`Favorites.FavoritesService`** (`favorites.dfy`): the favourite-sound set. The JavaScript `Set` is modelled as a duplicate-free sequence in insertion order.
- **`Sounds`** and **`Moods`** (`sounds.dfy`, `moods.dfy`): the two static catalogs with their lookups and filters.
- Shared helpers:
  - `Types`: the records of `src/types/index.ts`.
  - `Seqs`: filter, remove-first, insertion-ordered sets, stable descending sort.
  - `Text`: substring test, ASCII lower-casing, decimal printing.
  - `Listeners`: one broadcast to every listener.

Timestamps (`Date.now()`, `new Date()`) and generated ids are parameters. Volumes are `real`.

The model follows the code as written, including these behaviours:

- `stopAllSounds` leaves a pending stop timer and `timerEndTime` in place.
- `setVolume` and `setMixVolume` store the value they are given without clamping.
- `setTimer` accepts any duration; `TimerConfig.fadeDuration` is recorded but never applied.
- A volume re-sent by `addSoundToMix` to a sound already in the mix is the raw track volume, not scaled by the mix volume.
- `simulatePlaySound` does not clear `isMixMode`.
- `playMix` on a real engine creates every track not playing and never starts it, while it reports `isPlaying = true`. `Audio.AudioService.PlayMix` states this as `NothingStarted`: no `Play` command is sent and no track is created playing.
- `getMoodsByEmotion` returns moods in catalog order.

## Model

| member | source | states |
|---|---|---|
| Audio.AudioService.constructor | src/services/AudioService.ts:54-91 | The engine starts idle: initial state (both volumes 0.8, single mode, nothing active), no handle, no interval, no timer, no listeners; simulated exactly when the audio mode could not be set |
| Audio.AudioService.GetPlaybackState | src/services/AudioService.ts:313-315 | Returns the current playback state as a value |
| Audio.AudioService.AddStateListener | src/services/AudioService.ts:320-322 | Appends the listener at the end of the list |
| Audio.AudioService.RemoveStateListener | src/services/AudioService.ts:327-332 | Removes only the first occurrence of the listener; no-op if absent |
| Audio.AudioService.NotifyStateChange | src/services/AudioService.ts:376-379 | Every listener, in order, receives the current state once |
| Audio.AudioService.StartPositionUpdates | src/services/AudioService.ts:381-386 | The position interval is registered |
| Audio.AudioService.StopPositionUpdates | src/services/AudioService.ts:388-393 | The position interval is cleared |
| Audio.AudioService.StopAllSounds | src/services/AudioService.ts:232-267 | New state is `Stopped(old)`; the single handle and every track handle get exactly Stop and Unload (nothing on a simulated engine); interval cleared; listeners notified once; the pending timer is kept |
| Audio.AudioService.StopSound | src/services/AudioService.ts:228-230 | Same outcome as stopping all sounds |
| Audio.AudioService.Cleanup | src/services/AudioService.ts:337-341 | Stops like `stopSound` (listeners still notified), then no listener is left and the engine is no longer initialised |
| Audio.AudioService.SimulatePlaySound | src/services/AudioService.ts:434-441 | Sets the current sound, playing, single mode and duration = sound seconds × 1000 without touching `isMixMode` or any handle; interval registered |
| Audio.AudioService.PlaySound | src/services/AudioService.ts:96-160 | Outside mix mode the engine stops first. Unknown id: nothing more (outside mix mode the handle and the interval end cleared, in mix mode both are kept). Known but not loadable (simulated or no asset): simulated playback with the interval registered. Loadable: one `Create` with shouldPlay true at the engine volume; in mix mode a playing track is appended, otherwise the handle becomes the single sound. Notifications are given in order |
| Audio.AudioService.TogglePlayback | src/services/AudioService.ts:165-171 | `isPlaying` is negated. In mix mode every track takes the new flag, each track handle gets Play or Pause, and the interval runs exactly when now playing. Outside mix mode a real engine with a handle sends Play or Pause to it and the interval follows the new flag; otherwise no command is sent and the interval is unchanged |
| Audio.AudioService.ToggleMixPlayback | src/services/AudioService.ts:173-200 | `isPlaying` is negated; every active track gets the new flag; each handled track gets Play or Pause accordingly; the interval runs exactly when now playing |
| Audio.AudioService.ToggleSinglePlayback | src/services/AudioService.ts:202-223 | `isPlaying` is negated; with a real single handle it gets Pause when it was playing, Play otherwise; the interval follows. Without one only the flag changes |
| Audio.AudioService.SetMixVolume | src/services/AudioService.ts:470-485 | Only `mixVolume` changes, per-track volumes are kept; each handled track is sent its own volume × the new mix volume |
| Audio.AudioService.SetVolume | src/services/AudioService.ts:272-288 | The raw volume is stored; in mix mode it also becomes the mix volume and is applied to every track, and listeners are notified twice; otherwise the single handle gets it unscaled |
| Audio.AudioService.SetSoundVolumeInMix | src/services/AudioService.ts:607-626 | Absent id: nothing changes. Otherwise only that track's volume changes and its handle is sent volume × mix volume |
| Audio.AudioService.AddSoundToMix | src/services/AudioService.ts:511-575 | Mix mode is switched on before the lookup, so an unknown id returns not found with the mode left flipped; a known id adds the sound exactly as `Tracks.AddSound` describes; listeners are notified only when a track was appended |
| Audio.AudioService.AddKnownSound | src/services/AudioService.ts:521-575 | A sound the catalog knows is added exactly as `Tracks.AddSound` describes: retuned when already in the mix, otherwise appended when admitted; a notification only for an appended track |
| Audio.AudioService.RetuneTrack | src/services/AudioService.ts:522-533 | A re-added sound only overwrites that track's volume, and its handle gets the raw volume; ids are unchanged and nothing is appended |
| Audio.AudioService.AddFreshTrack | src/services/AudioService.ts:535-574 | A new sound gets one track at the end when simulated or when its file has an asset: real tracks on a fresh handle created playing as the engine, at volume × mix volume; a missing asset changes nothing |
| Audio.AudioService.RemoveSoundFromMix | src/services/AudioService.ts:577-605 | Absent id: nothing changes. Otherwise exactly that track is removed with the rest in order, its handle is stopped and unloaded, and an emptied list leaves mix mode (not playing, no mix, single) |
| Audio.AudioService.SimulateMixPlayback | src/services/AudioService.ts:443-468 | The mix becomes current and playing in mix mode, with one simulated playing track per resolvable mix sound; the interval is registered |
| Audio.AudioService.PlayMix | src/services/AudioService.ts:487-509 | After stopping: mix mode, the mix current, `isPlaying` true. When every id resolves, the tracks are one per distinct id in first-listed order, each at its last-listed volume (`MixBuilt`). Otherwise the simulated fallback result. No command starts a sound; listeners last see the final state |
| Audio.AudioService.LoadMixAndPlay | src/services/AudioService.ts:492-508 | The try block of `playMix` on an emptied mix: fails exactly when some id is unknown, and then falls back to simulation; otherwise the built tracks, playing flag and mode |
| Audio.AudioService.FinishMix | src/services/AudioService.ts:501-507 | Success marks the mix playing in mix mode with its tracks kept; failure replaces the tracks with the simulated ones |
| Audio.AudioService.MixStarted | src/services/AudioService.ts:501-503 | Sets playing and mix mode, then notifies every listener of that state |
| Audio.AudioService.AddMixSounds | src/services/AudioService.ts:497-499 | Reports failure exactly when some mix sound is unknown; on success the tracks are those `MixBuilt` describes with ids `Dedup` of the mix ids; no command starts a sound |
| Audio.AudioService.LoadSounds | src/services/AudioService.ts:497-499 | The loop stops at the first unknown id, and the state then equals `Tracks.LoadMix` of the prefix before it |
| Audio.AudioService.LoadNextSound | src/services/AudioService.ts:498 | One iteration: succeeds exactly when the next id precedes the first unknown one, extending the loaded prefix by one; otherwise nothing changes |
| Audio.LoadedStep | src/services/AudioService.ts:497-499 | Adding the next known sound of the mix to an engine that holds the load of the sounds before it leaves the load of one more sound |
| Audio.AudioService.SetTimer | src/services/AudioService.ts:293-308 | `timerEndTime` = now + duration and `fadeDuration` is recorded; the previous timer is replaced by one holding `autoStop`; no fade, no clamping |
| Audio.AudioService.TimerFires | src/services/AudioService.ts:301-305 | The timer is consumed; with `autoStop` the engine ends `Stopped` with all handles released, no single handle and no interval; otherwise nothing else changes |
| Audio.AudioService.UpdatePosition | src/services/AudioService.ts:395-431 | Simulated: position grows by exactly 1000 only while playing. Real: position and duration are read from the status of the first track (mix) or single handle when loaded; listeners notified |
| Tracks.AssetIndex | src/services/AudioService.ts:33-52 | The file of every catalog sound has an entry in the asset map |
| Tracks.CatalogAssetsAvailable | src/services/AudioService.ts:33-52 | Every catalog file name maps to an asset |
| Tracks.TrackIndex | src/services/AudioService.ts:578-580 | The first track with that id, or none exactly when no track has it |
| Tracks.TrackCommands | src/services/AudioService.ts:242-251 | A loop over tracks without handles sends nothing |
| Tracks.TrackCommandsSound | src/services/AudioService.ts:177-191 | Every command a loop sends belongs to some handled track |
| Tracks.TrackCommandsComplete | src/services/AudioService.ts:177-191 | Every handled track receives its commands |
| Tracks.VolumeCommandsScale | src/services/AudioService.ts:470-485 | Every volume sent by the mix-volume loop is some handled track's volume × the factor |
| Tracks.TrackCommandsSnoc | src/services/AudioService.ts:177-191 | The commands of a prefix one longer extend those of the shorter prefix by that track's commands |
| Tracks.SendToTracks | src/services/AudioService.ts:177-191 | The loop sends the track commands on a real engine and nothing on a simulated one |
| Tracks.SetAllPlaying | src/services/AudioService.ts:177-178 | Same tracks in the same order with only `isPlaying` changed to the given flag |
| Tracks.LastVolumeSpec | src/services/AudioService.ts:522-528 | The volume a repeated id ends with is the one of its last occurrence in the mix |
| Tracks.SimulatedTrackIds | src/services/AudioService.ts:443-468 | Simulated mix tracks are exactly the resolvable mix ids, in mix order |
| Tracks.SimulatedTracksFields | src/services/AudioService.ts:449-462 | Each simulated track has no handle, plays from position 0 at the given time, with its catalog data and the volume of one mix sound |
| Tracks.ResolvedAdmitted | src/services/AudioService.ts:535-553 | A sound the catalog knows always gets a track (simulated, or its asset exists) |
| Tracks.CatalogAdmits | src/services/AudioService.ts:535-553 | The same for every catalog id |
| Tracks.MixAdmitted | src/services/AudioService.ts:535-553 | When every mix id resolves, none is dropped for a missing asset |
| Tracks.AddTrack | src/services/AudioService.ts:522-546 | Either the list keeps its length with at most volumes changed, or exactly the new entry is appended |
| Tracks.AddTrackIds | src/services/AudioService.ts:522-572 | Adding one sound keeps the ids equal to the first-occurrence list of admitted mix ids, so they stay distinct |
| Tracks.RetunedIds | src/services/AudioService.ts:522-533 | Retuning a sound already in the mix leaves the track ids unchanged |
| Tracks.AppendedIds | src/services/AudioService.ts:535-572 | Appending a new sound appends exactly its id to the track ids |
| Tracks.AddTrackVolumes | src/services/AudioService.ts:526-528 | After adding one sound every track holds the last volume listed for its id |
| Tracks.NewEntry | src/services/AudioService.ts:537-569 | A new track has the id, volume and data given, position 0 at the given time; it has no handle exactly when simulated and plays when simulated or when the engine plays |
| Tracks.AddCommands | src/services/AudioService.ts:529-559 | At most one call; none on a simulated engine; nothing started while the engine is not playing |
| Tracks.MixBuiltStart | src/services/AudioService.ts:494 | The empty list is the result of adding no sounds |
| Tracks.MixBuiltStep | src/services/AudioService.ts:497-499 | One `addSoundToMix` on a non-playing engine preserves `MixBuilt` for the extended prefix |
| Tracks.AddSound | src/services/AudioService.ts:522-572 | Re-add: same length, handle counter kept, that track takes the new volume. New admitted id: the new entry appended, a fresh handle on a real engine. Not admitted: nothing changes. Nothing is started unless playing |
| Tracks.LoadMixSnoc | src/services/AudioService.ts:497-499 | Loading one more resolvable sound is one more `AddSound` on the current tracks and handle counter |
| Tracks.LoadMixNext | src/services/AudioService.ts:497-499 | Loading the sounds through index i is one more `AddSound` of sound i after loading the ones before it |
| Tracks.FirstUnknownPast | src/services/AudioService.ts:517-520 | A resolvable id at the frontier is before the first unknown one |
| Tracks.FirstUnknownAt | src/services/AudioService.ts:517-520 | An unknown id bounds the first unknown position |
| Tracks.FirstUnknownMissing | src/services/AudioService.ts:517-520 | The sound at the first unknown position does not resolve |
| Tracks.FirstUnknownSpec | src/services/AudioService.ts:517-520 | All sounds before the first unknown position resolve, and the one at it does not |
| Tracks.LoadMixSpec | src/services/AudioService.ts:497-499 | Loading a fully resolvable mix onto a non-playing engine yields `MixBuilt` and starts nothing |
| Tracks.LoadUntilUnknownQuiet | src/services/AudioService.ts:497-508 | The part loaded before a failed lookup starts nothing |
| Tracks.LoadAllKnown | src/services/AudioService.ts:487-503 | Without an unknown id the tracks are one per distinct mix id, in first-listed order, at their last volumes |
| Tracks.StoppedSpec | src/services/AudioService.ts:253-260 | Stopped: not playing, no current sound or mix, no tracks, single mode, position 0, with volumes, duration, timer end and fade kept; stopping twice equals stopping once |
| Tracks.ReleaseOnlyStops | src/services/AudioService.ts:242-251 | Releasing tracks sends only Stop and Unload |
| Tracks.ReleaseCommands | src/services/AudioService.ts:235-251 | Stopping sends only Stop and Unload, and nothing on a simulated engine |
| SoundMixes.PresetIdsDistinct | src/services/SoundMixService.ts:279-342 | Preset ids are pairwise distinct |
| SoundMixes.PresetSoundsResolve | src/services/SoundMixService.ts:279-342 | Every preset sound is in the catalog with a volume in (0, 1] |
| SoundMixes.PresetSoundResolves | src/services/SoundMixService.ts:279-342 | Each preset sound has a catalog position and a volume in (0, 1] |
| SoundMixes.Kept | src/services/SoundMixService.ts:114-127 | Exactly the mixes that pass the category filter, each kept as often as it occurs, and no others |
| SoundMixes.GetMixes | src/services/SoundMixService.ts:107-129 | Exactly the selected mixes (all for "" or "all"; custom, played or updated within a week otherwise), each as often as in the list, newest update first |
| SoundMixes.GetMixesAll | src/services/SoundMixService.ts:108-112 | Without a category the result is a permutation of all mixes |
| SoundMixes.GetMixById | src/services/SoundMixService.ts:131-133 | The first mix in the list with that id, or none exactly when no mix has it |
| SoundMixes.MixIndex | src/services/SoundMixService.ts:56-57 | The first index with that id, or none exactly when absent |
| SoundMixes.GetMixesByMood | src/services/SoundMixService.ts:135-137 | Exactly the mixes of that mood, each as often as in the list, in list order |
| SoundMixes.SearchMixes | src/services/SoundMixService.ts:139-147 | Exactly the mixes whose name, description or a tag contains the lower-cased query, each as often as in the list, in list order |
| SoundMixes.SearchIgnoresQueryCase | src/services/SoundMixService.ts:140 | Searching for a query or its lower-cased form gives the same result |
| SoundMixes.SearchEmptyQuery | src/services/SoundMixService.ts:139-147 | An empty query matches every mix |
| SoundMixes.MostPlayedSpec | src/services/SoundMixService.ts:187-191 | For every limit: drawn from the list, by non-increasing play count, none left out playing more than any taken; `min(limit, n)` mixes for a non-negative limit |
| SoundMixes.RecentSpec | src/services/SoundMixService.ts:193-197 | For every limit: drawn from the list, newest update first, none left out newer than any taken; `min(limit, n)` mixes for a non-negative limit |
| SoundMixes.ApplyUpdate | src/services/SoundMixService.ts:59-64 | Each of the eleven fields is the supplied value when the update supplies it and the mix's own value otherwise; `updatedAt` is the current time |
| SoundMixes.ApplyUpdateSpec | src/services/SoundMixService.ts:59-64 | An empty update changes only `updatedAt`; applying the same update again later changes only the time stamp |
| SoundMixes.CopyName | src/services/SoundMixService.ts:89-97 | A non-empty new name is used, otherwise the original name followed by " (Copy)" |
| SoundMixes.SoundMixService.constructor | src/services/SoundMixService.ts:13-16 | No mixes, no listeners |
| SoundMixes.SoundMixService.CreateMix | src/services/SoundMixService.ts:26-50 | Appends exactly one custom, non-premium, non-playing mix with play count 0, the selected sounds and `GenerateTags` of them; listeners notified |
| SoundMixes.SoundMixService.UpdateMix | src/services/SoundMixService.ts:52-70 | Unknown id: null, nothing changes. Otherwise only the first matching index is replaced by the overlaid mix, the length kept |
| SoundMixes.SoundMixService.DeleteMix | src/services/SoundMixService.ts:72-81 | True exactly when some mix has the id; then exactly the first match is removed, the length drops by one; otherwise nothing changes |
| SoundMixes.SoundMixService.DuplicateMix | src/services/SoundMixService.ts:83-104 | Null exactly for an unknown id; otherwise one copy appended with the same sounds and tags, a fresh id and times, play count 0 and the new or " (Copy)" name |
| SoundMixes.SoundMixService.CreateMixFromPreset | src/services/SoundMixService.ts:158-174 | Unknown preset: null, nothing changes. Otherwise one mix appended from the preset's sounds with the custom name or the preset's name, mix volume 0.8 |
| SoundMixes.SoundMixService.IncrementPlayCount | src/services/SoundMixService.ts:177-185 | The first matching mix's play count grows by exactly 1 and its update time is now; no-op for an absent id |
| SoundMixes.SoundMixService.ClearAllMixes | src/services/SoundMixService.ts:398-402 | No mixes remain; listeners get the empty list |
| SoundMixes.SoundMixService.AddListener | src/services/SoundMixService.ts:238-240 | Appends the listener |
| SoundMixes.SoundMixService.RemoveListener | src/services/SoundMixService.ts:242-247 | Removes only the first occurrence; no-op if absent |
| SoundMixes.SoundMixService.NotifyListeners | src/services/SoundMixService.ts:249-251 | Every listener receives the current list once |
| MixTags.AddIf | src/services/SoundMixService.ts:351-373 | Adding to the tag set adds the tag exactly when its condition holds, keeps earlier tags and their order, and keeps the set duplicate-free |
| MixTags.SixRulesIn | src/services/SoundMixService.ts:351-373 | After the six rules a tag is present exactly when it was before or its rule's condition held; only per-sound tags are added; no duplicates |
| MixTags.SoundTagsStep | src/services/SoundMixService.ts:350-374 | One sound adds exactly the tags whose substring rule fires on its id |
| MixTags.SomeRuleFiresSnoc | src/services/SoundMixService.ts:350-374 | A rule fires on a mix with one more sound exactly when it fires on the shorter mix or on that sound |
| MixTags.PerSoundTagsSpec | src/services/SoundMixService.ts:350-374 | After the per-sound loop a tag is present exactly when some sound's rule fires for it; no duplicates; only per-sound tags |
| MixTags.TagNamesDistinct | src/services/SoundMixService.ts:344-395 | The nine tag names are distinct, and per-sound and combination tags never coincide |
| MixTags.GenerateTagsWellFormed | src/services/SoundMixService.ts:344-395 | Each tag at most once, drawn only from the nine names, with the per-sound tags first |
| MixTags.GenerateTagsElements | src/services/SoundMixService.ts:376-394 | The tag set is the per-sound tags plus layered, urban and sleep exactly under their combination conditions |
| MixTags.GenerateTagsMembership | src/services/SoundMixService.ts:350-374 | A per-sound tag is present exactly when its rule fires on some sound |
| MixTags.GenerateMixTags | src/services/SoundMixService.ts:376-392 | "layered" exactly when more than 2 sounds; "urban" exactly when some id contains "coffee" or "city"; "sleep" exactly when some id contains "sleep" or "night" |
| MixTags.MixTagIn | src/services/SoundMixService.ts:376-392 | No combination tag is produced by the per-sound rules |
| Settings.Clamp01 | src/services/SettingsService.ts:96-101 | Result in [0, 1]: the value itself inside, 0 below, 1 above |
| Settings.Overlay | src/services/SettingsService.ts:150-156 | Every supplied field overwrites, every other keeps its value |
| Settings.OverlayLaws | src/services/SettingsService.ts:150-156 | The empty update is the identity; two updates equal their merge; applying one update twice equals once |
| Settings.FormatMinutesRoundTrip | src/services/SettingsService.ts:161-174 | Each wording ("N minutes", "1 hour", "H hours", "Hh Mm") reads back as the minutes it was made from |
| Settings.MinutesRoundTrip | src/services/SettingsService.ts:163-164 | "N minutes" for fewer than 60 minutes reads back as N |
| Settings.HoursRoundTrip | src/services/SettingsService.ts:168-169 | "1 hour" and "H hours" read back as the whole hours in minutes |
| Settings.HoursMinutesRoundTrip | src/services/SettingsService.ts:170-171 | "Hh Mm" reads back as H hours plus M minutes |
| Settings.FormatMinutesInjective | src/services/SettingsService.ts:161-174 | Different whole-minute durations are worded differently |
| Settings.FormattedDuration | src/services/SettingsService.ts:161-174 | A wording exists exactly for durations of whole minutes, and it reads back as the stored milliseconds |
| Settings.LastMember | src/services/SettingsService.ts:222 | A member lookup gives the last member with that key, none exactly when no member has it |
| Settings.ValidateImport | src/services/SettingsService.ts:220-250 | Rejected exactly when the text does not parse or is `null`; an imported master volume is in [0, 1] |
| Settings.ImportTheme | src/services/SettingsService.ts:225-227 | The imported theme is light or dark exactly when the document says so; anything else falls back to auto |
| Settings.ImportNonObject | src/services/SettingsService.ts:224-250 | A document that is not an object imports as exactly the defaults |
| Settings.ImportFallsBack | src/services/SettingsService.ts:228-249 | Every missing or mistyped field takes its default value |
| Settings.LastMemberDistinct | src/services/SettingsService.ts:222 | With distinct keys a member lookup finds the one member with that key |
| Settings.ExportKeysDistinct | src/services/SettingsService.ts:213-215 | The exported object has distinct keys |
| Settings.ExportMembers | src/services/SettingsService.ts:213-215 | The exported object holds each field under its own name and JSON type |
| Settings.ThemeNameRoundTrip | src/services/SettingsService.ts:225-227 | Every theme's name validates back to that theme |
| Settings.ExportImportRoundTrip | src/services/SettingsService.ts:213-250 | Importing an export gives the settings back with the master volume clamped, the settings themselves when it is already in [0, 1] |
| Settings.SettingsService.constructor | src/services/SettingsService.ts:8-13 | Starts at the defaults with no listeners |
| Settings.SettingsService.SetTheme | src/services/SettingsService.ts:60-64 | Only the theme changes; listeners notified |
| Settings.SettingsService.SetDefaultTimerDuration | src/services/SettingsService.ts:69-73 | Only the timer duration changes; listeners notified |
| Settings.SettingsService.SetAutoPlay | src/services/SettingsService.ts:78-82 | Only auto-play changes; listeners notified |
| Settings.SettingsService.SetNotifications | src/services/SettingsService.ts:87-91 | Only notifications change; listeners notified |
| Settings.SettingsService.SetMasterVolume | src/services/SettingsService.ts:96-101 | Only the master volume changes, to the value clamped into [0, 1] |
| Settings.SettingsService.ResetSettings | src/services/SettingsService.ts:141-145 | The settings become exactly the defaults |
| Settings.SettingsService.UpdateSettings | src/services/SettingsService.ts:150-156 | The supplied fields overwrite, the rest stay |
| Settings.SettingsService.ImportSettings | src/services/SettingsService.ts:220-259 | The settings become the validated document; a rejected document changes nothing and notifies no one |
| Settings.SettingsService.AddListener | src/services/SettingsService.ts:186-190 | Appends the listener and calls it once at once with the current settings |
| Settings.SettingsService.RemoveListener | src/services/SettingsService.ts:195-200 | Removes only the first occurrence; no-op if absent |
| Settings.SettingsService.NotifyListeners | src/services/SettingsService.ts:205-208 | Every listener receives the current settings once |
| Favorites.FavoritesService.constructor | src/services/FavoritesService.ts:7-12 | No favourites, no listeners |
| Favorites.FavoritesService.GetFavoritesArray | src/services/FavoritesService.ts:100-102 | No duplicates and exactly the elements of the set |
| Favorites.FavoritesService.GetFavoritesCount | src/services/FavoritesService.ts:107-109 | The size of the set, equal to the array's length |
| Favorites.FavoritesService.AddFavorite | src/services/FavoritesService.ts:53-57 | The id joins the set; an id already present leaves it unchanged; listeners notified |
| Favorites.FavoritesService.RemoveFavorite | src/services/FavoritesService.ts:62-66 | The id leaves the set and is no longer a favourite; an absent id leaves the set unchanged |
| Favorites.FavoritesService.ToggleFavorite | src/services/FavoritesService.ts:71-81 | Membership flips, and the result is the new membership |
| Favorites.FavoritesService.ClearFavorites | src/services/FavoritesService.ts:114-118 | The set is empty and the count 0 |
| Favorites.FavoritesService.AddListener | src/services/FavoritesService.ts:123-127 | Appends the listener and calls it once at once with the current set |
| Favorites.FavoritesService.RemoveListener | src/services/FavoritesService.ts:132-137 | Removes only the first occurrence; no-op if absent |
| Favorites.FavoritesService.NotifyListeners | src/services/FavoritesService.ts:142-145 | Every listener receives the current set once |
| Favorites.ToggleTwiceRestores | src/services/FavoritesService.ts:71-81 | Toggling an absent id twice restores the set exactly |
| Favorites.ToggleTwiceReorders | src/services/FavoritesService.ts:71-81 | Toggling a present id twice keeps the elements but moves the id to the end of the insertion order |
| Sounds.GetSoundById | src/data/sounds.ts:255-257 | A catalog sound with that id, or none exactly when no sound has it |
| Sounds.SoundIdsDistinct | src/data/sounds.ts:3-231 | The catalog holds 18 sounds with pairwise distinct ids |
| Sounds.GetSoundByIdFinds | src/data/sounds.ts:255-257 | Looking up the id of the k-th sound gives that sound |
| Sounds.FreeAndPremiumPartition | src/data/sounds.ts:247-253 | Every catalog sound is in exactly one of free and premium, and both draw only from the catalog |
| Sounds.FreeAndPremiumCount | src/data/sounds.ts:247-253 | Free and premium together are the catalog as a multiset |
| Sounds.FreeAndPremiumOrder | src/data/sounds.ts:247-253 | Both keep catalog order |
| Sounds.SoundsByCategorySpec | src/data/sounds.ts:243-245 | Exactly the sounds of that category, in catalog order |
| Sounds.SoundsByMoodSpec | src/data/sounds.ts:233-241 | Unknown mood: empty. Otherwise exactly the catalog sounds listed by the mood, in catalog order |
| Sounds.CatalogIndex | src/data/sounds.ts:255-257 | A non-negative result is a catalog position holding that id |
| Sounds.MoodSoundsResolve | src/data/moods.ts:3-58 | Every sound id listed by a mood resolves in the sound catalog |
| Sounds.CatalogIndexResolves | src/data/sounds.ts:255-257 | An id with a catalog position resolves |
| Sounds.MoodSoundResolves | src/data/moods.ts:3-58 | Each mood's listed id has a catalog position |
| Moods.GetMoodById | src/data/moods.ts:60-62 | A mood with that id, or none exactly when no mood has it |
| Moods.MoodCatalogWellFormed | src/data/moods.ts:3-58 | Six moods with distinct ids, each listing four distinct sound ids |
| Moods.GetMoodByIdFinds | src/data/moods.ts:60-62 | Looking up the id of the k-th mood gives that mood |
| Moods.EmotionIdsDisjoint | src/data/moods.ts:64-79 | The positive, negative and neutral id groups are pairwise disjoint |
| Moods.EveryMoodHasEmotion | src/data/moods.ts:64-79 | Every mood belongs to one of the three groups |
| Moods.EmotionDispatch | src/data/moods.ts:64-79 | Each emotion selects the catalog moods of its group |
| Moods.EmotionsDisjoint | src/data/moods.ts:64-79 | No mood is in two of the positive, negative and neutral groups |
| Moods.EmotionsCover | src/data/moods.ts:64-79 | Every catalog mood is in one of the three groups |
| Moods.MoodHasEmotion | src/data/moods.ts:64-79 | Every catalog mood id is listed for some emotion |
| Moods.EmotionsKeepOrder | src/data/moods.ts:64-79 | Each group keeps catalog order |
| Moods.EmotionsPartitionMoods | src/data/moods.ts:64-79 | The three results are pairwise disjoint, cover all moods, and keep catalog order |
| Listeners.BroadcastDelivers | src/services/AudioService.ts:376-379 | The i-th delivery goes to the i-th listener with the same snapshot |
| Listeners.BroadcastAppend | src/services/AudioService.ts:320-322 | A listener appended at the end receives the last of the deliveries |
| Seqs.SetAdd | src/services/FavoritesService.ts:53-57 | `Set.add`: the elements gain the value, insertion order is kept, no duplicates, size grows only for a new value |
| Seqs.SetDelete | src/services/FavoritesService.ts:62-66 | `Set.delete`: the elements lose the value, the order of the rest is kept, an absent value changes nothing |
| Seqs.RemoveFirstSpec | src/services/SettingsService.ts:195-200 | `indexOf` plus `splice`: only the first occurrence is removed, an absent value changes nothing |
| Seqs.SortDescSpec | src/services/SoundMixService.ts:187-191 | The descending sort is ordered by key and a permutation |
| Seqs.SortDescStable | src/services/SoundMixService.ts:187-191 | Elements with equal keys keep their relative order, as in a stable `Array.prototype.sort` |
| Seqs.TopByKey | src/services/SoundMixService.ts:187-191 | Sort-then-slice is sorted, drawn from the input and leaves out nothing with a larger key, for every n; it takes `min(n, length)` elements for a non-negative n |
| Seqs.SliceTo | src/services/SoundMixService.ts:190 | `slice(0, end)`: a prefix of length `min(end, n)`, counting from the end for a negative bound |
| Seqs.FilterKeepsOrder | src/data/sounds.ts:243-245 | `filter` keeps its elements in their original order |
| Seqs.FilterMembership | src/data/sounds.ts:243-245 | `filter` keeps exactly the elements passing the test |
| Seqs.FilterCount | src/services/SoundMixService.ts:135-137 | `filter` keeps every copy of a passing element and no copy of a failing one |
| Seqs.FilterPartition | src/data/sounds.ts:247-253 | Filtering by a test and by its negation splits the input as a multiset |
| Seqs.FilterDisjoint | src/data/moods.ts:69-76 | Filters by two tests that never both pass share no element |
| Seqs.FilterCovers | src/data/moods.ts:69-76 | When every element passes one of three tests, each is kept by one of the three filters |
| Text.ContainsIff | src/services/SoundMixService.ts:351 | `includes` holds exactly when the text occurs at some position |
| Text.ToLower | src/services/SoundMixService.ts:140 | `toLowerCase` on ASCII letters: same length, each character lower-cased |
| Text.ToLowerIdempotent | src/services/SoundMixService.ts:140 | Lower-casing twice equals once |
| Text.ParseIntToString | src/services/SettingsService.ts:164 | The decimal wording of an integer reads back as that integer |
| Text.IntToStringInjective | src/services/SettingsService.ts:164 | Different integers are worded differently |

## Left out

- Persistence through AsyncStorage is not modelled, because it is I/O. This covers `loadMixes`/`saveMixes`, `loadSettings`/`saveSettings` and `loadFavorites`/`saveFavorites`.
- `exportMix`, `importMix` and the JSON text of `exportSettings` are serialisation. `exportSettings` appears only as the parsed object `Settings.ExportObject`.
- `JSON.parse` is not modelled. `importSettings` takes the parsed value, or none when parsing fails. Arrays are modelled only when every item is a string.
- `Array.isArray` then accepts any array. The model does not capture that.
- The calls on the platform audio library are foreign. They become entries in a ghost command log on abstract handles, and every handle call succeeds.
- The `catch` paths for a failing handle call are left out. In `playSound` and `playMix` these paths fall back to simulation.
- Async interleaving, and the scheduling behind `setInterval` and `setTimeout`, are not modelled. Ticks and the timer callback are explicit methods, so the model has no concurrency.
- `initialize` appears only as the constructor's result and the `isInitialized` flag. `setupStatusUpdates` and `clearStatusUpdates` are left out, because they are never called.
- The default volume argument of `addSoundToMix` is left out: callers pass the volume explicitly.
- The five single-field settings getters, `getPresets` and `getPresetsByCategory` are left out, because they are field reads or a one-line filter on the constant preset list. `getSettings`, `getFavorites` and `isFavorite` are modelled as plain reads without contracts of their own.
- `getFormattedVolume` is left out, because it depends on floating-point `Math.round`.
- Settings.FormattedDuration: worded only for whole minutes. The source's printing of a fractional number of minutes is floating-point formatting.
- Audio.AudioService.GetPlaybackState: `getPlaybackState` returns a shallow copy whose `activeSounds` array aliases the engine's. Here it is a value, so aliasing is not captured.
- Audio.AudioService.UpdatePosition: the status a handle reports (`getStatusAsync`) is a parameter. The failure path of that call is left out.
- `Date.now()`, `new Date()` and `Math.random()` for ids and timestamps are parameters.
- Audio.AudioService.PlaySound: a real engine in mix mode appends a track even for an id already active, as the source does. The model proves no id-uniqueness result for that path.
- Text.ToLower: lower-cases only the ASCII letters A–Z. JavaScript `toLowerCase` also folds other Unicode letters (É to é), so the model is weaker for such text.
- SoundMixes.SearchMixes: inherits the ASCII-only lower-casing of `Text.ToLower`, so a query or mix text with non-ASCII capitals such as "Été" does not match as it would in the app.
