/**
 * The records of the app's shared type declarations: sounds and moods of the
 * static catalog, persisted mixes, the playback engine's snapshot and the
 * user's preferences.
 *
 * Strings are `seq<char>`, volumes are `real`, times and durations are
 * integer milliseconds (a `Date` becomes the milliseconds it stands for)
 * except where a preference holds an arbitrary JSON number.
 */
module Types {

  datatype Option<T> = None | Some(value: T)

  /** The five sound categories of the catalog. */
  datatype SoundCategory = Nature | Urban | WhiteNoise | Instrumental | Binaural

  /** A catalog sound; `duration` is its nominal length in seconds. */
  datatype Sound = Sound(
    id: string,
    name: string,
    description: string,
    fileName: string,
    duration: int,
    category: SoundCategory,
    tags: seq<string>,
    isLooped: bool,
    isPremium: bool,
    isFavorite: Option<bool>)

  /** A catalog mood and the ids of the sounds it suggests. */
  datatype Mood = Mood(
    id: string,
    name: string,
    description: string,
    color: string,
    gradientColors: (string, string),
    icon: string,
    sounds: seq<string>)

  /** One (sound, relative volume) pair of a mix. */
  datatype MixSound = MixSound(soundId: string, volume: real)

  /** A persisted mix; `createdAt` and `updatedAt` are timestamps. */
  datatype SoundMix = SoundMix(
    id: string,
    name: string,
    description: Option<string>,
    sounds: seq<MixSound>,
    isPlaying: bool,
    isCustom: bool,
    isPremium: bool,
    moodId: Option<string>,
    tags: seq<string>,
    createdAt: int,
    updatedAt: int,
    playCount: int)

  /** What the mix editor hands to the mix store when a mix is created. */
  datatype MixCreationState = MixCreationState(
    name: string,
    description: string,
    selectedSounds: seq<MixSound>,
    isPreviewMode: bool,
    masterVolume: real)

  datatype PresetCategory = Focus | Relax | Sleep | Energy | Custom

  /** A built-in mix template. */
  datatype MixPreset = MixPreset(
    id: string,
    name: string,
    description: string,
    sounds: seq<MixSound>,
    category: PresetCategory,
    isPremium: bool)

  /**
   * An audio output handle. The platform's sound object is represented by an
   * opaque token; a simulated track has no handle at all.
   */
  type Handle = nat

  /** One track the engine is playing as part of a mix. */
  datatype ActiveSound = ActiveSound(
    id: string,
    sound: Option<Handle>,
    volume: real,
    soundData: Sound,
    isPlaying: bool,
    position: int,
    startTime: int)

  datatype Mode = Single | Mix

  /** The playback engine's state record, handed to listeners as a snapshot. */
  datatype PlaybackState = PlaybackState(
    isPlaying: bool,
    currentSound: Option<Sound>,
    volume: real,
    position: int,
    duration: int,
    isMixMode: bool,
    currentMix: Option<SoundMix>,
    activeSounds: seq<ActiveSound>,
    mixVolume: real,
    timerEndTime: Option<int>,
    fadeDuration: Option<int>,
    mode: Mode)

  datatype Theme = Light | Dark | Auto

  /**
   * The user's preferences. `defaultTimerDuration` is in milliseconds and,
   * like `masterVolume`, is whatever number was stored.
   */
  datatype UserPreferences = UserPreferences(
    theme: Theme,
    defaultTimerDuration: real,
    autoPlay: bool,
    notifications: bool,
    masterVolume: real,
    favoritesSoundIds: seq<string>,
    favoritesMixIds: seq<string>)

  /** Thirty minutes of timer, auto-play and notifications on, volume 0.8. */
  const DEFAULT_PREFERENCES: UserPreferences :=
    UserPreferences(Auto, (30 * 60 * 1000) as real, true, true, 0.8, [], [])

  /** A registered callback, identified by a token; equal tokens are the same function. */
  type ListenerId = nat
}
