/**
 * The static sound catalog: eighteen sounds with lookups by id, mood,
 * category and price tier.
 */
module Sounds {
  import opened Types
  import opened Seqs
  import opened Text
  import opened Moods

  const SOUNDS: seq<Sound> := [
    Sound("ocean_waves", "Ocean Waves",
          "Gentle ocean waves lapping against the shore",
          "ocean_waves.mp3", 300, Nature, ["water", "relaxing", "peaceful"], true, false, Some(false)),
    Sound("rain_light", "Light Rain",
          "Soft rainfall creating a peaceful atmosphere",
          "rain_light.mp3", 450, Nature, ["rain", "calming", "sleep"], true, false, Some(false)),
    Sound("forest_birds", "Forest Birds",
          "Chirping birds in a serene forest setting",
          "forest_birds.mp3", 360, Nature, ["birds", "nature", "morning"], true, false, Some(false)),
    Sound("white_noise", "White Noise",
          "Pure white noise for maximum concentration",
          "white_noise.mp3", 600, WhiteNoise, ["focus", "concentration", "study"], true, false, Some(false)),
    Sound("coffee_shop", "Coffee Shop Ambiance",
          "Bustling coffee shop atmosphere",
          "coffee_shop.mp3", 420, Urban, ["urban", "productive", "work"], true, true, Some(false)),
    Sound("brown_noise", "Brown Noise",
          "Deep brown noise for enhanced focus",
          "brown_noise.mp3", 600, WhiteNoise, ["noise", "focus", "deep"], true, false, Some(false)),
    Sound("rain_thunder", "Rain with Thunder",
          "Distant thunder with gentle rain",
          "rain_thunder.mp3", 480, Nature, ["storm", "sleep", "cozy"], true, true, Some(false)),
    Sound("night_crickets", "Night Crickets",
          "Peaceful cricket sounds on a quiet night",
          "night_crickets.mp3", 540, Nature, ["night", "crickets", "peaceful"], true, false, Some(false)),
    Sound("fireplace", "Fireplace Crackling",
          "Warm fireplace crackling sounds",
          "fireplace.mp3", 300, Urban, ["fire", "cozy", "warm"], true, true, Some(false)),
    Sound("flowing_water", "Flowing Water",
          "Energizing stream of flowing water",
          "flowing_water.mp3", 390, Nature, ["water", "energy", "fresh"], true, false, Some(false)),
    Sound("city_rain", "City Rain",
          "Rain in the city with urban sounds",
          "city_rain.mp3", 360, Urban, ["urban", "rain", "dynamic"], true, true, Some(false)),
    Sound("wind_chimes", "Wind Chimes",
          "Gentle wind chimes in a light breeze",
          "wind_chimes.mp3", 270, Nature, ["chimes", "wind", "uplifting"], true, false, Some(false)),
    Sound("tibetan_bowls", "Tibetan Singing Bowls",
          "Sacred Tibetan singing bowls",
          "tibetan_bowls.mp3", 480, Instrumental, ["meditation", "spiritual", "healing"], true, true, Some(false)),
    Sound("ambient_drone", "Ambient Drone",
          "Deep ambient drone for meditation",
          "ambient_drone.mp3", 720, Instrumental, ["ambient", "drone", "deep"], true, false, Some(false)),
    Sound("om_chanting", "Om Chanting",
          "Traditional Om chanting for meditation",
          "om_chanting.mp3", 360, Instrumental, ["om", "chanting", "spiritual"], true, true, Some(false)),
    Sound("gentle_piano", "Gentle Piano",
          "Soft, calming piano melodies",
          "gentle_piano.mp3", 420, Instrumental, ["piano", "gentle", "soothing"], true, true, Some(false)),
    Sound("deep_breathing", "Deep Breathing",
          "Guided deep breathing exercise",
          "deep_breathing.mp3", 300, Instrumental, ["breathing", "relaxation", "anxiety"], true, false, Some(false)),
    Sound("alpha_waves", "Alpha Waves",
          "Alpha brainwave frequencies for relaxation",
          "alpha_waves.mp3", 600, Binaural, ["binaural", "alpha", "brainwaves"], true, true, Some(false))
  ]

  /** `getSoundById`: the first sound with that id, if any. */
  function GetSoundById(id: string): (r: Option<Sound>)
    ensures r.Some? ==> r.value in SOUNDS && r.value.id == id
    ensures r.None? <==> forall s :: s in SOUNDS ==> s.id != id
  {
    Find(SOUNDS, (s: Sound) => s.id == id)
  }

  /** `getSoundsByCategory`: the sounds of one category, in catalog order. */
  function GetSoundsByCategory(category: SoundCategory): seq<Sound>
  {
    Filter(SOUNDS, (s: Sound) => s.category == category)
  }

  /** `getFreeSounds`: the sounds that are not premium, in catalog order. */
  function GetFreeSounds(): seq<Sound>
  {
    Filter(SOUNDS, (s: Sound) => !s.isPremium)
  }

  /** `getPremiumSounds`: the premium sounds, in catalog order. */
  function GetPremiumSounds(): seq<Sound>
  {
    Filter(SOUNDS, (s: Sound) => s.isPremium)
  }

  /**
   * `getSoundsByMood`: the catalog sounds whose id the mood lists, in catalog
   * order (not the mood's order); nothing for an unknown mood.
   */
  function GetSoundsByMood(moodId: string): seq<Sound>
  {
    match GetMoodById(moodId)
    case None => []
    case Some(mood) => Filter(SOUNDS, (s: Sound) => s.id in mood.sounds)
  }

  predicate DistinctSoundIds(s: seq<Sound>)
  {
    forall i, j :: 0 <= i < j < |s| ==> s[i].id != s[j].id
  }

  /** The eighteen catalog ids are pairwise distinct. */
  lemma SoundIdsDistinct()
    ensures |SOUNDS| == 18 && DistinctSoundIds(SOUNDS)
  {
    forall i, j | 0 <= i < j < |SOUNDS| ensures SOUNDS[i].id != SOUNDS[j].id {
      ShortKeyDistinct(SOUNDS[i].id, SOUNDS[j].id);
    }
  }

  /** With distinct ids, `getSoundById` returns exactly the catalog entry with that id. */
  lemma GetSoundByIdFinds(k: nat)
    requires k < |SOUNDS|
    ensures GetSoundById(SOUNDS[k].id) == Some(SOUNDS[k])
  {
    SoundIdsDistinct();
  }

  /** Free and premium sounds split the catalog: each catalog sound is in exactly one of them. */
  lemma FreeAndPremiumPartition()
    ensures forall s :: s in SOUNDS ==> (s in GetFreeSounds() <==> s !in GetPremiumSounds())
    ensures forall s :: s in GetFreeSounds() || s in GetPremiumSounds() ==> s in SOUNDS
  {
    FilterPartitionMembership(SOUNDS, (s: Sound) => !s.isPremium, (s: Sound) => s.isPremium);
  }

  /** Together the free and premium lists hold the catalog, each sound as often as it occurs there. */
  lemma FreeAndPremiumCount()
    ensures multiset(GetFreeSounds()) + multiset(GetPremiumSounds()) == multiset(SOUNDS)
  {
    FilterPartition(SOUNDS, (s: Sound) => !s.isPremium, (s: Sound) => s.isPremium);
  }

  /** Both lists keep catalog order. */
  lemma FreeAndPremiumOrder()
    ensures IsSubsequence(GetFreeSounds(), SOUNDS) && IsSubsequence(GetPremiumSounds(), SOUNDS)
  {
    FilterKeepsOrder(SOUNDS, (s: Sound) => !s.isPremium);
    FilterKeepsOrder(SOUNDS, (s: Sound) => s.isPremium);
  }

  /** `getSoundsByCategory(c)` holds exactly the sounds of category `c`, in catalog order. */
  lemma SoundsByCategorySpec(category: SoundCategory, s: Sound)
    ensures s in GetSoundsByCategory(category) <==> s in SOUNDS && s.category == category
    ensures IsSubsequence(GetSoundsByCategory(category), SOUNDS)
  {
    FilterMembership(SOUNDS, (t: Sound) => t.category == category, s);
    FilterKeepsOrder(SOUNDS, (t: Sound) => t.category == category);
  }

  /**
   * `getSoundsByMood` holds exactly the catalog sounds the mood lists, in
   * catalog order, and is empty for an unknown mood.
   */
  lemma SoundsByMoodSpec(moodId: string, s: Sound)
    ensures GetMoodById(moodId).None? ==> GetSoundsByMood(moodId) == []
    ensures GetMoodById(moodId).Some? ==>
              (s in GetSoundsByMood(moodId) <==> s in SOUNDS && s.id in GetMoodById(moodId).value.sounds)
    ensures IsSubsequence(GetSoundsByMood(moodId), SOUNDS)
  {
    match GetMoodById(moodId)
    case None =>
    case Some(mood) =>
      FilterMembership(SOUNDS, (t: Sound) => t.id in mood.sounds, s);
      FilterKeepsOrder(SOUNDS, (t: Sound) => t.id in mood.sounds);
  }

  /** The catalog position of a sound id, for the ids the moods list. */
  function CatalogIndex(id: string): (k: int)
    ensures k >= 0 ==> k < |SOUNDS| && SOUNDS[k].id == id
  {
    if id == "ocean_waves" then 0 else if id == "rain_light" then 1
    else if id == "forest_birds" then 2 else if id == "white_noise" then 3
    else if id == "coffee_shop" then 4 else if id == "brown_noise" then 5
    else if id == "night_crickets" then 7 else if id == "flowing_water" then 9
    else if id == "wind_chimes" then 11 else if id == "tibetan_bowls" then 12
    else if id == "ambient_drone" then 13 else if id == "om_chanting" then 14
    else if id == "gentle_piano" then 15 else if id == "deep_breathing" then 16
    else if id == "alpha_waves" then 17 else -1
  }

  /** Every sound id any mood lists resolves in the sound catalog. */
  lemma MoodSoundsResolve()
    ensures forall i, j :: 0 <= i < |MOODS| && 0 <= j < |MOODS[i].sounds| ==> GetSoundById(MOODS[i].sounds[j]).Some?
  {
    forall i, j | 0 <= i < |MOODS| && 0 <= j < |MOODS[i].sounds| ensures GetSoundById(MOODS[i].sounds[j]).Some? {
      MoodSoundResolves(i, j);
      CatalogIndexResolves(MOODS[i].sounds[j]);
    }
  }

  /** An id `CatalogIndex` places in the catalog is found by `getSoundById`. */
  lemma CatalogIndexResolves(id: string)
    requires CatalogIndex(id) >= 0
    ensures GetSoundById(id).Some?
  {
    assert SOUNDS[CatalogIndex(id)] in SOUNDS;
  }

  lemma MoodSoundResolves(i: nat, j: nat)
    requires i < |MOODS| && j < |MOODS[i].sounds|
    ensures CatalogIndex(MOODS[i].sounds[j]) >= 0
  {
  }
}
