/**
 * The static mood catalog: six moods, each suggesting four sounds, with a
 * lookup by id and a grouping of moods by emotion.
 */
module Moods {
  import opened Types
  import opened Seqs
  import opened Text

  const MOODS: seq<Mood> := [
    Mood("calm", "Calm & Relaxed", "Find your inner peace", "#6B73FF", ("#6B73FF", "#9B59B6"),
         "\U{1F60C}", ["ocean_waves", "rain_light", "white_noise", "tibetan_bowls"]),
    Mood("focused", "Focused & Productive", "Enhance your concentration", "#FF6B6B", ("#FF6B6B", "#FF8E53"),
         "\U{1F3AF}", ["white_noise", "brown_noise", "coffee_shop", "gentle_piano"]),
    Mood("sleepy", "Sleepy & Restful", "Drift into peaceful sleep", "#4ECDC4", ("#4ECDC4", "#44A08D"),
         "\U{1F634}", ["rain_light", "night_crickets", "flowing_water", "deep_breathing"]),
    Mood("energetic", "Energetic & Motivated", "Boost your energy levels", "#FFD93D", ("#FFD93D", "#FF6B6B"),
         "\U{26A1}", ["flowing_water", "wind_chimes", "forest_birds", "alpha_waves"]),
    Mood("meditative", "Meditative & Mindful", "Connect with your inner self", "#A8E6CF", ("#A8E6CF", "#88D8C0"),
         "\U{1F9D8}", ["tibetan_bowls", "om_chanting", "ambient_drone", "alpha_waves"]),
    Mood("anxious", "Anxious & Stressed", "Find calm in the storm", "#B19CD9", ("#B19CD9", "#9B59B6"),
         "\U{1F630}", ["deep_breathing", "rain_light", "ocean_waves", "ambient_drone"])
  ]

  /** `getMoodById`: the first mood with that id, if any. */
  function GetMoodById(id: string): (r: Option<Mood>)
    ensures r.Some? ==> r.value in MOODS && r.value.id == id
    ensures r.None? <==> forall m :: m in MOODS ==> m.id != id
  {
    Find(MOODS, (m: Mood) => m.id == id)
  }

  const POSITIVE_IDS: seq<string> := ["energetic", "calm", "focused"]
  const NEGATIVE_IDS: seq<string> := ["anxious", "sleepy"]
  const NEUTRAL_IDS: seq<string> := ["meditative"]

  /**
   * `getMoodsByEmotion`: the moods whose id is listed for the emotion, in
   * catalog order; any other emotion name falls through to every mood.
   */
  function GetMoodsByEmotion(emotion: string): seq<Mood>
  {
    if emotion == "positive" then Filter(MOODS, (m: Mood) => m.id in POSITIVE_IDS)
    else if emotion == "negative" then Filter(MOODS, (m: Mood) => m.id in NEGATIVE_IDS)
    else if emotion == "neutral" then Filter(MOODS, (m: Mood) => m.id in NEUTRAL_IDS)
    else MOODS
  }

  predicate DistinctMoodIds(s: seq<Mood>)
  {
    forall i, j :: 0 <= i < j < |s| ==> s[i].id != s[j].id
  }

  /** The six mood ids are distinct, and each mood lists four distinct sounds. */
  lemma MoodCatalogWellFormed()
    ensures |MOODS| == 6
    ensures DistinctMoodIds(MOODS)
    ensures forall m :: m in MOODS ==> |m.sounds| == 4 && Distinct(m.sounds)
  {
    forall i, j | 0 <= i < j < |MOODS| ensures MOODS[i].id != MOODS[j].id {
      ShortKeyDistinct(MOODS[i].id, MOODS[j].id);
    }
    forall k | 0 <= k < |MOODS| ensures Distinct(MOODS[k].sounds) {
      var s := MOODS[k].sounds;
      forall i, j | 0 <= i < j < |s| ensures s[i] != s[j] {
        ShortKeyDistinct(s[i], s[j]);
      }
    }
  }

  /** `getMoodById` finds every catalog mood by its id, and nothing else. */
  lemma GetMoodByIdFinds(k: nat)
    requires k < |MOODS|
    ensures GetMoodById(MOODS[k].id) == Some(MOODS[k])
  {
    MoodCatalogWellFormed();
  }

  /** The emotion id lists do not overlap. */
  lemma EmotionIdsDisjoint(id: string)
    ensures id in POSITIVE_IDS ==> id !in NEGATIVE_IDS && id !in NEUTRAL_IDS
    ensures id in NEGATIVE_IDS ==> id !in NEUTRAL_IDS
  {
    if id in POSITIVE_IDS || id in NEGATIVE_IDS {
      forall j | 0 <= j < |NEGATIVE_IDS| && id in POSITIVE_IDS ensures id != NEGATIVE_IDS[j] {
        var i :| 0 <= i < |POSITIVE_IDS| && POSITIVE_IDS[i] == id;
        ShortKeyDistinct(POSITIVE_IDS[i], NEGATIVE_IDS[j]);
      }
      if id in POSITIVE_IDS {
        var i :| 0 <= i < |POSITIVE_IDS| && POSITIVE_IDS[i] == id;
        ShortKeyDistinct(POSITIVE_IDS[i], NEUTRAL_IDS[0]);
      } else {
        var i :| 0 <= i < |NEGATIVE_IDS| && NEGATIVE_IDS[i] == id;
        ShortKeyDistinct(NEGATIVE_IDS[i], NEUTRAL_IDS[0]);
      }
    }
  }

  /** Every catalog mood is listed under one of the three emotions. */
  lemma EveryMoodHasEmotion(k: nat)
    requires k < |MOODS|
    ensures MOODS[k].id in POSITIVE_IDS || MOODS[k].id in NEGATIVE_IDS || MOODS[k].id in NEUTRAL_IDS
  {
    if k == 0 { assert MOODS[k].id == POSITIVE_IDS[1]; }
    else if k == 1 { assert MOODS[k].id == POSITIVE_IDS[2]; }
    else if k == 2 { assert MOODS[k].id == NEGATIVE_IDS[1]; }
    else if k == 3 { assert MOODS[k].id == POSITIVE_IDS[0]; }
    else if k == 4 { assert MOODS[k].id == NEUTRAL_IDS[0]; }
    else { assert MOODS[k].id == NEGATIVE_IDS[0]; }
  }

  /** The three emotion names select the three filters. */
  lemma EmotionDispatch()
    ensures GetMoodsByEmotion("positive") == Filter(MOODS, (m: Mood) => m.id in POSITIVE_IDS)
    ensures GetMoodsByEmotion("negative") == Filter(MOODS, (m: Mood) => m.id in NEGATIVE_IDS)
    ensures GetMoodsByEmotion("neutral") == Filter(MOODS, (m: Mood) => m.id in NEUTRAL_IDS)
  {
    ShortKeyDistinct("negative", "positive");
    ShortKeyDistinct("neutral", "positive");
    ShortKeyDistinct("neutral", "negative");
  }

  /**
   * Positive, negative and neutral moods are pairwise disjoint, cover the
   * whole catalog between them, and each keeps catalog order.
   */
  lemma EmotionsPartitionMoods()
    ensures forall m :: m in GetMoodsByEmotion("positive") ==> m !in GetMoodsByEmotion("negative") && m !in GetMoodsByEmotion("neutral")
    ensures forall m :: m in GetMoodsByEmotion("negative") ==> m !in GetMoodsByEmotion("neutral")
    ensures forall m :: m in MOODS ==>
              m in GetMoodsByEmotion("positive") || m in GetMoodsByEmotion("negative") || m in GetMoodsByEmotion("neutral")
    ensures IsSubsequence(GetMoodsByEmotion("positive"), MOODS)
    ensures IsSubsequence(GetMoodsByEmotion("negative"), MOODS)
    ensures IsSubsequence(GetMoodsByEmotion("neutral"), MOODS)
  {
    EmotionsDisjoint();
    EmotionsCover();
    EmotionsKeepOrder();
  }

  /** No mood is in two of the emotion groups. */
  lemma EmotionsDisjoint()
    ensures forall m :: m in GetMoodsByEmotion("positive") ==> m !in GetMoodsByEmotion("negative") && m !in GetMoodsByEmotion("neutral")
    ensures forall m :: m in GetMoodsByEmotion("negative") ==> m !in GetMoodsByEmotion("neutral")
  {
    var pos := (m: Mood) => m.id in POSITIVE_IDS;
    var neg := (m: Mood) => m.id in NEGATIVE_IDS;
    var neu := (m: Mood) => m.id in NEUTRAL_IDS;
    EmotionDispatch();
    forall m | m in MOODS ensures !(pos(m) && neg(m)) && !(pos(m) && neu(m)) && !(neg(m) && neu(m)) {
      EmotionIdsDisjoint(m.id);
    }
    FilterDisjoint(MOODS, pos, neg);
    FilterDisjoint(MOODS, pos, neu);
    FilterDisjoint(MOODS, neg, neu);
  }

  /** Every mood is in one of the emotion groups. */
  lemma EmotionsCover()
    ensures forall m :: m in MOODS ==>
              m in GetMoodsByEmotion("positive") || m in GetMoodsByEmotion("negative") || m in GetMoodsByEmotion("neutral")
  {
    EmotionDispatch();
    forall m | m in MOODS ensures m.id in POSITIVE_IDS || m.id in NEGATIVE_IDS || m.id in NEUTRAL_IDS {
      MoodHasEmotion(m);
    }
    FilterCovers(MOODS, (m: Mood) => m.id in POSITIVE_IDS, (m: Mood) => m.id in NEGATIVE_IDS, (m: Mood) => m.id in NEUTRAL_IDS);
  }

  /** The id of every catalog mood is listed for some emotion. */
  lemma MoodHasEmotion(m: Mood)
    requires m in MOODS
    ensures m.id in POSITIVE_IDS || m.id in NEGATIVE_IDS || m.id in NEUTRAL_IDS
  {
    var k :| 0 <= k < |MOODS| && MOODS[k] == m;
    EveryMoodHasEmotion(k);
  }

  /** Each emotion group keeps catalog order. */
  lemma EmotionsKeepOrder()
    ensures IsSubsequence(GetMoodsByEmotion("positive"), MOODS)
    ensures IsSubsequence(GetMoodsByEmotion("negative"), MOODS)
    ensures IsSubsequence(GetMoodsByEmotion("neutral"), MOODS)
  {
    EmotionDispatch();
    FilterKeepsOrder(MOODS, (m: Mood) => m.id in POSITIVE_IDS);
    FilterKeepsOrder(MOODS, (m: Mood) => m.id in NEGATIVE_IDS);
    FilterKeepsOrder(MOODS, (m: Mood) => m.id in NEUTRAL_IDS);
  }
}
