/**
 * The mix store: a list of saved mixes with create, update, delete,
 * duplicate and play-count operations, the built-in presets, and the
 * queries that filter, sort and slice copies of the list. Mix ids and
 * timestamps are supplied by the caller; persistence is not modelled.
 */
module SoundMixes {
  import opened Types
  import opened Seqs
  import opened Text
  import opened Listeners
  import opened MixTags
  import opened Sounds

  // --------------------------------------------------------------- presets

  const PRESETS: seq<MixPreset> := [
    MixPreset("focus_deep", "Deep Focus", "Perfect for concentrated work sessions",
              [MixSound("white_noise", 0.6), MixSound("coffee_shop", 0.4), MixSound("gentle_piano", 0.3)],
              Focus, false),
    MixPreset("sleep_peaceful", "Peaceful Sleep", "Gentle sounds for restful sleep",
              [MixSound("rain_light", 0.5), MixSound("night_crickets", 0.3), MixSound("deep_breathing", 0.4)],
              Sleep, false),
    MixPreset("relax_nature", "Nature Escape", "Immerse yourself in natural tranquility",
              [MixSound("ocean_waves", 0.6), MixSound("forest_birds", 0.4), MixSound("flowing_water", 0.3)],
              Relax, false),
    MixPreset("energy_morning", "Morning Energy", "Energizing sounds to start your day",
              [MixSound("forest_birds", 0.6), MixSound("wind_chimes", 0.4), MixSound("flowing_water", 0.5)],
              Energy, false),
    MixPreset("meditation_zen", "Zen Meditation", "Sacred sounds for mindful practice",
              [MixSound("tibetan_bowls", 0.5), MixSound("om_chanting", 0.4), MixSound("alpha_waves", 0.3)],
              Focus, true)
  ]

  /** The five presets have distinct ids. */
  lemma PresetIdsDistinct()
    ensures forall i, j :: 0 <= i < j < |PRESETS| ==> PRESETS[i].id != PRESETS[j].id
  {
    forall i, j | 0 <= i < j < |PRESETS| ensures PRESETS[i].id != PRESETS[j].id {
      ShortKeyDistinct(PRESETS[i].id, PRESETS[j].id);
    }
  }

  /** Every sound a preset names is in the catalog, at a volume in (0, 1]. */
  lemma PresetSoundsResolve()
    ensures forall i, k :: 0 <= i < |PRESETS| && 0 <= k < |PRESETS[i].sounds| ==>
              0.0 < PRESETS[i].sounds[k].volume <= 1.0 && GetSoundById(PRESETS[i].sounds[k].soundId).Some?
  {
    forall i, k | 0 <= i < |PRESETS| && 0 <= k < |PRESETS[i].sounds|
      ensures 0.0 < PRESETS[i].sounds[k].volume <= 1.0 && GetSoundById(PRESETS[i].sounds[k].soundId).Some?
    {
      PresetSoundResolves(i, k);
      var id := PRESETS[i].sounds[k].soundId;
      assert SOUNDS[CatalogIndex(id)].id == id;
    }
  }

  lemma PresetSoundResolves(i: nat, k: nat)
    requires i < |PRESETS| && k < |PRESETS[i].sounds|
    ensures CatalogIndex(PRESETS[i].sounds[k].soundId) >= 0
    ensures 0.0 < PRESETS[i].sounds[k].volume <= 1.0
  {
  }

  // --------------------------------------------------------------- queries

  const WEEK_MS: int := 7 * 24 * 60 * 60 * 1000

  function UpdatedAtKey(m: SoundMix): int { m.updatedAt }

  function PlayCountKey(m: SoundMix): int { m.playCount }

  /** The `switch` of `getMixes` for a category other than "" and "all". */
  predicate InCategory(m: SoundMix, category: string, now: int)
  {
    if category == "custom" then m.isCustom
    else if category == "favorites" then m.playCount > 0
    else if category == "recent" then m.updatedAt > now - WEEK_MS
    else true
  }

  /** Whether `getMixes(category)` keeps `m`; a missing or empty category and "all" keep everything. */
  predicate Selected(m: SoundMix, category: Option<string>, now: int)
  {
    category.None? || category.value == "" || category.value == "all" || InCategory(m, category.value, now)
  }

  /** The mixes `getMixes(category)` keeps, in stored order. */
  function Kept(mixes: seq<SoundMix>, category: Option<string>, now: int): (r: seq<SoundMix>)
    ensures forall m :: m in r <==> m in mixes && Selected(m, category, now)
    ensures forall m :: multiset(r)[m] == if Selected(m, category, now) then multiset(mixes)[m] else 0
    ensures multiset(r) <= multiset(mixes)
  {
    if category.None? || category.value == "" || category.value == "all" then
      mixes
    else
      var p := (m: SoundMix) => InCategory(m, category.value, now);
      forall m ensures m in Filter(mixes, p) <==> m in mixes && p(m)
               ensures multiset(Filter(mixes, p))[m] == if p(m) then multiset(mixes)[m] else 0
      {
        FilterMembership(mixes, p, m);
        FilterCount(mixes, p, m);
      }
      FilterIsSubmultiset(mixes, p);
      Filter(mixes, p)
  }

  /** `getMixes(category)` at time `now`: the selected mixes, most recently updated first. */
  function GetMixes(mixes: seq<SoundMix>, category: Option<string>, now: int): (r: seq<SoundMix>)
    ensures SortedDesc(r, UpdatedAtKey)
    ensures forall m :: m in r <==> m in mixes && Selected(m, category, now)
    ensures forall m :: multiset(r)[m] == if Selected(m, category, now) then multiset(mixes)[m] else 0
    ensures multiset(r) <= multiset(mixes)
  {
    var kept := Kept(mixes, category, now);
    SortDescSpec(kept, UpdatedAtKey);
    assert forall m :: m in SortDesc(kept, UpdatedAtKey) <==> m in multiset(kept);
    SortDesc(kept, UpdatedAtKey)
  }

  lemma {:induction false} FilterIsSubmultiset<T>(s: seq<T>, p: T -> bool)
    ensures multiset(Filter(s, p)) <= multiset(s)
  {
    if s != [] {
      FilterIsSubmultiset(s[1..], p);
      assert s == [s[0]] + s[1..];
    }
  }

  /** With no category, `getMixes` is a reordering of all the mixes. */
  lemma GetMixesAll(mixes: seq<SoundMix>, now: int)
    ensures multiset(GetMixes(mixes, None, now)) == multiset(mixes)
    ensures |GetMixes(mixes, None, now)| == |mixes|
  {
    SortDescSpec(mixes, UpdatedAtKey);
  }

  /** `getMixById(id)`: the first mix with that id. */
  function GetMixById(mixes: seq<SoundMix>, mixId: string): (r: Option<SoundMix>)
    ensures r.Some? ==> r.value in mixes && r.value.id == mixId
    ensures r.Some? ==> exists k :: 0 <= k < |mixes| && mixes[k] == r.value &&
                          forall j :: 0 <= j < k ==> mixes[j].id != mixId
    ensures r.None? <==> forall m :: m in mixes ==> m.id != mixId
  {
    match MixIndex(mixes, mixId)
    case None => None
    case Some(k) => Some(mixes[k])
  }

  /** The index of the first mix with that id, where the source calls `findIndex` or `find`. */
  function MixIndex(mixes: seq<SoundMix>, mixId: string): (r: Option<nat>)
    ensures r.Some? ==> r.value < |mixes| && mixes[r.value].id == mixId
    ensures r.Some? ==> forall j :: 0 <= j < r.value ==> mixes[j].id != mixId
    ensures r.None? <==> forall j :: 0 <= j < |mixes| ==> mixes[j].id != mixId
  {
    FindIndex(mixes, (m: SoundMix) => m.id == mixId)
  }

  /** `getMixesByMood(moodId)`: the mixes tagged with that mood, in stored order. */
  function GetMixesByMood(mixes: seq<SoundMix>, moodId: string): (r: seq<SoundMix>)
    ensures forall m :: m in r <==> m in mixes && m.moodId == Some(moodId)
    ensures forall m :: multiset(r)[m] == if m.moodId == Some(moodId) then multiset(mixes)[m] else 0
    ensures IsSubsequence(r, mixes)
  {
    var p := (m: SoundMix) => m.moodId == Some(moodId);
    forall m ensures m in Filter(mixes, p) <==> m in mixes && p(m)
             ensures multiset(Filter(mixes, p))[m] == if p(m) then multiset(mixes)[m] else 0
    {
      FilterMembership(mixes, p, m);
      FilterCount(mixes, p, m);
    }
    FilterKeepsOrder(mixes, p);
    Filter(mixes, p)
  }

  /** The test of `searchMixes` for an already lower-cased term. */
  predicate MatchesTerm(m: SoundMix, term: string)
  {
    Contains(ToLower(m.name), term) ||
    (m.description.Some? && Contains(ToLower(m.description.value), term)) ||
    exists i :: 0 <= i < |m.tags| && Contains(ToLower(m.tags[i]), term)
  }

  /** `searchMixes(query)`: the mixes whose name, description or a tag contains the query, ignoring case. */
  function SearchMixes(mixes: seq<SoundMix>, query: string): (r: seq<SoundMix>)
    ensures forall m :: m in r <==> m in mixes && MatchesTerm(m, ToLower(query))
    ensures forall m :: multiset(r)[m] == if MatchesTerm(m, ToLower(query)) then multiset(mixes)[m] else 0
    ensures IsSubsequence(r, mixes)
  {
    var p := (m: SoundMix) => MatchesTerm(m, ToLower(query));
    forall m ensures m in Filter(mixes, p) <==> m in mixes && p(m)
             ensures multiset(Filter(mixes, p))[m] == if p(m) then multiset(mixes)[m] else 0
    {
      FilterMembership(mixes, p, m);
      FilterCount(mixes, p, m);
    }
    FilterKeepsOrder(mixes, p);
    Filter(mixes, p)
  }

  /** The search ignores the case of the query. */
  lemma SearchIgnoresQueryCase(mixes: seq<SoundMix>, query: string)
    ensures SearchMixes(mixes, ToLower(query)) == SearchMixes(mixes, query)
  {
    ToLowerIdempotent(query);
  }

  /** An empty query finds every mix. */
  lemma SearchEmptyQuery(mixes: seq<SoundMix>)
    ensures SearchMixes(mixes, "") == mixes
  {
    var p := (m: SoundMix) => MatchesTerm(m, ToLower(""));
    forall i | 0 <= i < |mixes| ensures p(mixes[i]) {
      assert IsPrefix("", ToLower(mixes[i].name));
    }
    FilterAll(mixes, p);
  }

  /**
   * `getMostPlayedMixes(limit)` (the source's default limit is 10): the most
   * played mixes first; a negative limit counts from the end as `slice` does.
   */
  function GetMostPlayedMixes(mixes: seq<SoundMix>, limit: int): seq<SoundMix>
  {
    SliceTo(SortDesc(mixes, PlayCountKey), limit)
  }

  /**
   * At most `limit` mixes for a non-negative limit; for every limit, mixes
   * from the list, ordered by play count, and none of the others played more
   * often than one kept.
   */
  lemma MostPlayedSpec(mixes: seq<SoundMix>, limit: int)
    ensures limit >= 0 ==> |GetMostPlayedMixes(mixes, limit)| == if limit < |mixes| then limit else |mixes|
    ensures SortedDesc(GetMostPlayedMixes(mixes, limit), PlayCountKey)
    ensures multiset(GetMostPlayedMixes(mixes, limit)) <= multiset(mixes)
    ensures forall x, y :: x in GetMostPlayedMixes(mixes, limit) && y in multiset(mixes) - multiset(GetMostPlayedMixes(mixes, limit)) ==>
              y.playCount <= x.playCount
  {
    TopByKey(mixes, PlayCountKey, limit);
  }

  /** `getRecentMixes(limit)` (default 10): the most recently updated mixes first. */
  function GetRecentMixes(mixes: seq<SoundMix>, limit: int): seq<SoundMix>
  {
    SliceTo(SortDesc(mixes, UpdatedAtKey), limit)
  }

  lemma RecentSpec(mixes: seq<SoundMix>, limit: int)
    ensures limit >= 0 ==> |GetRecentMixes(mixes, limit)| == if limit < |mixes| then limit else |mixes|
    ensures SortedDesc(GetRecentMixes(mixes, limit), UpdatedAtKey)
    ensures multiset(GetRecentMixes(mixes, limit)) <= multiset(mixes)
    ensures forall x, y :: x in GetRecentMixes(mixes, limit) && y in multiset(mixes) - multiset(GetRecentMixes(mixes, limit)) ==>
              y.updatedAt <= x.updatedAt
  {
    TopByKey(mixes, UpdatedAtKey, limit);
  }

  // --------------------------------------------------------------- updates

  /** A `Partial<SoundMix>`: `Some` marks a supplied field. `updatedAt` is always overwritten. */
  datatype MixUpdate = MixUpdate(
    id: Option<string>,
    name: Option<string>,
    description: Option<Option<string>>,
    sounds: Option<seq<MixSound>>,
    isPlaying: Option<bool>,
    isCustom: Option<bool>,
    isPremium: Option<bool>,
    moodId: Option<Option<string>>,
    tags: Option<seq<string>>,
    createdAt: Option<int>,
    playCount: Option<int>)

  function Pick<T>(current: T, update: Option<T>): T
  {
    if update.Some? then update.value else current
  }

  /** `{ ...m, ...u, updatedAt: now }`: every supplied field overwrites, every other is kept. */
  function ApplyUpdate(m: SoundMix, u: MixUpdate, now: int): (r: SoundMix)
    ensures r.id == if u.id.Some? then u.id.value else m.id
    ensures r.name == if u.name.Some? then u.name.value else m.name
    ensures r.description == if u.description.Some? then u.description.value else m.description
    ensures r.sounds == if u.sounds.Some? then u.sounds.value else m.sounds
    ensures r.isPlaying == if u.isPlaying.Some? then u.isPlaying.value else m.isPlaying
    ensures r.isCustom == if u.isCustom.Some? then u.isCustom.value else m.isCustom
    ensures r.isPremium == if u.isPremium.Some? then u.isPremium.value else m.isPremium
    ensures r.moodId == if u.moodId.Some? then u.moodId.value else m.moodId
    ensures r.tags == if u.tags.Some? then u.tags.value else m.tags
    ensures r.createdAt == if u.createdAt.Some? then u.createdAt.value else m.createdAt
    ensures r.playCount == if u.playCount.Some? then u.playCount.value else m.playCount
    ensures r.updatedAt == now
  {
    SoundMix(Pick(m.id, u.id), Pick(m.name, u.name), Pick(m.description, u.description),
             Pick(m.sounds, u.sounds), Pick(m.isPlaying, u.isPlaying), Pick(m.isCustom, u.isCustom),
             Pick(m.isPremium, u.isPremium), Pick(m.moodId, u.moodId), Pick(m.tags, u.tags),
             Pick(m.createdAt, u.createdAt), now, Pick(m.playCount, u.playCount))
  }

  const NO_MIX_UPDATES := MixUpdate(None, None, None, None, None, None, None, None, None, None, None)

  /**
   * With nothing supplied an update only touches `updatedAt`; applying the
   * same update again later changes nothing but the time stamp.
   */
  lemma ApplyUpdateSpec(m: SoundMix, u: MixUpdate, t1: int, t2: int)
    ensures ApplyUpdate(m, NO_MIX_UPDATES, t1) == m.(updatedAt := t1)
    ensures ApplyUpdate(ApplyUpdate(m, u, t1), u, t2) == ApplyUpdate(m, u, t2)
  {
  }

  /** The record `createMix` builds. */
  function NewMix(state: MixCreationState, moodId: Option<string>, id: string, now: int): (m: SoundMix)
  {
    SoundMix(id, state.name, Some(state.description), state.selectedSounds, false, true, false,
             moodId, GenerateTags(state.selectedSounds), now, now, 0)
  }

  /** The name `duplicateMix` gives a copy: `newName || name + " (Copy)"`. */
  function CopyName(original: string, newName: Option<string>): (r: string)
    ensures newName.Some? && newName.value != "" ==> r == newName.value
    ensures newName.None? || newName.value == "" ==> r == original + " (Copy)" && |r| == |original| + 7
  {
    if newName.Some? && newName.value != "" then newName.value else original + " (Copy)"
  }

  // --------------------------------------------------------------- service

  class SoundMixService {
    var mixes: seq<SoundMix>
    var listeners: seq<ListenerId>
    /** Every callback invocation so far, oldest first. */
    ghost var deliveries: seq<Delivery<seq<SoundMix>>>

    /** A fresh store: no mixes and no callbacks. */
    constructor ()
      ensures mixes == [] && listeners == [] && deliveries == []
    {
      mixes := [];
      listeners := [];
      deliveries := [];
    }

    /**
     * `createMix(state, moodId)`: appends one custom, free, never-played mix
     * whose tags are derived from its sounds, notifies, and returns it.
     */
    method CreateMix(state: MixCreationState, moodId: Option<string>, id: string, now: int) returns (mix: SoundMix)
      modifies this
      ensures mix == NewMix(state, moodId, id, now)
      ensures mix.isCustom && !mix.isPremium && !mix.isPlaying && mix.playCount == 0
      ensures mix.sounds == state.selectedSounds && mix.tags == GenerateTags(state.selectedSounds)
      ensures mixes == old(mixes) + [mix]
      ensures listeners == old(listeners)
      ensures deliveries == old(deliveries) + Broadcast(listeners, mixes)
    {
      mix := NewMix(state, moodId, id, now);
      mixes := mixes + [mix];
      NotifyListeners();
    }

    /**
     * `updateMix(id, updates)`: replaces the first mix with that id by the
     * overlaid record and returns it; an unknown id changes nothing and gives `None`.
     */
    method UpdateMix(mixId: string, updates: MixUpdate, now: int) returns (r: Option<SoundMix>)
      modifies this
      ensures listeners == old(listeners)
      ensures MixIndex(old(mixes), mixId).None? ==>
                r.None? && mixes == old(mixes) && deliveries == old(deliveries)
      ensures MixIndex(old(mixes), mixId).Some? ==>
                var k := MixIndex(old(mixes), mixId).value;
                r == Some(ApplyUpdate(old(mixes)[k], updates, now)) &&
                mixes == old(mixes)[k := r.value] &&
                deliveries == old(deliveries) + Broadcast(listeners, mixes)
      ensures |mixes| == |old(mixes)|
    {
      var k := MixIndex(mixes, mixId);
      if k.None? {
        return None;
      }
      var updated := ApplyUpdate(mixes[k.value], updates, now);
      mixes := mixes[k.value := updated];
      NotifyListeners();
      r := Some(updated);
    }

    /**
     * `deleteMix(id)`: removes the first mix with that id and reports whether
     * there was one; otherwise changes nothing.
     */
    method DeleteMix(mixId: string) returns (deleted: bool)
      modifies this
      ensures deleted <==> exists m :: m in old(mixes) && m.id == mixId
      ensures listeners == old(listeners)
      ensures !deleted ==> mixes == old(mixes) && deliveries == old(deliveries)
      ensures deleted ==>
                mixes == RemoveAt(old(mixes), MixIndex(old(mixes), mixId).value) &&
                |mixes| == |old(mixes)| - 1 &&
                deliveries == old(deliveries) + Broadcast(listeners, mixes)
    {
      var k := MixIndex(mixes, mixId);
      if k.None? {
        return false;
      }
      mixes := RemoveAt(mixes, k.value);
      NotifyListeners();
      deleted := true;
    }

    /**
     * `duplicateMix(id, newName)`: appends a never-played copy of the first mix
     * with that id, under a new id, with the same sounds and tags.
     */
    method DuplicateMix(mixId: string, newName: Option<string>, id: string, now: int) returns (r: Option<SoundMix>)
      modifies this
      ensures listeners == old(listeners)
      ensures r.None? <==> GetMixById(old(mixes), mixId).None?
      ensures r.None? ==> mixes == old(mixes) && deliveries == old(deliveries)
      ensures r.Some? ==>
                var original := GetMixById(old(mixes), mixId).value;
                r.value == original.(id := id, name := CopyName(original.name, newName),
                                     createdAt := now, updatedAt := now, playCount := 0) &&
                r.value.sounds == original.sounds && r.value.tags == original.tags &&
                mixes == old(mixes) + [r.value] &&
                deliveries == old(deliveries) + Broadcast(listeners, mixes)
    {
      var original := GetMixById(mixes, mixId);
      if original.None? {
        return None;
      }
      var copy := original.value.(id := id, name := CopyName(original.value.name, newName),
                                  createdAt := now, updatedAt := now, playCount := 0);
      mixes := mixes + [copy];
      NotifyListeners();
      r := Some(copy);
    }

    /**
     * `createMixFromPreset(presetId, customName)`: a new mix with the preset's
     * sounds and description, named `customName || preset.name`, without a mood.
     */
    method CreateMixFromPreset(presetId: string, customName: Option<string>, id: string, now: int)
      returns (r: Option<SoundMix>)
      modifies this
      ensures listeners == old(listeners)
      ensures var preset := Find(PRESETS, (p: MixPreset) => p.id == presetId);
              (preset.None? ==> r.None? && mixes == old(mixes) && deliveries == old(deliveries)) &&
              (preset.Some? ==>
                 var name := if customName.Some? && customName.value != "" then customName.value else preset.value.name;
                 r == Some(NewMix(MixCreationState(name, preset.value.description, preset.value.sounds, false, 0.8), None, id, now)) &&
                 mixes == old(mixes) + [r.value] &&
                 deliveries == old(deliveries) + Broadcast(listeners, mixes))
    {
      var preset := Find(PRESETS, (p: MixPreset) => p.id == presetId);
      if preset.None? {
        return None;
      }
      var name := if customName.Some? && customName.value != "" then customName.value else preset.value.name;
      var mix := CreateMix(MixCreationState(name, preset.value.description, preset.value.sounds, false, 0.8), None, id, now);
      r := Some(mix);
    }

    /**
     * `incrementPlayCount(id)`: the first mix with that id is played once more
     * and stamped; an unknown id changes nothing.
     */
    method IncrementPlayCount(mixId: string, now: int)
      modifies this
      ensures listeners == old(listeners)
      ensures |mixes| == |old(mixes)|
      ensures MixIndex(old(mixes), mixId).None? ==> mixes == old(mixes) && deliveries == old(deliveries)
      ensures MixIndex(old(mixes), mixId).Some? ==>
                var k := MixIndex(old(mixes), mixId).value;
                mixes == old(mixes)[k := old(mixes)[k].(playCount := old(mixes)[k].playCount + 1, updatedAt := now)] &&
                deliveries == old(deliveries) + Broadcast(listeners, mixes)
    {
      var k := MixIndex(mixes, mixId);
      if k.Some? {
        var m := mixes[k.value];
        mixes := mixes[k.value := m.(playCount := m.playCount + 1, updatedAt := now)];
        NotifyListeners();
      }
    }

    /** `clearAllMixes()`: no mixes left; the callbacks are told. */
    method ClearAllMixes()
      modifies this
      ensures mixes == [] && listeners == old(listeners)
      ensures deliveries == old(deliveries) + Broadcast(listeners, [])
    {
      mixes := [];
      NotifyListeners();
    }

    /** `addListener(l)`: registers `l`; unlike the other services it is not called at once. */
    method AddListener(l: ListenerId)
      modifies this`listeners
      ensures listeners == old(listeners) + [l]
    {
      listeners := listeners + [l];
    }

    /** `removeListener(l)`: drops the first registration of `l`, if there is one. */
    method RemoveListener(l: ListenerId)
      modifies this`listeners
      ensures listeners == RemoveFirst(old(listeners), l)
    {
      listeners := RemoveFirst(listeners, l);
    }

    /** `notifyListeners()`: every callback receives a copy of the list. */
    method NotifyListeners()
      modifies this`deliveries
      ensures deliveries == old(deliveries) + Broadcast(listeners, mixes)
    {
      deliveries := deliveries + Broadcast(listeners, mixes);
    }
  }
}
