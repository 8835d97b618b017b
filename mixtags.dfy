/**
 * The tags the mix store derives from a mix's sound ids: six substring rules
 * applied to each sound in turn, then "layered", "urban" and "sleep" for the
 * mix as a whole, collected in a `Set` and returned in insertion order.
 */
module MixTags {
  import opened Types
  import opened Seqs
  import opened Text

  /** The tags the per-sound rules produce. */
  const PER_SOUND_TAGS: seq<string> := ["rain", "water", "nature", "white noise", "music", "meditation"]

  /** The tags derived from the mix as a whole. */
  const MIX_TAGS: seq<string> := ["layered", "urban", "sleep"]

  /** `if (c) tags.add(t)`. */
  function AddIf(tags: seq<string>, c: bool, t: string): (r: seq<string>)
    ensures Elements(r) == if c then Elements(tags) + {t} else Elements(tags)
    ensures Distinct(tags) ==> Distinct(r)
    ensures tags <= r
  {
    if c then SetAdd(tags, t) else tags
  }

  /** The per-sound rule for tag `t` fires on sound id `id`. */
  predicate RuleFires(id: string, t: string)
  {
    (t == "rain" && (Contains(id, "rain") || Contains(id, "storm"))) ||
    (t == "water" && (Contains(id, "ocean") || Contains(id, "water"))) ||
    (t == "nature" && (Contains(id, "forest") || Contains(id, "birds"))) ||
    (t == "white noise" && Contains(id, "noise")) ||
    (t == "music" && (Contains(id, "piano") || Contains(id, "music"))) ||
    (t == "meditation" && (Contains(id, "meditation") || Contains(id, "zen") || Contains(id, "tibetan")))
  }

  /** The six per-sound rules in source order, each adding its tag when its condition (`c1` to `c6`) holds. */
  function SixRules(tags: seq<string>, c1: bool, c2: bool, c3: bool, c4: bool, c5: bool, c6: bool): seq<string>
  {
    AddIf(AddIf(AddIf(AddIf(AddIf(AddIf(tags, c1, "rain"), c2, "water"), c3, "nature"), c4, "white noise"), c5, "music"), c6, "meditation")
  }

  /** The body of the `forEach`: the six rules for one sound id, in order. */
  function SoundTags(tags: seq<string>, id: string): seq<string>
  {
    SixRules(tags, Contains(id, "rain") || Contains(id, "storm"), Contains(id, "ocean") || Contains(id, "water"),
             Contains(id, "forest") || Contains(id, "birds"), Contains(id, "noise"),
             Contains(id, "piano") || Contains(id, "music"),
             Contains(id, "meditation") || Contains(id, "zen") || Contains(id, "tibetan"))
  }

  /** The tags after the `forEach` over `sounds`. */
  function PerSoundTags(sounds: seq<MixSound>): seq<string>
  {
    if sounds == [] then [] else SoundTags(PerSoundTags(sounds[..|sounds| - 1]), sounds[|sounds| - 1].soundId)
  }

  /** `sounds.some(s => s.soundId.includes(a) || s.soundId.includes(b))`. */
  predicate SomeSound(sounds: seq<MixSound>, a: string, b: string)
  {
    exists i :: 0 <= i < |sounds| && (Contains(sounds[i].soundId, a) || Contains(sounds[i].soundId, b))
  }

  /** `generateTags(sounds)`. */
  function GenerateTags(sounds: seq<MixSound>): seq<string>
  {
    var t := PerSoundTags(sounds);
    var t := AddIf(t, |sounds| > 2, "layered");
    var t := AddIf(t, SomeSound(sounds, "coffee", "city"), "urban");
    AddIf(t, SomeSound(sounds, "sleep", "night"), "sleep")
  }

  /** `t` is in `AddIf(tags, c, u)` exactly when it was in `tags` or is `u` added. */
  lemma AddIfIn(tags: seq<string>, c: bool, u: string, t: string)
    ensures t in AddIf(tags, c, u) <==> t in tags || (c && t == u)
  {
    InElements(tags, t);
    InElements(AddIf(tags, c, u), t);
  }

  lemma SixRulesIn(tags: seq<string>, c1: bool, c2: bool, c3: bool, c4: bool, c5: bool, c6: bool, t: string)
    ensures t in SixRules(tags, c1, c2, c3, c4, c5, c6) <==>
            t in tags || (c1 && t == "rain") || (c2 && t == "water") || (c3 && t == "nature") ||
            (c4 && t == "white noise") || (c5 && t == "music") || (c6 && t == "meditation")
    ensures Distinct(tags) ==> Distinct(SixRules(tags, c1, c2, c3, c4, c5, c6))
    ensures t in SixRules(tags, c1, c2, c3, c4, c5, c6) ==> t in tags || t in PER_SOUND_TAGS
  {
    var t1 := AddIf(tags, c1, "rain");
    var t2 := AddIf(t1, c2, "water");
    var t3 := AddIf(t2, c3, "nature");
    var t4 := AddIf(t3, c4, "white noise");
    var t5 := AddIf(t4, c5, "music");
    AddIfIn(tags, c1, "rain", t);
    AddIfIn(t1, c2, "water", t);
    AddIfIn(t2, c3, "nature", t);
    AddIfIn(t3, c4, "white noise", t);
    AddIfIn(t4, c5, "music", t);
    AddIfIn(t5, c6, "meditation", t);
    assert PER_SOUND_TAGS[0] == "rain" && PER_SOUND_TAGS[1] == "water" && PER_SOUND_TAGS[2] == "nature";
    assert PER_SOUND_TAGS[3] == "white noise" && PER_SOUND_TAGS[4] == "music" && PER_SOUND_TAGS[5] == "meditation";
  }

  lemma SoundTagsStep(tags: seq<string>, id: string, t: string)
    ensures t in SoundTags(tags, id) <==> t in tags || RuleFires(id, t)
    ensures Distinct(tags) ==> Distinct(SoundTags(tags, id))
    ensures t in SoundTags(tags, id) ==> t in tags || t in PER_SOUND_TAGS
  {
    SixRulesIn(tags, Contains(id, "rain") || Contains(id, "storm"), Contains(id, "ocean") || Contains(id, "water"),
               Contains(id, "forest") || Contains(id, "birds"), Contains(id, "noise"),
               Contains(id, "piano") || Contains(id, "music"),
               Contains(id, "meditation") || Contains(id, "zen") || Contains(id, "tibetan"), t);
  }

  /** Some sound of `sounds` makes the rule for tag `t` fire. */
  predicate SomeRuleFires(sounds: seq<MixSound>, t: string)
  {
    exists i :: 0 <= i < |sounds| && RuleFires(sounds[i].soundId, t)
  }

  lemma SomeRuleFiresSnoc(init: seq<MixSound>, last: MixSound, t: string)
    ensures SomeRuleFires(init + [last], t) <==> SomeRuleFires(init, t) || RuleFires(last.soundId, t)
  {
    var s := init + [last];
    assert forall k :: 0 <= k < |init| ==> s[k] == init[k];
    assert s[|init|] == last;
  }

  /**
   * After the loop over the sounds, a tag is present exactly when its rule
   * fired on some sound; no tag is present twice; only the six per-sound tags occur.
   */
  lemma {:induction false} PerSoundTagsSpec(sounds: seq<MixSound>, t: string)
    ensures t in PerSoundTags(sounds) <==> SomeRuleFires(sounds, t)
    ensures Distinct(PerSoundTags(sounds))
    ensures t in PerSoundTags(sounds) ==> t in PER_SOUND_TAGS
  {
    if sounds != [] {
      var init := sounds[..|sounds| - 1];
      var last := sounds[|sounds| - 1];
      assert init + [last] == sounds;
      SomeRuleFiresSnoc(init, last, t);
      PerSoundTagsSpec(init, t);
      SoundTagsStep(PerSoundTags(init), last.soundId, t);
    }
  }

  /** The nine tag names are different strings. */
  lemma TagNamesDistinct()
    ensures Distinct(PER_SOUND_TAGS) && Distinct(MIX_TAGS)
    ensures forall i, j :: 0 <= i < |PER_SOUND_TAGS| && 0 <= j < |MIX_TAGS| ==> PER_SOUND_TAGS[i] != MIX_TAGS[j]
  {
    forall i, j | 0 <= i < j < |PER_SOUND_TAGS| ensures PER_SOUND_TAGS[i] != PER_SOUND_TAGS[j] {
      ShortKeyDistinct(PER_SOUND_TAGS[i], PER_SOUND_TAGS[j]);
    }
    forall i, j | 0 <= i < j < |MIX_TAGS| ensures MIX_TAGS[i] != MIX_TAGS[j] {
      ShortKeyDistinct(MIX_TAGS[i], MIX_TAGS[j]);
    }
    forall i, j | 0 <= i < |PER_SOUND_TAGS| && 0 <= j < |MIX_TAGS| ensures PER_SOUND_TAGS[i] != MIX_TAGS[j] {
      ShortKeyDistinct(PER_SOUND_TAGS[i], MIX_TAGS[j]);
    }
  }

  /** Each per-sound rule is the substring test the source writes for its tag. */
  lemma RuleFiresFor(id: string)
    ensures RuleFires(id, "rain") <==> Contains(id, "rain") || Contains(id, "storm")
    ensures RuleFires(id, "water") <==> Contains(id, "ocean") || Contains(id, "water")
    ensures RuleFires(id, "nature") <==> Contains(id, "forest") || Contains(id, "birds")
    ensures RuleFires(id, "white noise") <==> Contains(id, "noise")
    ensures RuleFires(id, "music") <==> Contains(id, "piano") || Contains(id, "music")
    ensures RuleFires(id, "meditation") <==> Contains(id, "meditation") || Contains(id, "zen") || Contains(id, "tibetan")
    ensures !RuleFires(id, "layered") && !RuleFires(id, "urban") && !RuleFires(id, "sleep")
  {
    TagNamesDistinct();
    assert PER_SOUND_TAGS[0] == "rain" && PER_SOUND_TAGS[1] == "water" && PER_SOUND_TAGS[2] == "nature";
    assert PER_SOUND_TAGS[3] == "white noise" && PER_SOUND_TAGS[4] == "music" && PER_SOUND_TAGS[5] == "meditation";
    assert MIX_TAGS[0] == "layered" && MIX_TAGS[1] == "urban" && MIX_TAGS[2] == "sleep";
  }

  /** `generateTags` returns each tag at most once, and only the nine known tags. */
  lemma GenerateTagsWellFormed(sounds: seq<MixSound>)
    ensures Distinct(GenerateTags(sounds))
    ensures forall t :: t in GenerateTags(sounds) ==> t in PER_SOUND_TAGS || t in MIX_TAGS
    ensures PerSoundTags(sounds) <= GenerateTags(sounds)
  {
    PerSoundTagsSpec(sounds, "");
    var g := GenerateTags(sounds);
    forall t | t in g ensures t in PER_SOUND_TAGS || t in MIX_TAGS {
      assert t in Elements(g);
      PerSoundTagsSpec(sounds, t);
      assert t in PerSoundTags(sounds) <==> t in Elements(PerSoundTags(sounds));
      assert MIX_TAGS[0] == "layered" && MIX_TAGS[1] == "urban" && MIX_TAGS[2] == "sleep";
    }
  }

  /** The set of tags `generateTags` returns: the per-sound ones plus the mix-wide ones whose test holds. */
  lemma GenerateTagsElements(sounds: seq<MixSound>)
    ensures Elements(GenerateTags(sounds)) ==
            Elements(PerSoundTags(sounds)) + (if |sounds| > 2 then {"layered"} else {}) +
            (if SomeSound(sounds, "coffee", "city") then {"urban"} else {}) +
            (if SomeSound(sounds, "sleep", "night") then {"sleep"} else {})
  {
    var t0 := PerSoundTags(sounds);
    var t1 := AddIf(t0, |sounds| > 2, "layered");
    var t2 := AddIf(t1, SomeSound(sounds, "coffee", "city"), "urban");
    var t3 := AddIf(t2, SomeSound(sounds, "sleep", "night"), "sleep");
    assert GenerateTags(sounds) == t3;
  }

  lemma InElements<T>(s: seq<T>, x: T)
    ensures x in Elements(s) <==> x in s
  {
  }

  /** A per-sound tag is among the tags `generateTags` returns exactly when its rule fires on some sound. */
  lemma GenerateTagsMembership(sounds: seq<MixSound>, t: string)
    requires t in PER_SOUND_TAGS
    ensures t in GenerateTags(sounds) <==> SomeRuleFires(sounds, t)
  {
    GenerateTagsElements(sounds);
    PerSoundTagsSpec(sounds, t);
    InElements(GenerateTags(sounds), t);
    InElements(PerSoundTags(sounds), t);
    TagNamesDistinct();
    assert MIX_TAGS[0] == "layered" && MIX_TAGS[1] == "urban" && MIX_TAGS[2] == "sleep";
  }

  /**
   * The mix-wide tags: "layered" exactly for more than two sounds, "urban"
   * and "sleep" exactly when some id mentions coffee or city, sleep or night.
   */
  lemma GenerateMixTags(sounds: seq<MixSound>)
    ensures "layered" in GenerateTags(sounds) <==> |sounds| > 2
    ensures "urban" in GenerateTags(sounds) <==> SomeSound(sounds, "coffee", "city")
    ensures "sleep" in GenerateTags(sounds) <==> SomeSound(sounds, "sleep", "night")
  {
    var g := GenerateTags(sounds);
    GenerateTagsElements(sounds);
    MixTagIn(sounds, "layered", 0);
    MixTagIn(sounds, "urban", 1);
    MixTagIn(sounds, "sleep", 2);
    InElements(g, "layered");
    InElements(g, "urban");
    InElements(g, "sleep");
  }

  /** A mix-wide tag is never produced by the per-sound rules. */
  lemma MixTagIn(sounds: seq<MixSound>, t: string, k: nat)
    requires k < |MIX_TAGS| && t == MIX_TAGS[k]
    ensures t !in Elements(PerSoundTags(sounds))
  {
    PerSoundTagsSpec(sounds, t);
    TagNamesDistinct();
  }
}
