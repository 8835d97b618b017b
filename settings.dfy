/**
 * The user's preferences: field-wise setters, reset, merge of a partial
 * update, the wording of the default timer duration, and the validation a
 * parsed backup goes through before it replaces the preferences.
 * Persistence is not modelled; every save is taken to succeed.
 */
module Settings {
  import opened Types
  import opened Seqs
  import opened Text
  import opened Listeners

  // ------------------------------------------------------------ clamping

  /** `Math.max(0, Math.min(1, v))`. */
  function Clamp01(v: real): (r: real)
    ensures 0.0 <= r <= 1.0
    ensures 0.0 <= v <= 1.0 ==> r == v
    ensures v < 0.0 ==> r == 0.0
    ensures v > 1.0 ==> r == 1.0
  {
    if v < 0.0 then 0.0 else if v > 1.0 then 1.0 else v
  }

  // ------------------------------------------------------ partial updates

  /** A `Partial<UserPreferences>`: the fields it supplies are `Some`. */
  datatype PreferencesUpdate = PreferencesUpdate(
    theme: Option<Theme>,
    defaultTimerDuration: Option<real>,
    autoPlay: Option<bool>,
    notifications: Option<bool>,
    masterVolume: Option<real>,
    favoritesSoundIds: Option<seq<string>>,
    favoritesMixIds: Option<seq<string>>)

  const NO_UPDATES := PreferencesUpdate(None, None, None, None, None, None, None)

  function Pick<T>(current: T, update: Option<T>): T
  {
    if update.Some? then update.value else current
  }

  /** `{ ...p, ...u }`: each supplied field replaces the current one; no clamping. */
  function Overlay(p: UserPreferences, u: PreferencesUpdate): (r: UserPreferences)
    ensures u.theme.Some? ==> r.theme == u.theme.value
    ensures u.theme.None? ==> r.theme == p.theme
    ensures u.defaultTimerDuration.Some? ==> r.defaultTimerDuration == u.defaultTimerDuration.value
    ensures u.defaultTimerDuration.None? ==> r.defaultTimerDuration == p.defaultTimerDuration
    ensures u.autoPlay.Some? ==> r.autoPlay == u.autoPlay.value
    ensures u.autoPlay.None? ==> r.autoPlay == p.autoPlay
    ensures u.notifications.Some? ==> r.notifications == u.notifications.value
    ensures u.notifications.None? ==> r.notifications == p.notifications
    ensures u.masterVolume.Some? ==> r.masterVolume == u.masterVolume.value
    ensures u.masterVolume.None? ==> r.masterVolume == p.masterVolume
    ensures u.favoritesSoundIds.Some? ==> r.favoritesSoundIds == u.favoritesSoundIds.value
    ensures u.favoritesSoundIds.None? ==> r.favoritesSoundIds == p.favoritesSoundIds
    ensures u.favoritesMixIds.Some? ==> r.favoritesMixIds == u.favoritesMixIds.value
    ensures u.favoritesMixIds.None? ==> r.favoritesMixIds == p.favoritesMixIds
  {
    UserPreferences(
      Pick(p.theme, u.theme),
      Pick(p.defaultTimerDuration, u.defaultTimerDuration),
      Pick(p.autoPlay, u.autoPlay),
      Pick(p.notifications, u.notifications),
      Pick(p.masterVolume, u.masterVolume),
      Pick(p.favoritesSoundIds, u.favoritesSoundIds),
      Pick(p.favoritesMixIds, u.favoritesMixIds))
  }

  /** `{ ...u1, ...u2 }` on two partial updates. */
  function Merge(u1: PreferencesUpdate, u2: PreferencesUpdate): PreferencesUpdate
  {
    PreferencesUpdate(
      if u2.theme.Some? then u2.theme else u1.theme,
      if u2.defaultTimerDuration.Some? then u2.defaultTimerDuration else u1.defaultTimerDuration,
      if u2.autoPlay.Some? then u2.autoPlay else u1.autoPlay,
      if u2.notifications.Some? then u2.notifications else u1.notifications,
      if u2.masterVolume.Some? then u2.masterVolume else u1.masterVolume,
      if u2.favoritesSoundIds.Some? then u2.favoritesSoundIds else u1.favoritesSoundIds,
      if u2.favoritesMixIds.Some? then u2.favoritesMixIds else u1.favoritesMixIds)
  }

  /**
   * An empty update leaves the preferences alone, and two updates in a row
   * are one merged update.
   */
  lemma OverlayLaws(p: UserPreferences, u1: PreferencesUpdate, u2: PreferencesUpdate)
    ensures Overlay(p, NO_UPDATES) == p
    ensures Overlay(Overlay(p, u1), u2) == Overlay(p, Merge(u1, u2))
    ensures Overlay(Overlay(p, u1), u1) == Overlay(p, u1)
  {
  }

  // ------------------------------------------------------- timer wording

  /**
   * `getFormattedTimerDuration()` for a duration of `m` whole minutes:
   * "N minutes" below an hour, "1 hour" / "H hours" on whole hours, and
   * "Hh Mm" otherwise.
   */
  function FormatMinutes(m: int): string
  {
    if m < 60 then IntToString(m) + " minutes"
    else if m % 60 == 0 then (if m / 60 == 1 then "1 hour" else NatToString(m / 60) + " hours")
    else NatToString(m / 60) + "h " + NatToString(m % 60) + "m"
  }

  /** Reads a wording of FormatMinutes back as minutes. */
  function ParseMinutes(s: string): int
  {
    var n := |s|;
    if n >= 1 && s[n - 1] == 'r' then 60
    else if n >= 8 && s[n - 1] == 's' && s[n - 2] == 'e' then ParseInt(s[..n - 8])
    else if n >= 6 && s[n - 1] == 's' then 60 * ParseDigits(s[..n - 6])
    else match IndexOf(s, 'h')
      case None => 0
      case Some(k) => if k + 2 <= n - 1 then 60 * ParseDigits(s[..k]) + ParseDigits(s[k + 2..n - 1]) else 0
  }

  lemma NoLetterInDigits(d: string, c: char)
    requires forall i :: 0 <= i < |d| ==> '0' <= d[i] <= '9'
    requires !('0' <= c <= '9')
    ensures c !in d
  {
  }

  /** Every wording reads back as the minutes it was made from. */
  lemma FormatMinutesRoundTrip(m: int)
    ensures ParseMinutes(FormatMinutes(m)) == m
  {
    if m < 60 {
      MinutesRoundTrip(m);
    } else if m % 60 == 0 {
      HoursRoundTrip(m);
    } else {
      HoursMinutesRoundTrip(m);
    }
  }

  /** "N minutes" reads back as N. */
  lemma MinutesRoundTrip(m: int)
    requires m < 60
    ensures ParseMinutes(FormatMinutes(m)) == m
  {
    var s := FormatMinutes(m);
    assert s[..|s| - 8] == IntToString(m);
    ParseIntToString(m);
  }

  /** "1 hour" and "H hours" read back as the whole hours. */
  lemma HoursRoundTrip(m: int)
    requires m >= 60 && m % 60 == 0
    ensures ParseMinutes(FormatMinutes(m)) == m
  {
    if m / 60 != 1 {
      var s := FormatMinutes(m);
      var n := |s|;
      var h := NatToString(m / 60);
      assert s[..n - 6] == h;
      assert s[n - 2] == 'r';
      ParseNatToString(m / 60);
    }
  }

  /** "Hh Mm" reads back as H hours and M minutes. */
  lemma HoursMinutesRoundTrip(m: int)
    requires m >= 60 && m % 60 != 0
    ensures ParseMinutes(FormatMinutes(m)) == m
  {
    var s := FormatMinutes(m);
    var n := |s|;
    var h, r := NatToString(m / 60), NatToString(m % 60);
    assert s == h + "h " + r + "m";
    assert s[n - 1] == 'm';
    NoLetterInDigits(h, 'h');
    assert s[|h|] == 'h' && s[..|h|] == h;
    IndexOfAt(s, 'h', |h|);
    assert s[|h| + 2..n - 1] == r;
    ParseNatToString(m / 60);
    ParseNatToString(m % 60);
  }

  /** Different durations are worded differently. */
  lemma FormatMinutesInjective(a: int, b: int)
    ensures FormatMinutes(a) == FormatMinutes(b) ==> a == b
  {
    FormatMinutesRoundTrip(a);
    FormatMinutesRoundTrip(b);
  }

  /**
   * The wording of a stored duration in milliseconds, or `None` when it is not
   * a whole number of minutes (the printing of fractional numbers is not
   * modelled).
   */
  function FormattedDuration(durationMs: real): (r: Option<string>)
    ensures r.Some? <==> (durationMs / 60000.0).Floor as real == durationMs / 60000.0
    ensures r.Some? ==> ParseMinutes(r.value) as real * 60000.0 == durationMs
  {
    var minutes := durationMs / 60000.0;
    var m := minutes.Floor;
    if m as real == minutes then
      FormatMinutesRoundTrip(m);
      Some(FormatMinutes(m))
    else None
  }

  // -------------------------------------------------------------- import

  /** A parsed JSON value. Arrays are modelled only when all their items are strings. */
  datatype Json =
    | JNull
    | JBool(b: bool)
    | JNumber(n: real)
    | JString(str: string)
    | JStringArray(items: seq<string>)
    | JObject(fields: seq<(string, Json)>)

  /** The value of the last member named `key`, as `JSON.parse` keeps the last duplicate. */
  function LastMember(fields: seq<(string, Json)>, key: string): (r: Option<Json>)
    ensures r.None? <==> forall i :: 0 <= i < |fields| ==> fields[i].0 != key
    ensures r.Some? ==> exists i :: 0 <= i < |fields| && fields[i] == (key, r.value) &&
                          forall j :: i < j < |fields| ==> fields[j].0 != key
  {
    if fields == [] then None
    else if fields[|fields| - 1].0 == key then Some(fields[|fields| - 1].1)
    else LastMember(fields[..|fields| - 1], key)
  }

  /** `value.key` on a non-null value: absent (`undefined`) unless `value` is an object with that member. */
  function Member(value: Json, key: string): Option<Json>
  {
    if value.JObject? then LastMember(value.fields, key) else None
  }

  datatype ImportError = InvalidSettingsFormat

  datatype ImportResult = Imported(prefs: UserPreferences) | Rejected(error: ImportError)

  function ThemeOf(v: Option<Json>): Theme
  {
    if v == Some(JString("light")) then Light
    else if v == Some(JString("dark")) then Dark
    else if v == Some(JString("auto")) then Auto
    else DEFAULT_PREFERENCES.theme
  }

  function NumberOr(v: Option<Json>, default: real): real
  {
    if v.Some? && v.value.JNumber? then v.value.n else default
  }

  function BoolOr(v: Option<Json>, default: bool): bool
  {
    if v.Some? && v.value.JBool? then v.value.b else default
  }

  function ArrayOr(v: Option<Json>, default: seq<string>): seq<string>
  {
    if v.Some? && v.value.JStringArray? then v.value.items else default
  }

  /**
   * The field validation of `importSettings` on the parsed text (`None` when
   * the text is not JSON). A `null` document is rejected, because reading a
   * member of `null` throws; any other value yields preferences in which each
   * missing or mistyped field takes its default.
   */
  function ValidateImport(parsed: Option<Json>): (r: ImportResult)
    ensures r.Rejected? <==> parsed.None? || parsed == Some(JNull)
    ensures r.Imported? ==> 0.0 <= r.prefs.masterVolume <= 1.0
  {
    match parsed
    case None => Rejected(InvalidSettingsFormat)
    case Some(v) =>
      if v.JNull? then Rejected(InvalidSettingsFormat)
      else Imported(UserPreferences(
        ThemeOf(Member(v, "theme")),
        NumberOr(Member(v, "defaultTimerDuration"), DEFAULT_PREFERENCES.defaultTimerDuration),
        BoolOr(Member(v, "autoPlay"), DEFAULT_PREFERENCES.autoPlay),
        BoolOr(Member(v, "notifications"), DEFAULT_PREFERENCES.notifications),
        if Member(v, "masterVolume").Some? && Member(v, "masterVolume").value.JNumber?
        then Clamp01(Member(v, "masterVolume").value.n) else DEFAULT_PREFERENCES.masterVolume,
        ArrayOr(Member(v, "favoritesSoundIds"), DEFAULT_PREFERENCES.favoritesSoundIds),
        ArrayOr(Member(v, "favoritesMixIds"), DEFAULT_PREFERENCES.favoritesMixIds)))
  }

  /** The theme is taken only from the three exact names; anything else is the default. */
  lemma ImportTheme(v: Json)
    requires !v.JNull?
    ensures var p := ValidateImport(Some(v)).prefs;
            (p.theme == Light <==> Member(v, "theme") == Some(JString("light"))) &&
            (p.theme == Dark <==> Member(v, "theme") == Some(JString("dark"))) &&
            (p.theme == Auto <==> Member(v, "theme") !in {Some(JString("light")), Some(JString("dark"))})
  {
  }

  /** A document that is not an object imports as exactly the defaults. */
  lemma ImportNonObject(v: Json)
    requires !v.JNull? && !v.JObject?
    ensures ValidateImport(Some(v)) == Imported(DEFAULT_PREFERENCES)
  {
  }

  /** Every field whose member is missing or of the wrong type falls back to its default. */
  lemma ImportFallsBack(v: Json)
    requires !v.JNull?
    ensures var p := ValidateImport(Some(v)).prefs;
            (Member(v, "defaultTimerDuration").None? || !Member(v, "defaultTimerDuration").value.JNumber? ==>
               p.defaultTimerDuration == DEFAULT_PREFERENCES.defaultTimerDuration) &&
            (Member(v, "autoPlay").None? || !Member(v, "autoPlay").value.JBool? ==>
               p.autoPlay == DEFAULT_PREFERENCES.autoPlay) &&
            (Member(v, "notifications").None? || !Member(v, "notifications").value.JBool? ==>
               p.notifications == DEFAULT_PREFERENCES.notifications) &&
            (Member(v, "masterVolume").None? || !Member(v, "masterVolume").value.JNumber? ==>
               p.masterVolume == DEFAULT_PREFERENCES.masterVolume) &&
            (Member(v, "favoritesSoundIds").None? || !Member(v, "favoritesSoundIds").value.JStringArray? ==>
               p.favoritesSoundIds == []) &&
            (Member(v, "favoritesMixIds").None? || !Member(v, "favoritesMixIds").value.JStringArray? ==>
               p.favoritesMixIds == [])
  {
  }

  function ThemeName(t: Theme): string
  {
    match t
    case Light => "light"
    case Dark => "dark"
    case Auto => "auto"
  }

  /** The object `exportSettings` writes out, before it is turned into text. */
  function ExportObject(p: UserPreferences): Json
  {
    JObject([
      ("theme", JString(ThemeName(p.theme))),
      ("defaultTimerDuration", JNumber(p.defaultTimerDuration)),
      ("autoPlay", JBool(p.autoPlay)),
      ("notifications", JBool(p.notifications)),
      ("masterVolume", JNumber(p.masterVolume)),
      ("favoritesSoundIds", JStringArray(p.favoritesSoundIds)),
      ("favoritesMixIds", JStringArray(p.favoritesMixIds))])
  }

  /** In a member list with distinct names, each member is found under its own name. */
  lemma {:induction false} LastMemberDistinct(fields: seq<(string, Json)>, k: nat)
    requires k < |fields|
    requires forall i, j :: 0 <= i < j < |fields| ==> fields[i].0 != fields[j].0
    ensures LastMember(fields, fields[k].0) == Some(fields[k].1)
  {
    if k < |fields| - 1 {
      LastMemberDistinct(fields[..|fields| - 1], k);
    }
  }

  lemma ExportKeysDistinct(p: UserPreferences)
    ensures var f := ExportObject(p).fields;
            forall i, j :: 0 <= i < j < |f| ==> f[i].0 != f[j].0
  {
    var f := ExportObject(p).fields;
    forall i, j | 0 <= i < j < |f| ensures f[i].0 != f[j].0 {
      ShortKeyDistinct(f[i].0, f[j].0);
    }
  }

  /** Each preference is exported under its own name. */
  lemma ExportMembers(p: UserPreferences)
    ensures Member(ExportObject(p), "theme") == Some(JString(ThemeName(p.theme)))
    ensures Member(ExportObject(p), "defaultTimerDuration") == Some(JNumber(p.defaultTimerDuration))
    ensures Member(ExportObject(p), "autoPlay") == Some(JBool(p.autoPlay))
    ensures Member(ExportObject(p), "notifications") == Some(JBool(p.notifications))
    ensures Member(ExportObject(p), "masterVolume") == Some(JNumber(p.masterVolume))
    ensures Member(ExportObject(p), "favoritesSoundIds") == Some(JStringArray(p.favoritesSoundIds))
    ensures Member(ExportObject(p), "favoritesMixIds") == Some(JStringArray(p.favoritesMixIds))
  {
    var f := ExportObject(p).fields;
    ExportKeysDistinct(p);
    LastMemberDistinct(f, 0);
    LastMemberDistinct(f, 1);
    LastMemberDistinct(f, 2);
    LastMemberDistinct(f, 3);
    LastMemberDistinct(f, 4);
    LastMemberDistinct(f, 5);
    LastMemberDistinct(f, 6);
  }

  /** A theme's name is read back as that theme. */
  lemma ThemeNameRoundTrip(t: Theme)
    ensures ThemeOf(Some(JString(ThemeName(t)))) == t
  {
    ShortKeyDistinct("light", "dark");
    ShortKeyDistinct("light", "auto");
    ShortKeyDistinct("dark", "auto");
  }

  /**
   * Importing what was exported gives back the same preferences, provided the
   * master volume was in range (an out-of-range volume comes back clamped).
   */
  lemma ExportImportRoundTrip(p: UserPreferences)
    ensures ValidateImport(Some(ExportObject(p))) == Imported(p.(masterVolume := Clamp01(p.masterVolume)))
    ensures 0.0 <= p.masterVolume <= 1.0 ==> ValidateImport(Some(ExportObject(p))) == Imported(p)
  {
    ExportMembers(p);
    ThemeNameRoundTrip(p.theme);
  }

  // ------------------------------------------------------------- service

  class SettingsService {
    var settings: UserPreferences
    var listeners: seq<ListenerId>
    /** Every callback invocation so far, oldest first. */
    ghost var deliveries: seq<Delivery<UserPreferences>>

    /** A fresh service: the defaults and no callbacks. */
    constructor ()
      ensures settings == DEFAULT_PREFERENCES && listeners == [] && deliveries == []
    {
      settings := DEFAULT_PREFERENCES;
      listeners := [];
      deliveries := [];
    }

    /** `getSettings()`: a copy of the preferences. */
    function GetSettings(): UserPreferences
      reads this
    {
      settings
    }

    /** `setTheme(t)`: changes the theme only, then notifies. */
    method SetTheme(theme: Theme)
      modifies this
      ensures settings == old(settings).(theme := theme)
      ensures listeners == old(listeners)
      ensures deliveries == old(deliveries) + Broadcast(listeners, settings)
    {
      settings := settings.(theme := theme);
      NotifyListeners();
    }

    /** `setDefaultTimerDuration(d)`: changes the duration only, unchecked, then notifies. */
    method SetDefaultTimerDuration(duration: real)
      modifies this
      ensures settings == old(settings).(defaultTimerDuration := duration)
      ensures listeners == old(listeners)
      ensures deliveries == old(deliveries) + Broadcast(listeners, settings)
    {
      settings := settings.(defaultTimerDuration := duration);
      NotifyListeners();
    }

    /** `setAutoPlay(b)`: changes auto-play only, then notifies. */
    method SetAutoPlay(autoPlay: bool)
      modifies this
      ensures settings == old(settings).(autoPlay := autoPlay)
      ensures listeners == old(listeners)
      ensures deliveries == old(deliveries) + Broadcast(listeners, settings)
    {
      settings := settings.(autoPlay := autoPlay);
      NotifyListeners();
    }

    /** `setNotifications(b)`: changes notifications only, then notifies. */
    method SetNotifications(notifications: bool)
      modifies this
      ensures settings == old(settings).(notifications := notifications)
      ensures listeners == old(listeners)
      ensures deliveries == old(deliveries) + Broadcast(listeners, settings)
    {
      settings := settings.(notifications := notifications);
      NotifyListeners();
    }

    /** `setMasterVolume(v)`: stores `v` clamped to [0, 1], then notifies. */
    method SetMasterVolume(volume: real)
      modifies this
      ensures settings == old(settings).(masterVolume := Clamp01(volume))
      ensures 0.0 <= settings.masterVolume <= 1.0
      ensures listeners == old(listeners)
      ensures deliveries == old(deliveries) + Broadcast(listeners, settings)
    {
      settings := settings.(masterVolume := Clamp01(volume));
      NotifyListeners();
    }

    /** `resetSettings()`: back to exactly the defaults, then notifies. */
    method ResetSettings()
      modifies this
      ensures settings == DEFAULT_PREFERENCES
      ensures listeners == old(listeners)
      ensures deliveries == old(deliveries) + Broadcast(listeners, DEFAULT_PREFERENCES)
    {
      settings := DEFAULT_PREFERENCES;
      NotifyListeners();
    }

    /** `updateSettings(u)`: overlays the supplied fields, unclamped, then notifies. */
    method UpdateSettings(updates: PreferencesUpdate)
      modifies this
      ensures settings == Overlay(old(settings), updates)
      ensures listeners == old(listeners)
      ensures deliveries == old(deliveries) + Broadcast(listeners, settings)
    {
      settings := Overlay(settings, updates);
      NotifyListeners();
    }

    /** `getFormattedTimerDuration()`, for whole-minute durations. */
    function GetFormattedTimerDuration(): Option<string>
      reads this
    {
      FormattedDuration(settings.defaultTimerDuration)
    }

    /**
     * `importSettings(text)` after parsing: a rejected document changes nothing
     * and reports the error; an accepted one replaces the preferences and notifies.
     */
    method ImportSettings(parsed: Option<Json>) returns (r: ImportResult)
      modifies this
      ensures r == ValidateImport(parsed)
      ensures r.Rejected? ==> settings == old(settings) && deliveries == old(deliveries)
      ensures r.Imported? ==> settings == r.prefs && deliveries == old(deliveries) + Broadcast(listeners, settings)
      ensures listeners == old(listeners)
    {
      r := ValidateImport(parsed);
      if r.Imported? {
        settings := r.prefs;
        NotifyListeners();
      }
    }

    /** `addListener(l)`: registers `l` and calls it at once with the current preferences. */
    method AddListener(l: ListenerId)
      modifies this`listeners, this`deliveries
      ensures listeners == old(listeners) + [l]
      ensures deliveries == old(deliveries) + [Delivery(l, settings)]
    {
      listeners := listeners + [l];
      deliveries := deliveries + [Delivery(l, settings)];
    }

    /** `removeListener(l)`: drops the first registration of `l`, if there is one. */
    method RemoveListener(l: ListenerId)
      modifies this`listeners
      ensures listeners == RemoveFirst(old(listeners), l)
    {
      listeners := RemoveFirst(listeners, l);
    }

    /** `notifyListeners()`: every callback receives a copy of the preferences. */
    method NotifyListeners()
      modifies this`deliveries
      ensures deliveries == old(deliveries) + Broadcast(listeners, settings)
    {
      deliveries := deliveries + Broadcast(listeners, settings);
    }
  }
}
