/** The main process's persisted preferences (src/main/settings.ts): defaults,
    the overlay of the stored file on them, and the read-merge-write update.

    JavaScript's object spread `{...a, ...b}` is a right-biased union of the two
    objects' keys. `Entries` and `PresentEntries` give that key/value view of a
    record, and every overlay below is specified as a map union over it. */
module MainSettings {
  import opened Wrappers
  import opened Strings

  /** The languages the main process knows. */
  const SupportedLangs: seq<string> := ["en", "ko", "zh", "ja"]

  /** `AppSettings`. `language` is optional in the interface, but `DEFAULTS`
      always supplies one, so every record the module hands out carries it. */
  datatype AppSettings = AppSettings(
    closeToTray: bool,
    launchAtStartup: bool,
    alwaysOnTop: bool,
    language: string)

  /** `Partial<AppSettings>`: `None` is a key the object does not have. */
  datatype PartialSettings = PartialSettings(
    closeToTray: Option<bool>,
    launchAtStartup: Option<bool>,
    alwaysOnTop: Option<bool>,
    language: Option<string>)

  const NoChange: PartialSettings := PartialSettings(None, None, None, None)

  datatype Key = CloseToTray | LaunchAtStartup | AlwaysOnTop | Language
  datatype Value = Bool(b: bool) | Str(s: string)

  const AllKeys: set<Key> := {CloseToTray, LaunchAtStartup, AlwaysOnTop, Language}

  /** The settings object as its keys and values. */
  function Entries(s: AppSettings): (m: map<Key, Value>)
    ensures m.Keys == AllKeys
  {
    map[CloseToTray := Bool(s.closeToTray),
        LaunchAtStartup := Bool(s.launchAtStartup),
        AlwaysOnTop := Bool(s.alwaysOnTop),
        Language := Str(s.language)]
  }

  /** The keys a partial object actually has, with their values. */
  function PresentEntries(p: PartialSettings): (m: map<Key, Value>)
    ensures CloseToTray in m <==> p.closeToTray.Some?
    ensures LaunchAtStartup in m <==> p.launchAtStartup.Some?
    ensures AlwaysOnTop in m <==> p.alwaysOnTop.Some?
    ensures Language in m <==> p.language.Some?
  {
    var m0: map<Key, Value> := map[];
    var m1 := if p.closeToTray.Some? then m0[CloseToTray := Bool(p.closeToTray.value)] else m0;
    var m2 := if p.launchAtStartup.Some? then m1[LaunchAtStartup := Bool(p.launchAtStartup.value)] else m1;
    var m3 := if p.alwaysOnTop.Some? then m2[AlwaysOnTop := Bool(p.alwaysOnTop.value)] else m2;
    if p.language.Some? then m3[Language := Str(p.language.value)] else m3
  }

  /** Two settings records with the same keys and values are the same record. */
  lemma EntriesInjective(s: AppSettings, t: AppSettings)
    requires Entries(s) == Entries(t)
    ensures s == t
  {
    assert Entries(s)[CloseToTray] == Entries(t)[CloseToTray];
    assert Entries(s)[LaunchAtStartup] == Entries(t)[LaunchAtStartup];
    assert Entries(s)[AlwaysOnTop] == Entries(t)[AlwaysOnTop];
    assert Entries(s)[Language] == Entries(t)[Language];
  }

  /** `getDefaultLanguage`: the locale's part before the first `-`, if supported. */
  function GetDefaultLanguage(locale: string): (lang: string)
    ensures lang in SupportedLangs
    ensures BeforeFirst(locale, '-') in SupportedLangs ==> lang == BeforeFirst(locale, '-')
    ensures BeforeFirst(locale, '-') !in SupportedLangs ==> lang == "en"
  {
    var prefix := BeforeFirst(locale, '-');
    if prefix in SupportedLangs then prefix else "en"
  }

  lemma KoreanLocale()
    ensures GetDefaultLanguage("ko-KR") == "ko"
  {
    assert BeforeFirst("ko-KR", '-') == "ko";
  }

  lemma UnsupportedLocale()
    ensures GetDefaultLanguage("fr-FR") == "en"
  {
    assert BeforeFirst("fr-FR", '-') == "fr";
  }

  /** `DEFAULTS`, for the locale the OS reports. */
  function Defaults(locale: string): (d: AppSettings)
    ensures d.closeToTray && !d.launchAtStartup && !d.alwaysOnTop
    ensures d.language in SupportedLangs
  {
    AppSettings(true, false, false, GetDefaultLanguage(locale))
  }

  /** `{...base, ...p}`: every key `p` has wins, the others keep `base`'s value. */
  function Overlay(base: AppSettings, p: PartialSettings): (r: AppSettings)
    ensures Entries(r) == Entries(base) + PresentEntries(p)
  {
    var r := AppSettings(
      p.closeToTray.GetOr(base.closeToTray),
      p.launchAtStartup.GetOr(base.launchAtStartup),
      p.alwaysOnTop.GetOr(base.alwaysOnTop),
      p.language.GetOr(base.language));
    OverlayEntries(base, p, r);
    r
  }

  lemma OverlayEntries(base: AppSettings, p: PartialSettings, r: AppSettings)
    requires r.closeToTray == p.closeToTray.GetOr(base.closeToTray)
    requires r.launchAtStartup == p.launchAtStartup.GetOr(base.launchAtStartup)
    requires r.alwaysOnTop == p.alwaysOnTop.GetOr(base.alwaysOnTop)
    requires r.language == p.language.GetOr(base.language)
    ensures Entries(r) == Entries(base) + PresentEntries(p)
  {
    var u := Entries(base) + PresentEntries(p);
    assert Entries(r).Keys == u.Keys;
    forall k | k in u ensures Entries(r)[k] == u[k] {
      match k
      case CloseToTray =>
      case LaunchAtStartup =>
      case AlwaysOnTop =>
      case Language =>
    }
  }

  /** Keys present in the partial take its value; every other key is unchanged. */
  lemma OverlayKeywise(base: AppSettings, p: PartialSettings, k: Key)
    ensures k in PresentEntries(p) ==> Entries(Overlay(base, p))[k] == PresentEntries(p)[k]
    ensures k !in PresentEntries(p) ==> Entries(Overlay(base, p))[k] == Entries(base)[k]
  {
  }

  /** An empty partial changes nothing. */
  lemma OverlayNoChange(base: AppSettings)
    ensures Overlay(base, NoChange) == base
  {
    assert PresentEntries(NoChange) == map[];
    assert Entries(base) + map[] == Entries(base);
    EntriesInjective(Overlay(base, NoChange), base);
  }

  /** Applying the same partial twice is applying it once. */
  lemma OverlayIdempotent(base: AppSettings, p: PartialSettings)
    ensures Overlay(Overlay(base, p), p) == Overlay(base, p)
  {
    var once := Overlay(base, p);
    assert Entries(once) + PresentEntries(p) == Entries(once);
    EntriesInjective(Overlay(once, p), once);
  }

  /** What `JSON.stringify` of a full settings record writes: every key. */
  function Stored(s: AppSettings): (p: PartialSettings)
    ensures PresentEntries(p) == Entries(s)
  {
    var p := PartialSettings(Some(s.closeToTray), Some(s.launchAtStartup), Some(s.alwaysOnTop), Some(s.language));
    assert PresentEntries(p).Keys == Entries(s).Keys;
    p
  }

  /** `getSettings`: `{...DEFAULTS, ...parsed}`, or a copy of `DEFAULTS` when the
      file is missing or does not parse (`file == None`). */
  function GetSettings(locale: string, file: Option<PartialSettings>): (r: AppSettings)
    ensures file.None? ==> r == Defaults(locale)
    ensures file.Some? ==> Entries(r) == Entries(Defaults(locale)) + PresentEntries(file.value)
  {
    match file
    case None => Defaults(locale)
    case Some(parsed) => Overlay(Defaults(locale), parsed)
  }

  /** A record written by `updateSettings` reads back unchanged. */
  lemma ReadBack(locale: string, s: AppSettings)
    ensures GetSettings(locale, Some(Stored(s))) == s
  {
    assert Entries(Defaults(locale)) + Entries(s) == Entries(s);
    EntriesInjective(GetSettings(locale, Some(Stored(s))), s);
  }

  /** Two `updateSettings(p)` calls in a row leave what the first returned. */
  lemma UpdateIdempotent(locale: string, file: Option<PartialSettings>, p: PartialSettings)
    ensures var first := Overlay(GetSettings(locale, file), p);
            Overlay(GetSettings(locale, Some(Stored(first))), p) == first
  {
    var first := Overlay(GetSettings(locale, file), p);
    ReadBack(locale, first);
    OverlayIdempotent(GetSettings(locale, file), p);
  }

  /** `settings.json` under the user-data directory. `contents` is `None` when
      the file is missing or is not valid JSON. */
  class SettingsFile {
    /** What `app.getLocale()` reported when `DEFAULTS` was built. */
    const locale: string
    var contents: Option<PartialSettings>

    constructor (locale: string, contents: Option<PartialSettings>)
      ensures this.locale == locale && this.contents == contents
    {
      this.locale := locale;
      this.contents := contents;
    }

    /** `getSettings()` */
    method Read() returns (s: AppSettings)
      ensures s == GetSettings(locale, contents)
    {
      s := GetSettings(locale, contents);
    }

    /** `updateSettings(partial)`: read, merge, write the whole record, return it. */
    method UpdateSettings(partial: PartialSettings) returns (updated: AppSettings)
      modifies this
      ensures updated == Overlay(GetSettings(locale, old(contents)), partial)
      ensures contents == Some(Stored(updated))
      ensures GetSettings(locale, contents) == updated
    {
      var current := Read();
      updated := Overlay(current, partial);
      contents := Some(Stored(updated));
      ReadBack(locale, updated);
    }
  }
}
