/**
 * The watch settings: the option enums with their stored names, the
 * defaults, the decoding of the preference store, and its writers. The
 * preference store is a record of optional values, one per key.
 */
module WatchSettings {
  import opened Wrappers

  datatype TextSize = Small | Medium | Large
  datatype AccentColor = Green | Blue | Purple | Red | Orange | Pink
  datatype WatchType = Digital | Analog
  datatype ComplicationFeature = Settings | AllMeds | History | Maintenance | Emergency | Vitals | Upcoming

  function TextSizeName(t: TextSize): string {
    match t
    case Small => "SMALL"
    case Medium => "MEDIUM"
    case Large => "LARGE"
  }

  /** `TextSize.valueOf`, which fails on any other name. */
  function TextSizeFromName(s: string): (r: Option<TextSize>)
    ensures r.Some? ==> TextSizeName(r.value) == s
    ensures forall t :: TextSizeName(t) == s ==> r == Some(t)
  {
    if s == "SMALL" then Some(Small) else if s == "MEDIUM" then Some(Medium) else if s == "LARGE" then Some(Large) else None
  }

  function AccentColorName(a: AccentColor): string {
    match a
    case Green => "GREEN"
    case Blue => "BLUE"
    case Purple => "PURPLE"
    case Red => "RED"
    case Orange => "ORANGE"
    case Pink => "PINK"
  }

  function AccentColorFromName(s: string): (r: Option<AccentColor>)
    ensures r.Some? ==> AccentColorName(r.value) == s
    ensures forall a :: AccentColorName(a) == s ==> r == Some(a)
  {
    if s == "GREEN" then Some(Green) else if s == "BLUE" then Some(Blue) else if s == "PURPLE" then Some(Purple)
    else if s == "RED" then Some(Red) else if s == "ORANGE" then Some(Orange) else if s == "PINK" then Some(Pink)
    else None
  }

  function WatchTypeName(w: WatchType): string {
    match w
    case Digital => "DIGITAL"
    case Analog => "ANALOG"
  }

  function WatchTypeFromName(s: string): (r: Option<WatchType>)
    ensures r.Some? ==> WatchTypeName(r.value) == s
    ensures forall w :: WatchTypeName(w) == s ==> r == Some(w)
  {
    if s == "DIGITAL" then Some(Digital) else if s == "ANALOG" then Some(Analog) else None
  }

  function FeatureName(f: ComplicationFeature): string {
    match f
    case Settings => "SETTINGS"
    case AllMeds => "ALL_MEDS"
    case History => "HISTORY"
    case Maintenance => "MAINTENANCE"
    case Emergency => "EMERGENCY"
    case Vitals => "VITALS"
    case Upcoming => "UPCOMING"
  }

  function FeatureFromName(s: string): (r: Option<ComplicationFeature>)
    ensures r.Some? ==> FeatureName(r.value) == s
    ensures forall f :: FeatureName(f) == s ==> r == Some(f)
  {
    if s == "SETTINGS" then Some(Settings) else if s == "ALL_MEDS" then Some(AllMeds)
    else if s == "HISTORY" then Some(History) else if s == "MAINTENANCE" then Some(Maintenance)
    else if s == "EMERGENCY" then Some(Emergency) else if s == "VITALS" then Some(Vitals)
    else if s == "UPCOMING" then Some(Upcoming) else None
  }

  /** Only Settings and All Meds are always enabled. */
  predicate IsAlwaysEnabled(f: ComplicationFeature) {
    f == Settings || f == AllMeds
  }

  const AlwaysEnabled: set<ComplicationFeature> := {Settings, AllMeds}

  /** `ComplicationFeature.values()`, in declaration order. */
  const FeatureOrder: seq<ComplicationFeature> := [Settings, AllMeds, History, Maintenance, Emergency, Vitals, Upcoming]

  const AllFeatures: set<ComplicationFeature> := {Settings, AllMeds, History, Maintenance, Emergency, Vitals, Upcoming}

  lemma AlwaysEnabledIsExactlyTwo(f: ComplicationFeature)
    ensures IsAlwaysEnabled(f) <==> f in AlwaysEnabled
    ensures f in AllFeatures && f in FeatureOrder
  {
  }

  datatype AppSettings = AppSettings(textSize: TextSize, accentColor: AccentColor, watchType: WatchType,
                                     isDarkMode: bool, enabledComplications: set<ComplicationFeature>)

  /** `AppSettings()`: medium text, green accent, digital face, light mode, every complication. */
  const DefaultSettings: AppSettings := AppSettings(Medium, Green, Digital, false, AllFeatures)

  /** The preference store: one optional value per key. */
  datatype Preferences = Preferences(textSize: Option<string>, accentColor: Option<string>, watchType: Option<string>,
                                     darkMode: Option<bool>, enabledComplications: Option<set<string>>)

  const EmptyPreferences: Preferences := Preferences(None, None, None, None, None)

  /** The three single-name keys, when present, hold names of their enums (others make decoding throw). */
  predicate ValidNames(p: Preferences) {
    (p.textSize.Some? ==> TextSizeFromName(p.textSize.value).Some?) &&
    (p.accentColor.Some? ==> AccentColorFromName(p.accentColor.value).Some?) &&
    (p.watchType.Some? ==> WatchTypeFromName(p.watchType.value).Some?)
  }

  /** The features named in a stored set; unknown names are dropped one by one. */
  function FeaturesOf(names: set<string>): (r: set<ComplicationFeature>)
    ensures forall f :: f in r <==> FeatureName(f) in names
  {
    set n | n in names && FeatureFromName(n).Some? :: FeatureFromName(n).value
  }

  /** The complications key: absent means every feature. */
  function DecodeComplications(stored: Option<set<string>>): (r: set<ComplicationFeature>)
    ensures stored.None? ==> r == AllFeatures
    ensures stored.Some? ==> forall f :: f in r <==> FeatureName(f) in stored.value
  {
    if stored.None? then AllFeatures else FeaturesOf(stored.value)
  }

  function NamesOf(fs: set<ComplicationFeature>): (r: set<string>)
    ensures forall f :: FeatureName(f) in r <==> f in fs
    ensures forall n :: n in r ==> FeatureFromName(n).Some?
  {
    set f | f in fs :: FeatureName(f)
  }

  /** Writing a set's names and reading them back gives the set. */
  lemma NamesRoundTrip(fs: set<ComplicationFeature>)
    ensures DecodeComplications(Some(NamesOf(fs))) == fs
  {
  }

  /** `settingsFlow`'s mapping: each missing key takes its default. */
  function Decode(p: Preferences): (s: AppSettings)
    requires ValidNames(p)
    ensures p.textSize.None? ==> s.textSize == Medium
    ensures p.accentColor.None? ==> s.accentColor == Green
    ensures p.watchType.None? ==> s.watchType == Digital
    ensures p.darkMode.None? ==> !s.isDarkMode
    ensures p.enabledComplications.None? ==> s.enabledComplications == AllFeatures
    ensures p.textSize.Some? ==> TextSizeName(s.textSize) == p.textSize.value
    ensures p.accentColor.Some? ==> AccentColorName(s.accentColor) == p.accentColor.value
    ensures p.watchType.Some? ==> WatchTypeName(s.watchType) == p.watchType.value
    ensures p.darkMode.Some? ==> s.isDarkMode == p.darkMode.value
    ensures p.enabledComplications.Some? ==>
      forall f :: f in s.enabledComplications <==> FeatureName(f) in p.enabledComplications.value
  {
    AppSettings(
      TextSizeFromName(p.textSize.GetOr(TextSizeName(Medium))).value,
      AccentColorFromName(p.accentColor.GetOr(AccentColorName(Green))).value,
      WatchTypeFromName(p.watchType.GetOr(WatchTypeName(Digital))).value,
      p.darkMode.GetOr(false),
      DecodeComplications(p.enabledComplications))
  }

  /** An empty store reads as the defaults. */
  lemma EmptyIsDefault()
    ensures Decode(EmptyPreferences) == DefaultSettings
  {
  }

  /** `toggleComplication`'s new set: the feature added or removed, then both always-enabled ones added. */
  function ToggledSet(current: set<ComplicationFeature>, f: ComplicationFeature, enabled: bool): (r: set<ComplicationFeature>)
    ensures AlwaysEnabled <= r
    ensures !IsAlwaysEnabled(f) ==> (f in r <==> enabled)
    ensures forall g :: g != f && !IsAlwaysEnabled(g) ==> (g in r <==> g in current)
  {
    (if enabled then current + {f} else current - {f}) + AlwaysEnabled
  }

  /** Repeating a toggle changes nothing more. */
  lemma ToggleIdempotent(current: set<ComplicationFeature>, f: ComplicationFeature, enabled: bool)
    ensures ToggledSet(ToggledSet(current, f, enabled), f, enabled) == ToggledSet(current, f, enabled)
  {
  }

  class SettingsRepository {
    var preferences: Preferences

    predicate Valid()
      reads this
    {
      ValidNames(preferences)
    }

    constructor(stored: Preferences)
      requires ValidNames(stored)
      ensures preferences == stored && Valid()
    {
      preferences := stored;
    }

    /** The settings the store currently decodes to. */
    function CurrentSettings(): (s: AppSettings)
      requires Valid()
      reads this
      ensures preferences == EmptyPreferences ==> s == DefaultSettings
      ensures preferences.enabledComplications.None? ==> s.enabledComplications == AllFeatures
      ensures preferences.textSize.Some? ==> TextSizeName(s.textSize) == preferences.textSize.value
    {
      EmptyIsDefault();
      Decode(preferences)
    }

    method UpdateTextSize(t: TextSize)
      requires Valid()
      modifies this
      ensures Valid()
      ensures preferences == old(preferences).(textSize := Some(TextSizeName(t)))
      ensures CurrentSettings() == old(CurrentSettings()).(textSize := t)
    {
      preferences := preferences.(textSize := Some(TextSizeName(t)));
    }

    method UpdateAccentColor(a: AccentColor)
      requires Valid()
      modifies this
      ensures Valid()
      ensures preferences == old(preferences).(accentColor := Some(AccentColorName(a)))
      ensures CurrentSettings() == old(CurrentSettings()).(accentColor := a)
    {
      preferences := preferences.(accentColor := Some(AccentColorName(a)));
    }

    method UpdateWatchType(w: WatchType)
      requires Valid()
      modifies this
      ensures Valid()
      ensures preferences == old(preferences).(watchType := Some(WatchTypeName(w)))
      ensures CurrentSettings() == old(CurrentSettings()).(watchType := w)
    {
      preferences := preferences.(watchType := Some(WatchTypeName(w)));
    }

    method UpdateDarkMode(isDarkMode: bool)
      requires Valid()
      modifies this
      ensures Valid()
      ensures preferences == old(preferences).(darkMode := Some(isDarkMode))
      ensures CurrentSettings() == old(CurrentSettings()).(isDarkMode := isDarkMode)
    {
      preferences := preferences.(darkMode := Some(isDarkMode));
    }

    /** Stores the set with Settings and All Meds added. */
    method UpdateEnabledComplications(complications: set<ComplicationFeature>)
      requires Valid()
      modifies this
      ensures Valid()
      ensures preferences == old(preferences).(enabledComplications := Some(NamesOf(complications + AlwaysEnabled)))
      ensures CurrentSettings() == old(CurrentSettings()).(enabledComplications := complications + AlwaysEnabled)
    {
      var finalComplications := complications + {Settings} + {AllMeds};
      assert finalComplications == complications + AlwaysEnabled;
      preferences := preferences.(enabledComplications := Some(NamesOf(finalComplications)));
      NamesRoundTrip(finalComplications);
    }

    /**
     * Turns one feature on or off; an always-enabled feature is left alone.
     * The stored set is read (all features when absent), changed, completed
     * with Settings and All Meds, and written back.
     */
    method ToggleComplication(f: ComplicationFeature, enabled: bool)
      requires Valid()
      modifies this
      ensures Valid()
      ensures IsAlwaysEnabled(f) ==> preferences == old(preferences)
      ensures !IsAlwaysEnabled(f) ==>
                (preferences == old(preferences).(enabledComplications :=
                   Some(NamesOf(ToggledSet(DecodeComplications(old(preferences).enabledComplications), f, enabled)))))
      ensures !IsAlwaysEnabled(f) ==>
                (CurrentSettings().enabledComplications == ToggledSet(old(CurrentSettings()).enabledComplications, f, enabled))
    {
      if IsAlwaysEnabled(f) {
        return;
      }
      var current := DecodeComplications(preferences.enabledComplications);
      if enabled {
        current := current + {f};
      } else {
        current := current - {f};
      }
      current := current + {Settings};
      current := current + {AllMeds};
      assert current == ToggledSet(DecodeComplications(old(preferences).enabledComplications), f, enabled);
      preferences := preferences.(enabledComplications := Some(NamesOf(current)));
      NamesRoundTrip(current);
    }
  }
}
