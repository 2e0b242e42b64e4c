/**
  Theme settings of src/context/ThemeContext.tsx: a theme name and a map of
  CSS-variable overrides, loaded from local storage with fallbacks, applied as the
  theme's base variables merged with the overrides, and changed by three setters.

  The base variables of each theme are a parameter (their values are data, not
  behaviour); only the three theme names matter here.
*/
module ThemeContext {
  import opened Wrappers
  import opened JsText

  /** `ThemeName` of src/theme/themes.ts. */
  datatype ThemeName = Default | Pacific | Sunset

  type Variables = map<string, string>

  /** `StoredThemeSettings`: the state the provider holds. */
  datatype Settings = Settings(theme: ThemeName, overrides: Variables)

  /**
    What `JSON.parse` produced from the stored text, for a value whose `theme`
    and `overrides` can be read: the theme as a string when it is one, and the
    overrides when they are truthy.
  */
  datatype StoredValue = StoredValue(theme: Option<string>, overrides: Option<Variables>)

  /** The key of each theme in the `themes` record. */
  function KeyOf(t: ThemeName): string {
    match t
    case Default => "default"
    case Pacific => "pacific"
    case Sunset => "sunset"
  }

  /** `themes[key]` is defined exactly for the three keys. */
  function ThemeOf(key: string): (r: Option<ThemeName>)
    ensures r.Some? <==> key == "default" || key == "pacific" || key == "sunset"
    ensures r.Some? ==> KeyOf(r.value) == key
  {
    if key == "default" then Some(Default)
    else if key == "pacific" then Some(Pacific)
    else if key == "sunset" then Some(Sunset)
    else None
  }

  /** Every theme is found again under its own key. */
  lemma KeyRoundTrip(t: ThemeName)
    ensures ThemeOf(KeyOf(t)) == Some(t)
  {
    match t
    case Default =>
    case Pacific => assert KeyOf(t) != "default";
    case Sunset => assert KeyOf(t) != "default" && KeyOf(t) != "pacific";
  }

  const Defaults: Settings := Settings(Default, map[])

  /**
    `loadSettings`: `raw` is the stored text, and `parse` yields `None` when
    parsing throws (malformed text, or a `null` whose fields cannot be read).
    Nothing stored, a parse failure and an unknown theme all give the defaults;
    otherwise the theme is kept with its overrides, or none when they are falsy.
  */
  function LoadSettings(raw: Option<string>, parse: string -> Option<StoredValue>): (r: Settings)
    ensures !Truthy(raw) ==> r == Defaults
    ensures Truthy(raw) && parse(raw.value).None? ==> r == Defaults
    ensures Truthy(raw) && parse(raw.value).Some? ==>
      var v := parse(raw.value).value;
      (v.theme.None? || ThemeOf(v.theme.value).None? ==> r == Defaults)
      && (v.theme.Some? && ThemeOf(v.theme.value).Some? ==>
            KeyOf(r.theme) == v.theme.value && r.overrides == v.overrides.GetOr(map[]))
  {
    if !Truthy(raw) then Defaults
    else
      match parse(raw.value)
      case None => Defaults
      case Some(v) =>
        if v.theme.None? then Defaults
        else
          match ThemeOf(v.theme.value)
          case None => Defaults
          case Some(t) => Settings(t, v.overrides.GetOr(map[]))
  }

  /** `{ ...base, ...overrides }`: right-biased union. */
  function Merge(base: Variables, overrides: Variables): (r: Variables)
    ensures r.Keys == base.Keys + overrides.Keys
    ensures forall k :: k in overrides ==> r[k] == overrides[k]
    ensures forall k :: k in base && k !in overrides ==> r[k] == base[k]
  {
    map k | k in base.Keys + overrides.Keys :: if k in overrides then overrides[k] else base[k]
  }

  /** The variables `applyTheme` hands to the document for the current settings. */
  function Applied(s: Settings, palette: ThemeName -> Variables): Variables {
    Merge(palette(s.theme), s.overrides)
  }

  /** `setTheme`: the theme changes, the overrides stay. */
  function SetTheme(s: Settings, name: ThemeName): (r: Settings)
    ensures r.theme == name && r.overrides == s.overrides
  {
    s.(theme := name)
  }

  /** `updateOverride`: one token set, every other override unchanged. */
  function UpdateOverride(s: Settings, token: string, value: string): (r: Settings)
    ensures r.theme == s.theme
    ensures token in r.overrides && r.overrides[token] == value
    ensures r.overrides.Keys == s.overrides.Keys + {token}
    ensures forall k :: k in s.overrides && k != token ==> r.overrides[k] == s.overrides[k]
  {
    s.(overrides := s.overrides[token := value])
  }

  /** `resetOverrides`: the overrides are emptied and the theme stays. */
  function ResetOverrides(s: Settings): (r: Settings)
    ensures r.theme == s.theme && r.overrides == map[]
  {
    s.(overrides := map[])
  }

  /** Merging nothing over a palette gives the palette back. */
  lemma MergeEmpty(base: Variables)
    ensures Merge(base, map[]) == base
  {
    var m := Merge(base, map[]);
    assert m.Keys == base.Keys;
    assert forall k :: k in m ==> m[k] == base[k];
  }

  /** After a reset the applied variables are exactly the theme's own. */
  lemma ResetAppliesBase(s: Settings, palette: ThemeName -> Variables)
    ensures Applied(ResetOverrides(s), palette) == palette(s.theme)
  {
    MergeEmpty(palette(s.theme));
  }

  /** An update shows in the applied variables and hides nothing else. */
  lemma UpdateApplied(s: Settings, palette: ThemeName -> Variables, token: string, value: string)
    ensures var applied := Applied(UpdateOverride(s, token, value), palette);
      token in applied && applied[token] == value
      && forall k :: k in Applied(s, palette) && k != token ==> k in applied && applied[k] == Applied(s, palette)[k]
  {
  }

  /** Updating a token twice keeps only the second value; updating with the same value twice is one update. */
  lemma UpdateOverrideLastWins(s: Settings, token: string, first: string, second: string)
    ensures UpdateOverride(UpdateOverride(s, token, first), token, second) == UpdateOverride(s, token, second)
  {
    var a := UpdateOverride(UpdateOverride(s, token, first), token, second).overrides;
    var b := UpdateOverride(s, token, second).overrides;
    assert a.Keys == b.Keys;
    assert forall k :: k in a ==> a[k] == b[k];
  }

  /** Switching theme keeps the overrides on top of the new palette. */
  lemma SetThemeKeepsOverrides(s: Settings, palette: ThemeName -> Variables, name: ThemeName)
    ensures Applied(SetTheme(s, name), palette) == Merge(palette(name), s.overrides)
  {
  }
}
