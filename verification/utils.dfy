/** rust/src/api/utils.rs: the group-id string codec and the fixed string
    forms of the theme-mode and language settings. */
module Utils {
  import opened Wrappers
  import Hex
  import opened Errors
  import opened Whitenoise

  /** `group_id_to_string`: the lower-case base16 form of the id's bytes. */
  function GroupIdToString(groupId: GroupId): (s: string)
    ensures |s| == 2 * |groupId.bytes|
    ensures forall i :: 0 <= i < |s| ==> Hex.IsLowerHexDigit(s[i])
  {
    Hex.Encode(groupId.bytes)
  }

  /** `group_id_from_string`: decode, and on failure return the decoder's
      error and no id. */
  function GroupIdFromString(s: string): (r: Result<GroupId, ApiError>)
    ensures r.Success? <==> Hex.AllHex(s) && |s| % 2 == 0
    ensures r.Success? ==> 2 * |r.value.bytes| == |s| && Hex.Encode(r.value.bytes) == Hex.Lower(s)
    ensures r.Failure? ==> r.error.InvalidGroupId? && Hex.Decode(s) == Failure(r.error.cause)
  {
    Hex.DecodeSucceedsIff(s);
    match Hex.Decode(s)
    case Success(bytes) => Hex.EncodeDecode(s); Success(GroupId(bytes))
    case Failure(e) => Failure(InvalidGroupId(e))
  }

  /** Every group id survives the string round trip. */
  lemma GroupIdRoundTrip(groupId: GroupId)
    ensures GroupIdFromString(GroupIdToString(groupId)) == Success(groupId)
  {
    Hex.DecodeEncode(groupId.bytes);
  }

  /** Distinct ids have distinct strings. */
  lemma GroupIdToStringInjective(a: GroupId, b: GroupId)
    requires GroupIdToString(a) == GroupIdToString(b)
    ensures a == b
  {
    GroupIdRoundTrip(a);
    GroupIdRoundTrip(b);
  }

  // --- theme mode ---------------------------------------------------------

  function ThemeModeLight(): (t: ThemeMode) ensures t.Light? { Light }
  function ThemeModeDark(): (t: ThemeMode) ensures t.Dark? { Dark }
  function ThemeModeSystem(): (t: ThemeMode) ensures t.System? { System }

  function ThemeModeToString(themeMode: ThemeMode): (s: string)
    ensures s in {"light", "dark", "system"}
  {
    match themeMode
    case Light => "light"
    case Dark => "dark"
    case System => "system"
  }

  /** The string names the mode: the map is injective, and each constructor
      composed with it gives that constructor's own name. */
  lemma ThemeModeStrings(a: ThemeMode, b: ThemeMode)
    ensures ThemeModeToString(a) == ThemeModeToString(b) ==> a == b
    ensures ThemeModeToString(ThemeModeLight()) == "light"
    ensures ThemeModeToString(ThemeModeDark()) == "dark"
    ensures ThemeModeToString(ThemeModeSystem()) == "system"
  {
  }

  // --- language -----------------------------------------------------------

  function LanguageEnglish(): (l: Language) ensures l.English? { English }
  function LanguageSpanish(): (l: Language) ensures l.Spanish? { Spanish }
  function LanguageFrench(): (l: Language) ensures l.French? { French }
  function LanguageGerman(): (l: Language) ensures l.German? { German }
  function LanguageItalian(): (l: Language) ensures l.Italian? { Italian }
  function LanguagePortuguese(): (l: Language) ensures l.Portuguese? { Portuguese }
  function LanguageRussian(): (l: Language) ensures l.Russian? { Russian }
  function LanguageTurkish(): (l: Language) ensures l.Turkish? { Turkish }

  /** An ISO 639-1 code: two lower-case ASCII letters. */
  predicate IsIso639Code(s: string) {
    |s| == 2 && 'a' <= s[0] <= 'z' && 'a' <= s[1] <= 'z'
  }

  function LanguageToString(language: Language): (s: string)
    ensures IsIso639Code(s)
    ensures s in {"en", "es", "fr", "de", "it", "pt", "ru", "tr"}
  {
    match language
    case English => "en"
    case Spanish => "es"
    case French => "fr"
    case German => "de"
    case Italian => "it"
    case Portuguese => "pt"
    case Russian => "ru"
    case Turkish => "tr"
  }

  /** Distinct languages get distinct codes, and each constructor composed
      with `language_to_string` gives its own code. */
  lemma LanguageStrings(a: Language, b: Language)
    ensures LanguageToString(a) == LanguageToString(b) ==> a == b
    ensures LanguageToString(LanguageEnglish()) == "en"
    ensures LanguageToString(LanguageSpanish()) == "es"
    ensures LanguageToString(LanguageFrench()) == "fr"
    ensures LanguageToString(LanguageGerman()) == "de"
    ensures LanguageToString(LanguageItalian()) == "it"
    ensures LanguageToString(LanguagePortuguese()) == "pt"
    ensures LanguageToString(LanguageRussian()) == "ru"
    ensures LanguageToString(LanguageTurkish()) == "tr"
  {
  }
}
