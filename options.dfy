/**
 * The plugin's five settings (inc/options.php): how they are read through
 * WordPress's option store, how a deployment constant overrides them, and how
 * the settings page sanitizes them before they are saved.
 */
module Options {
  import opened Php

  /**
   * What `get_option` can see during one request: the options stored in the
   * database and the PHP constants the deployment has defined.
   */
  datatype Site = Site(stored: map<string, Value>, constants: map<string, Value>)

  const LoginOption := "rfw_login"
  const LostpasswordOption := "rfw_lostpassword"
  const RegistrationOption := "rfw_registration"
  const SecretKeyOption := "rfw_secret_key"
  const SiteKeyOption := "rfw_site_key"

  /** The options whose `pre_option_` filter is UseConstantsWhenDefined. */
  const OverridableOptions: set<string> :=
    {LoginOption, LostpasswordOption, RegistrationOption, SecretKeyOption, SiteKeyOption}

  /**
   * The `pre_option_` filter: a value another filter already supplied stands;
   * otherwise the constant named by the upper-cased option name, when defined.
   * Returning false means "no short-circuit".
   */
  function UseConstantsWhenDefined(preOption: Value, option: string, constants: map<string, Value>): (r: Value)
    ensures preOption != False ==> r == preOption
    ensures preOption == False && Upper(option) !in constants ==> r == False
    ensures preOption == False && Upper(option) in constants ==> r == constants[Upper(option)]
  {
    if preOption != False then
      preOption
    else
      var constant := Upper(option);
      if constant !in constants then preOption else constants[constant]
  }

  /**
   * WordPress's `get_option($option)` for this plugin: the `pre_option_` filter
   * first (UseConstantsWhenDefined for the plugin's own options, nothing for
   * any other); a result other than false short-circuits; otherwise the stored
   * value, and false when nothing is stored.
   */
  function GetOption(site: Site, option: string): (r: Value)
    ensures option in OverridableOptions && Upper(option) in site.constants
            && site.constants[Upper(option)] != False
            ==> r == site.constants[Upper(option)]
    ensures (option !in OverridableOptions || Upper(option) !in site.constants
             || site.constants[Upper(option)] == False)
            ==> r == (if option in site.stored then site.stored[option] else False)
  {
    var pre := if option in OverridableOptions then UseConstantsWhenDefined(False, option, site.constants) else False;
    if pre != False then pre
    else if option in site.stored then site.stored[option]
    else False
  }

  /** A defined constant wins over whatever is stored, unless its value is false. */
  lemma ConstantOverridesStoredValue(site: Site, option: string, value: Value)
    requires option in OverridableOptions
    requires Upper(option) in site.constants && site.constants[Upper(option)] != False
    ensures GetOption(Site(site.stored[option := value], site.constants), option)
            == site.constants[Upper(option)]
  {
  }

  /**
   * A constant defined as false does not override: `get_option` reads a false
   * short-circuit value as "no short-circuit" and falls back to the stored value.
   */
  lemma FalseConstantDoesNotOverride(site: Site, option: string, value: Value)
    requires option in OverridableOptions
    requires Upper(option) in site.constants && site.constants[Upper(option)] == False
    ensures GetOption(Site(site.stored[option := value], site.constants), option) == value
  {
  }

  /** `get_boolean_option`: the option read through the boolean validation filter. */
  function GetBooleanOption(site: Site, option: string): (r: bool)
    ensures option !in site.stored && (option !in OverridableOptions || Upper(option) !in site.constants)
            ==> !r
    ensures option in site.stored && (option !in OverridableOptions || Upper(option) !in site.constants)
            ==> r == FilterValidateBoolean(site.stored[option])
  {
    FilterValidateBooleanOnCanonical();
    FilterValidateBoolean(GetOption(site, option))
  }

  predicate IsEnabledForLogin(site: Site) {
    GetBooleanOption(site, LoginOption)
  }

  predicate IsEnabledForLostpassword(site: Site) {
    GetBooleanOption(site, LostpasswordOption)
  }

  predicate IsEnabledForRegistration(site: Site) {
    GetBooleanOption(site, RegistrationOption)
  }

  /** Two sites that agree on one option and on its override constant read it alike. */
  lemma {:induction false} GetOptionReadsOnlyItsKey(site: Site, other: Site, option: string)
    requires (option in site.stored) == (option in other.stored)
    requires option in site.stored ==> site.stored[option] == other.stored[option]
    requires (Upper(option) in site.constants) == (Upper(option) in other.constants)
    requires Upper(option) in site.constants ==> site.constants[Upper(option)] == other.constants[Upper(option)]
    ensures GetOption(site, option) == GetOption(other, option)
  {
    if option in OverridableOptions && Upper(option) in site.constants {
      assert UseConstantsWhenDefined(False, option, site.constants)
          == UseConstantsWhenDefined(False, option, other.constants);
    }
  }

  /**
   * Each `is_enabled_for_*` flag reads its own option: storing any other
   * option, or defining a constant under any other name, leaves it as it was.
   */
  lemma FlagReadsOwnOption(site: Site, flag: string, option: string, value: Value, constant: string, constValue: Value)
    requires flag in {LoginOption, LostpasswordOption, RegistrationOption}
    requires option != flag && constant != Upper(flag)
    ensures GetBooleanOption(Site(site.stored[option := value], site.constants[constant := constValue]), flag)
            == GetBooleanOption(site, flag)
  {
    GetOptionReadsOnlyItsKey(site, Site(site.stored[option := value], site.constants[constant := constValue]), flag);
  }

  /**
   * `secret_key()`: the string form of the `RFW_SECRET_KEY` constant when it is
   * defined and not false, else of the stored option, and "" when neither is there.
   */
  function SecretKey(site: Site): (r: string)
    ensures SecretKeyOption !in site.stored && Upper(SecretKeyOption) !in site.constants ==> r == ""
    ensures Upper(SecretKeyOption) in site.constants && site.constants[Upper(SecretKeyOption)] != False
            ==> r == ToStr(site.constants[Upper(SecretKeyOption)])
    ensures SecretKeyOption in site.stored
            && (Upper(SecretKeyOption) !in site.constants || site.constants[Upper(SecretKeyOption)] == False)
            ==> r == ToStr(site.stored[SecretKeyOption])
  {
    ToStr(GetOption(site, SecretKeyOption))
  }

  /**
   * `site_key()`: the string form of the `RFW_SITE_KEY` constant when it is
   * defined and not false, else of the stored option, and "" when neither is there.
   */
  function SiteKey(site: Site): (r: string)
    ensures SiteKeyOption !in site.stored && Upper(SiteKeyOption) !in site.constants ==> r == ""
    ensures Upper(SiteKeyOption) in site.constants && site.constants[Upper(SiteKeyOption)] != False
            ==> r == ToStr(site.constants[Upper(SiteKeyOption)])
    ensures SiteKeyOption in site.stored
            && (Upper(SiteKeyOption) !in site.constants || site.constants[Upper(SiteKeyOption)] == False)
            ==> r == ToStr(site.stored[SiteKeyOption])
  {
    ToStr(GetOption(site, SiteKeyOption))
  }

  /**
   * `keys_set()`: both keys are truthy strings. PHP string truthiness makes
   * the key "0" count as unset, just like the empty key.
   */
  predicate KeysSet(site: Site)
    ensures KeysSet(site) <==>
      SecretKey(site) != "" && SecretKey(site) != "0" && SiteKey(site) != "" && SiteKey(site) != "0"
  {
    Truthy(Str(SecretKey(site))) && Truthy(Str(SiteKey(site)))
  }

  /** `sanitize_boolean`: the canonical stored form "1" or "0" of a submitted flag. */
  function SanitizeBoolean(value: Value): (r: string)
    ensures r == "1" || r == "0"
    ensures value == Bool(true) ==> r == "1"
    ensures value == Bool(false) ==> r == "0"
  {
    FilterValidateBooleanOnCanonical();
    if FilterValidateBoolean(value) then "1" else "0"
  }

  /** `sanitize_string`: the submitted value as a string, trimmed. */
  function SanitizeString(value: Value): (r: string)
    ensures r == [] || (!IsTrimSpace(r[0]) && !IsTrimSpace(r[|r| - 1]))
    ensures IsTrimAt(r, ToStr(value), LeadingCount(ToStr(value), IsTrimSpace), IsTrimSpace)
  {
    Trim(ToStr(value))
  }

  /** Reading a sanitized flag back through the boolean filter gives the flag the sanitizer saw. */
  lemma SanitizeBooleanRoundTrip(value: Value)
    ensures FilterValidateBoolean(Str(SanitizeBoolean(value))) == FilterValidateBoolean(value)
    ensures SanitizeBoolean(Str(SanitizeBoolean(value))) == SanitizeBoolean(value)
  {
    FilterValidateBooleanOnCanonical();
  }

  /** A flag saved through the sanitizer reads back, through `get_boolean_option`, as the submitted flag. */
  lemma SavedFlagReadsBack(site: Site, flag: string, value: Value)
    requires flag in {LoginOption, LostpasswordOption, RegistrationOption}
    requires Upper(flag) !in site.constants
    ensures GetBooleanOption(Site(site.stored[flag := Str(SanitizeBoolean(value))], site.constants), flag)
            == FilterValidateBoolean(value)
  {
    SanitizeBooleanRoundTrip(value);
  }

  /** Sanitizing a sanitized string changes nothing. */
  lemma SanitizeStringIdempotent(value: Value)
    ensures SanitizeString(Str(SanitizeString(value))) == SanitizeString(value)
  {
    TrimIdempotent(ToStr(value), IsTrimSpace);
  }

  /** null becomes "", " test " becomes "test" and the integer 1 becomes "1". */
  lemma SanitizeStringExamples()
    ensures SanitizeString(Null) == ""
    ensures SanitizeString(Str(" test ")) == "test"
    ensures SanitizeString(Int(1)) == "1"
  {
    assert IsTrimAt("test", " test ", 1, IsTrimSpace);
    TrimUnique("test", " test ", 1, IsTrimSpace);
    assert ToStr(Int(1)) == "1";
    assert IsTrimAt("1", "1", 0, IsTrimSpace);
    TrimUnique("1", "1", 0, IsTrimSpace);
  }

  /**
   * Without override constants for the keys, the keys are set exactly when
   * both stored keys are truthy scalars. Arrays are excluded: even the empty,
   * falsy array converts to the truthy string "Array".
   */
  lemma KeysSetFromStore(site: Site)
    requires Upper(SecretKeyOption) !in site.constants && Upper(SiteKeyOption) !in site.constants
    requires SecretKeyOption in site.stored ==> !site.stored[SecretKeyOption].Arr?
    requires SiteKeyOption in site.stored ==> !site.stored[SiteKeyOption].Arr?
    ensures KeysSet(site) <==>
      && SecretKeyOption in site.stored && Truthy(site.stored[SecretKeyOption])
      && SiteKeyOption in site.stored && Truthy(site.stored[SiteKeyOption])
  {
    StringCastKeepsTruthiness(GetOption(site, SecretKeyOption));
    StringCastKeepsTruthiness(GetOption(site, SiteKeyOption));
  }

  /** A site with nothing stored has no keys and no flag enabled. */
  lemma EmptySiteExamples()
    ensures var empty := Site(map[], map[]);
      !KeysSet(empty) && !IsEnabledForLogin(empty) && !IsEnabledForLostpassword(empty) && !IsEnabledForRegistration(empty)
  {
  }

  /** A site storing "test" as both keys and "1" as every flag. */
  const Configured := Site(map[SecretKeyOption := Str("test"), SiteKeyOption := Str("test"),
                               LoginOption := Str("1"), LostpasswordOption := Str("1"),
                               RegistrationOption := Str("1")], map[])

  /** Storing "test" as both keys sets the keys. */
  lemma ConfiguredSiteHasKeys()
    ensures KeysSet(Configured)
  {
    assert GetOption(Configured, SecretKeyOption) == Str("test");
    assert GetOption(Configured, SiteKeyOption) == Str("test");
  }

  /** Storing "1" as every flag enables every flow. */
  lemma ConfiguredSiteEnablesFlows()
    ensures IsEnabledForLogin(Configured) && IsEnabledForLostpassword(Configured)
    ensures IsEnabledForRegistration(Configured)
  {
    FilterValidateBooleanOnCanonical();
    assert GetOption(Configured, LoginOption) == Str("1");
    assert GetOption(Configured, LostpasswordOption) == Str("1");
    assert GetOption(Configured, RegistrationOption) == Str("1");
  }
}
