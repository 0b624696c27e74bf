/** The one-time migration of the legacy flat settings into the versioned
    configuration record: `Execute` creates the record when it is missing
    and flags that cleanup is needed; `PostExecute` then removes the legacy
    keys and commits the settings store. */
module DatabaseInitialization {
  import opened DirectoryServices

  // The six legacy keys the migration reads and later removes.
  const AuthenticationModeKey: string := "Octopus.WebPortal.AuthenticationMode"
  const ActiveDirectoryContainerKey: string := "Octopus.WebPortal.ActiveDirectoryContainer"
  const AuthenticationSchemeKey: string := "Octopus.WebPortal.AuthenticationScheme"
  const AllowFormsAuthenticationKey: string := "Octopus.WebPortal.AllowFormsAuthenticationForDomainUsers"
  const ExternalSecurityGroupsDisabledKey: string := "Octopus.WebPortal.ExternalSecurityGroupsDisabled"
  const AllowAutoUserCreationKey: string := "Octopus.WebPortal.ActiveDirectoryAllowAutoUserCreation"

  const LegacyKeys: set<string> := {
    AuthenticationModeKey, ActiveDirectoryContainerKey, AuthenticationSchemeKey,
    AllowFormsAuthenticationKey, ExternalSecurityGroupsDisabledKey, AllowAutoUserCreationKey
  }

  /** The legacy authentication modes that meant "domain authentication on". */
  const LegacyModes: seq<string> := ["Domain", "1"]

  /** A typed value of the key/value settings store. */
  datatype SettingValue = Text(text: string) | Flag(flag: bool) | Scheme(scheme: AuthenticationScheme)

  // Typed reads with a default, as the settings store offers them.

  function GetText(settings: map<string, SettingValue>, key: string, default: string): string {
    if key in settings && settings[key].Text? then settings[key].text else default
  }

  function GetFlag(settings: map<string, SettingValue>, key: string, default: bool): bool {
    if key in settings && settings[key].Flag? then settings[key].flag else default
  }

  function GetScheme(settings: map<string, SettingValue>, key: string, default: AuthenticationScheme): AuthenticationScheme {
    if key in settings && settings[key].Scheme? then settings[key].scheme else default
  }

  /** `s` with every double-quote character removed. */
  function StripQuotes(s: string): (r: string)
    ensures forall c :: c in r <==> c in s && c != '"'
  {
    if s == [] then []
    else (if s[0] == '"' then [] else [s[0]]) + StripQuotes(s[1..])
  }

  function ToLowerAscii(c: char): char {
    if 'A' <= c <= 'Z' then (c as int - 'A' as int + 'a' as int) as char else c
  }

  function Lower(s: string): (r: string)
    ensures |r| == |s|
  {
    seq(|s|, i requires 0 <= i < |s| => ToLowerAscii(s[i]))
  }

  /** Equality up to ASCII letter case. */
  predicate EqualsIgnoreCase(a: string, b: string) {
    |a| == |b| && forall i :: 0 <= i < |a| ==> ToLowerAscii(a[i]) == ToLowerAscii(b[i])
  }

  /** Whether a legacy authentication mode enables the provider: some
      accepted mode equals it, quotes removed, up to letter case. */
  predicate IsLegacyModeEnabled(authenticationMode: string) {
    exists x :: x in LegacyModes && EqualsIgnoreCase(x, StripQuotes(authenticationMode))
  }

  /** The configuration record built from the legacy settings. */
  function MigratedConfiguration(settings: map<string, SettingValue>): DirectoryServicesConfiguration {
    var activeDirectoryContainer := GetText(settings, ActiveDirectoryContainerKey, "");
    var authenticationScheme := GetScheme(settings, AuthenticationSchemeKey, Ntlm);
    var allowFormsAuth := GetFlag(settings, AllowFormsAuthenticationKey, true);
    var areSecurityGroupsDisabled := GetFlag(settings, ExternalSecurityGroupsDisabledKey, false);
    var allowAutoUserCreation := GetFlag(settings, AllowAutoUserCreationKey, true);
    var authenticationMode := GetText(settings, AuthenticationModeKey, "");
    DirectoryServicesConfiguration(
      isEnabled := IsLegacyModeEnabled(authenticationMode),
      activeDirectoryContainer := activeDirectoryContainer,
      authenticationScheme := authenticationScheme,
      allowFormsAuthenticationForDomainUsers := allowFormsAuth,
      areSecurityGroupsEnabled := !areSecurityGroupsDisabled,
      allowAutoUserCreation := allowAutoUserCreation)
  }

  /** How a call of `Execute` ended. `CreateFailed` stands for the error
      that creating the record raises and that reaches the host. */
  datatype ExecuteOutcome = AlreadyMigrated | Migrated | CreateFailed

  /** The migrator together with the two stores it changes: the
      configuration documents by id and the legacy settings, whose
      committed copy is what `Save` last wrote. */
  class DatabaseInitializer {
    var configurationStore: map<string, DirectoryServicesConfiguration>
    var settings: map<string, SettingValue>
    var savedSettings: map<string, SettingValue>
    var saveCount: nat
    var cleanupRequired: bool

    /** Cleanup is only ever pending once the new record exists. */
    ghost predicate Valid()
      reads this
    {
      cleanupRequired ==> SingletonId in configurationStore
    }

    constructor (configurationStore: map<string, DirectoryServicesConfiguration>, settings: map<string, SettingValue>)
      ensures Valid()
      ensures this.configurationStore == configurationStore
      ensures this.settings == settings && savedSettings == settings && saveCount == 0
      ensures !cleanupRequired
    {
      this.configurationStore := configurationStore;
      this.settings := settings;
      this.savedSettings := settings;
      this.saveCount := 0;
      this.cleanupRequired := false;
    }

    /** Creates the configuration record from the legacy settings unless it
        exists already. `createFails` is the configuration store's answer
        to the creation. */
    method Execute(createFails: bool) returns (outcome: ExecuteOutcome)
      requires Valid()
      modifies this
      ensures Valid()
      ensures settings == old(settings) && savedSettings == old(savedSettings) && saveCount == old(saveCount)
      ensures SingletonId in old(configurationStore) ==>
        && outcome == AlreadyMigrated
        && configurationStore == old(configurationStore)
        && cleanupRequired == old(cleanupRequired)
      ensures SingletonId !in old(configurationStore) && createFails ==>
        && outcome == CreateFailed
        && configurationStore == old(configurationStore)
        && !cleanupRequired
      ensures SingletonId !in old(configurationStore) && !createFails ==>
        && outcome == Migrated
        && configurationStore == old(configurationStore)[SingletonId := MigratedConfiguration(old(settings))]
        && cleanupRequired
    {
      if SingletonId in configurationStore {
        return AlreadyMigrated;
      }

      var doc := MigratedConfiguration(settings);
      if createFails {
        return CreateFailed;
      }
      configurationStore := configurationStore[SingletonId := doc];

      cleanupRequired := true;
      outcome := Migrated;
    }

    /** Removes the six legacy keys and commits the settings store, only
        when `Execute` migrated. */
    method PostExecute()
      requires Valid()
      modifies this
      ensures Valid()
      ensures configurationStore == old(configurationStore) && cleanupRequired == old(cleanupRequired)
      ensures !old(cleanupRequired) ==>
        settings == old(settings) && savedSettings == old(savedSettings) && saveCount == old(saveCount)
      ensures old(cleanupRequired) ==>
        && settings == old(settings) - LegacyKeys
        && savedSettings == settings
        && saveCount == old(saveCount) + 1
    {
      if !cleanupRequired {
        return;
      }

      ghost var original := settings;
      settings := settings - {AuthenticationModeKey};

      settings := settings - {ActiveDirectoryContainerKey};
      settings := settings - {AuthenticationSchemeKey};
      settings := settings - {AllowFormsAuthenticationKey};
      settings := settings - {ExternalSecurityGroupsDisabledKey};
      settings := settings - {AllowAutoUserCreationKey};
      RemovingEachLegacyKey(original);

      savedSettings := settings;
      saveCount := saveCount + 1;
    }
  }

  /** Removing the six legacy keys one by one removes exactly `LegacyKeys`. */
  lemma RemovingEachLegacyKey(m: map<string, SettingValue>)
    ensures m - {AuthenticationModeKey} - {ActiveDirectoryContainerKey} - {AuthenticationSchemeKey}
      - {AllowFormsAuthenticationKey} - {ExternalSecurityGroupsDisabledKey} - {AllowAutoUserCreationKey}
      == m - LegacyKeys
  {
  }

  /** The host's startup sequence on freshly loaded stores: `Execute`, then
      `PostExecute` unless `Execute` raised. Returns the configuration
      store, the committed settings and the number of commits. */
  method Startup(store: map<string, DirectoryServicesConfiguration>, settings: map<string, SettingValue>, createFails: bool)
    returns (outcome: ExecuteOutcome, store': map<string, DirectoryServicesConfiguration>,
             settings': map<string, SettingValue>, saves: nat)
    ensures SingletonId in store ==>
      outcome == AlreadyMigrated && store' == store && settings' == settings && saves == 0
    ensures SingletonId !in store && createFails ==>
      outcome == CreateFailed && store' == store && settings' == settings && saves == 0
    ensures SingletonId !in store && !createFails ==>
      && outcome == Migrated
      && store' == store[SingletonId := MigratedConfiguration(settings)]
      && settings' == settings - LegacyKeys
      && saves == 1
  {
    var initializer := new DatabaseInitializer(store, settings);
    outcome := initializer.Execute(createFails);
    if outcome != CreateFailed {
      initializer.PostExecute();
    }
    store', settings', saves := initializer.configurationStore, initializer.savedSettings, initializer.saveCount;
  }

  /** A second startup on what the first one left behind changes nothing:
      the store keeps exactly what the first one wrote, and the legacy keys
      are not touched again. */
  method RestartIsNoOp(store: map<string, DirectoryServicesConfiguration>, settings: map<string, SettingValue>)
    returns (first: ExecuteOutcome, second: ExecuteOutcome,
             store'': map<string, DirectoryServicesConfiguration>, settings'': map<string, SettingValue>, saves: nat)
    ensures first != CreateFailed ==> second == AlreadyMigrated && saves == 0
    ensures SingletonId in store'' && store''.Keys == store.Keys + {SingletonId}
    ensures SingletonId in store ==> store'' == store && settings'' == settings
    ensures SingletonId !in store ==>
      store'' == store[SingletonId := MigratedConfiguration(settings)] && settings'' == settings - LegacyKeys
  {
    var store': map<string, DirectoryServicesConfiguration>, settings': map<string, SettingValue>, saves': nat;
    first, store', settings', saves' := Startup(store, settings, false);
    second, store'', settings'', saves := Startup(store', settings', false);
  }

  // ---------------------------------------------------------------------
  // Properties of the legacy-mode whitelist

  lemma {:induction false} StripQuotesAppend(a: string, b: string)
    ensures StripQuotes(a + b) == StripQuotes(a) + StripQuotes(b)
  {
    if a != [] {
      assert (a + b)[1..] == a[1..] + b;
      StripQuotesAppend(a[1..], b);
    } else {
      assert a + b == b;
    }
  }

  /** A string without quotes is left as it is. */
  lemma {:induction false} StripQuotesUnquoted(s: string)
    requires '"' !in s
    ensures StripQuotes(s) == s
  {
    if s != [] {
      StripQuotesUnquoted(s[1..]);
    }
  }

  /** Removing quotes twice is the same as removing them once. */
  lemma {:induction false} StripQuotesIdempotent(s: string)
    ensures StripQuotes(StripQuotes(s)) == StripQuotes(s)
  {
    if s != [] {
      StripQuotesIdempotent(s[1..]);
      StripQuotesAppend(if s[0] == '"' then [] else [s[0]], StripQuotes(s[1..]));
      assert [s[0]][1..] == [];
    }
  }

  /** A quote anywhere in the legacy mode does not change the outcome. */
  lemma QuotesIgnored(a: string, b: string)
    ensures IsLegacyModeEnabled(a + "\"" + b) == IsLegacyModeEnabled(a + b)
  {
    assert StripQuotes("\"") == [] by {
      assert "\""[1..] == [];
    }
    calc {
      StripQuotes(a + "\"" + b);
      { StripQuotesAppend(a + "\"", b); }
      StripQuotes(a + "\"") + StripQuotes(b);
      { StripQuotesAppend(a, "\""); }
      StripQuotes(a) + StripQuotes("\"") + StripQuotes(b);
      StripQuotes(a) + StripQuotes(b);
      { StripQuotesAppend(a, b); }
      StripQuotes(a + b);
    }
  }

  lemma EqualsIgnoreCaseIffLowerEqual(a: string, b: string)
    ensures EqualsIgnoreCase(a, b) <==> Lower(a) == Lower(b)
  {
    if Lower(a) == Lower(b) {
      forall i | 0 <= i < |a| ensures ToLowerAscii(a[i]) == ToLowerAscii(b[i]) {
        assert Lower(a)[i] == Lower(b)[i];
      }
    }
  }

  /** The whitelist, stated independently: the mode enables the provider
      exactly when, quotes removed and lower-cased, it reads "domain" or "1". */
  lemma LegacyModeCharacterised(authenticationMode: string)
    ensures IsLegacyModeEnabled(authenticationMode) <==>
      Lower(StripQuotes(authenticationMode)) in {"domain", "1"}
  {
    var m := StripQuotes(authenticationMode);
    EqualsIgnoreCaseIffLowerEqual("Domain", m);
    EqualsIgnoreCaseIffLowerEqual("1", m);
    assert Lower("Domain") == "domain";
    assert Lower("1") == "1";
    assert LegacyModes[0] == "Domain" && LegacyModes[1] == "1";
  }

  /** The quoted legacy value "\"Domain\"" enables the provider. */
  lemma QuotedDomainEnables()
    ensures IsLegacyModeEnabled("\"Domain\"")
  {
    QuotedDomainUnquotes();
    assert LegacyModes[0] in LegacyModes && EqualsIgnoreCase(LegacyModes[0], StripQuotes("\"Domain\""));
  }

  lemma QuotedDomainUnquotes()
    ensures StripQuotes("\"Domain\"") == "Domain"
  {
    assert "\"Domain\"" == "\"" + ("Domain" + "\"");
    StripQuotesAppend("\"", "Domain" + "\"");
    StripQuotesAppend("Domain", "\"");
    StripQuotesUnquoted("Domain");
    assert StripQuotes("\"") == [];
  }

  /** The two whitelist entries, spelled out. */
  lemma EnabledIffOneOfTwo(authenticationMode: string)
    ensures IsLegacyModeEnabled(authenticationMode) <==>
      EqualsIgnoreCase("Domain", StripQuotes(authenticationMode)) || EqualsIgnoreCase("1", StripQuotes(authenticationMode))
  {
    assert LegacyModes[0] == "Domain" && LegacyModes[1] == "1";
  }

  /** Other casings of "Domain", and "1", enable the provider. */
  lemma UpperCaseDomainEnables()
    ensures IsLegacyModeEnabled("DOMAIN")
  {
    StripQuotesUnquoted("DOMAIN");
    DomainIgnoringCase();
    assert "Domain" == LegacyModes[0];
  }

  lemma DomainIgnoringCase()
    ensures EqualsIgnoreCase("Domain", "DOMAIN")
  {
    assert ToLowerAscii('O') == 'o' && ToLowerAscii('M') == 'm' && ToLowerAscii('A') == 'a';
    assert ToLowerAscii('I') == 'i' && ToLowerAscii('N') == 'n';
  }

  lemma OneEnables()
    ensures IsLegacyModeEnabled("1")
  {
    StripQuotesUnquoted("1");
    assert LegacyModes[1] in LegacyModes && EqualsIgnoreCase(LegacyModes[1], StripQuotes("1"));
  }

  /** "2", the empty mode and near misses leave the provider disabled. */
  lemma DisablingModes()
    ensures !IsLegacyModeEnabled("2") && !IsLegacyModeEnabled("") && !IsLegacyModeEnabled("Domains")
  {
    EnabledIffOneOfTwo("2");
    EnabledIffOneOfTwo("");
    EnabledIffOneOfTwo("Domains");
    StripQuotesUnquoted("2");
    StripQuotesUnquoted("Domains");
    assert !EqualsIgnoreCase("1", "2") by {
      assert ToLowerAscii("1"[0]) != ToLowerAscii("2"[0]);
    }
  }

  // ---------------------------------------------------------------------
  // Properties of the migrated record

  /** With no legacy key present the record takes the documented defaults:
      empty container, NTLM, forms login allowed, groups enabled, automatic
      user creation allowed, provider disabled. */
  lemma MigrationDefaults(settings: map<string, SettingValue>)
    requires forall k :: k in LegacyKeys ==> k !in settings
    ensures MigratedConfiguration(settings) ==
      DirectoryServicesConfiguration(false, "", Ntlm, true, true, true)
  {
    assert !IsLegacyModeEnabled("") by {
      LegacyModeCharacterised("");
    }
  }

  /** Legacy values of the right type are carried over; the groups flag
      flips polarity. */
  lemma MigrationCarriesLegacyValues(settings: map<string, SettingValue>)
    ensures var c := MigratedConfiguration(settings);
      && (ActiveDirectoryContainerKey in settings && settings[ActiveDirectoryContainerKey].Text? ==>
            c.activeDirectoryContainer == settings[ActiveDirectoryContainerKey].text)
      && (AuthenticationSchemeKey in settings && settings[AuthenticationSchemeKey].Scheme? ==>
            c.authenticationScheme == settings[AuthenticationSchemeKey].scheme)
      && (AllowFormsAuthenticationKey in settings && settings[AllowFormsAuthenticationKey].Flag? ==>
            c.allowFormsAuthenticationForDomainUsers == settings[AllowFormsAuthenticationKey].flag)
      && (ExternalSecurityGroupsDisabledKey in settings && settings[ExternalSecurityGroupsDisabledKey].Flag? ==>
            c.areSecurityGroupsEnabled == !settings[ExternalSecurityGroupsDisabledKey].flag)
      && (AllowAutoUserCreationKey in settings && settings[AllowAutoUserCreationKey].Flag? ==>
            c.allowAutoUserCreation == settings[AllowAutoUserCreationKey].flag)
      && (c.isEnabled <==> IsLegacyModeEnabled(GetText(settings, AuthenticationModeKey, "")))
  {
  }
}
