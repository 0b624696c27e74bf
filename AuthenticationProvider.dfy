/** The capability surface the provider exposes to the host: every answer is
    a function of the current configuration record, or a constant. */
module AuthenticationProvider {
  import opened DirectoryServices
  import GroupRetrieval
  import DatabaseInitialization

  const CssUri: string := "~/styles/directoryServices.css"
  const JavascriptUri: string := "~/areas/users/ad_auth_provider.js"
  const UserLookupLinkName: string := "UserLookup"

  datatype IdentityType = ActiveDirectory

  /** How the provider appears on the login page. */
  datatype AuthenticationProviderElement = AuthenticationProviderElement(
    name: string,
    identityType: IdentityType,
    formsLoginEnabled: bool,
    links: map<string, string>)

  /** The provider's offer to look up external groups. */
  datatype AuthenticationProviderThatSupportsGroups = AuthenticationProviderThatSupportsGroups(
    name: string,
    isRoleBased: bool,
    supportsGroupLookup: bool,
    lookupUri: string)

  datatype ClaimDescriptor = ClaimDescriptor(
    claimType: string,
    displayLabel: string,
    isIdentifyingClaim: bool,
    description: string)

  datatype IdentityMetadataResource = IdentityMetadataResource(
    identityProviderName: string,
    claimDescriptors: seq<ClaimDescriptor>,
    links: map<string, string>)

  /** The provider never manages passwords. */
  function SupportsPasswordManagement(): (r: bool)
    ensures !r
  {
    false
  }

  function GetAuthenticationProviderElement(config: DirectoryServicesConfiguration): (e: AuthenticationProviderElement)
    ensures e.name == ProviderName && e.identityType == ActiveDirectory
    ensures e.formsLoginEnabled == config.allowFormsAuthenticationForDomainUsers
    ensures e.links.Keys == {AuthenticateLinkName} && e.links[AuthenticateLinkName] == "~" + ChallengePath
  {
    var element := AuthenticationProviderElement(ProviderName, ActiveDirectory, config.allowFormsAuthenticationForDomainUsers, map[]);
    element.(links := element.links[AuthenticateLinkName := "~" + ChallengePath])
  }

  /** Absent exactly when security groups are disabled, whether or not the
      provider itself is enabled. */
  function GetGroupLookupElement(config: DirectoryServicesConfiguration): (r: Option<AuthenticationProviderThatSupportsGroups>)
    ensures r.None? <==> !config.areSecurityGroupsEnabled
    ensures r.Some? ==>
      && r.value.name == ProviderName
      && r.value.supportsGroupLookup
      && !r.value.isRoleBased
      && r.value.lookupUri == "~" + ApiExternalGroupsLookup
  {
    if !config.areSecurityGroupsEnabled then None
    else Some(AuthenticationProviderThatSupportsGroups(
      name := ProviderName,
      isRoleBased := false,
      supportsGroupLookup := true,
      lookupUri := "~" + ApiExternalGroupsLookup))
  }

  /** The provider contributes no authentication URLs. */
  function GetAuthenticationUrls(): (r: seq<string>)
    ensures r == []
  {
    []
  }

  /** Style sheets: none while the provider is disabled. */
  function GetCssUris(config: DirectoryServicesConfiguration): (r: seq<string>)
    ensures r == [] <==> !config.isEnabled
    ensures config.isEnabled ==> r == [CssUri]
  {
    if !config.isEnabled then [] else [CssUri]
  }

  /** Scripts: none while the provider is disabled. */
  function GetJavascriptUris(config: DirectoryServicesConfiguration): (r: seq<string>)
    ensures r == [] <==> !config.isEnabled
    ensures config.isEnabled ==> r == [JavascriptUri]
  {
    if !config.isEnabled then [] else [JavascriptUri]
  }

  /** Four claim descriptors: UPN, SAM account name and email identify a
      user, the display name does not. */
  function GetMetadata(): (m: IdentityMetadataResource)
    ensures m.identityProviderName == ProviderName
    ensures |m.claimDescriptors| == 4
    ensures m.claimDescriptors[0].claimType == UpnClaimType
    ensures m.claimDescriptors[1].claimType == SamAccountNameClaimType
    ensures m.claimDescriptors[2].claimType == EmailClaimType
    ensures m.claimDescriptors[3].claimType == DisplayNameClaimType
    ensures forall i :: 0 <= i < 4 ==> (m.claimDescriptors[i].isIdentifyingClaim <==> i < 3)
    ensures m.links == map[UserLookupLinkName := "~" + ApiExternalUsersLookup]
  {
    IdentityMetadataResource(
      identityProviderName := ProviderName,
      claimDescriptors := [
        ClaimDescriptor(UpnClaimType, "User principal name", true, "UPN identifier."),
        ClaimDescriptor(SamAccountNameClaimType, "Sam Account Name", true, "SAM identifier."),
        ClaimDescriptor(EmailClaimType, "Email address", true, "Email identifier."),
        ClaimDescriptor(DisplayNameClaimType, "Display name", false, "User's display name.")
      ],
      links := map[UserLookupLinkName := "~" + ApiExternalUsersLookup])
  }

  // ---------------------------------------------------------------------
  // Agreement between the capability surface and the rest of the extension

  /** The two asset lists are present or absent together. */
  lemma AssetListsAgree(config: DirectoryServicesConfiguration)
    ensures GetCssUris(config) == [] <==> GetJavascriptUris(config) == []
  {
  }

  /** When the host is offered no group lookup, a resolution answers
      "Not enabled" whatever the user; likewise while the provider, and so
      its UI assets, are off. */
  lemma UnofferedLookupIsNotEnabled(config: DirectoryServicesConfiguration, user: GroupRetrieval.User,
                                    locator: string -> GroupRetrieval.LocatorResult)
    requires GetGroupLookupElement(config).None? || GetCssUris(config) == []
    ensures GroupRetrieval.Resolved(config, user, locator) ==
      GroupRetrieval.FailureReason(ProviderName, "Not enabled")
  {
  }

  /** After migration the UI assets appear exactly when the legacy mode
      was whitelisted, and group lookup is offered exactly when the legacy
      "groups disabled" flag was not set. */
  lemma MigratedCapabilities(settings: map<string, DatabaseInitialization.SettingValue>)
    ensures var config := DatabaseInitialization.MigratedConfiguration(settings);
      && (GetCssUris(config) != [] <==>
            DatabaseInitialization.IsLegacyModeEnabled(
              DatabaseInitialization.GetText(settings, DatabaseInitialization.AuthenticationModeKey, "")))
      && (GetGroupLookupElement(config).Some? <==>
            !DatabaseInitialization.GetFlag(settings, DatabaseInitialization.ExternalSecurityGroupsDisabledKey, false))
  {
  }
}
