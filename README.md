# Directory-services authentication extension: a Dafny model

This project models the decision logic of an authentication extension that
connects a host identity platform to Active Directory. It covers three
pieces:

- **Group resolution** (`GroupRetrieval`). Given a user and their linked
  identities, `Read` applies three short-circuit guards in order:
  provider or security groups disabled, then the guest user, then no
  identity of this provider. It then asks the directory for the groups of
  each "Active Directory" identity, in order, by its SAM account name. It
  merges the successful answers without duplicates. The call succeeds if at
  least one lookup succeeded and otherwise fails with a reason that names
  the user. The method is proved against the specification function
  `Resolved`, and the lemmas state the guards, the union, the absence of
  duplicates and the partial-success rule about `Resolved`.
- **One-time configuration migration** (`DatabaseInitialization`). The
  class `DatabaseInitializer` holds the configuration store and the legacy
  settings store as maps, plus the `cleanupRequired` flag. `Execute` does
  nothing if the singleton record exists. Otherwise it builds the record
  from six legacy settings with their defaults and creates it, and only
  then sets the flag. `PostExecute` removes exactly the six legacy keys and
  commits once, and only when the flag is set. The legacy authentication
  mode enables the provider when, with every `"` removed, it equals
  `Domain` or `1` up to letter case.
- **Capability gating** (`AuthenticationProvider`). These are pure
  functions of the configuration record. The UI asset lists are empty
  exactly when the provider is disabled. The group-lookup element is
  absent exactly when security groups are disabled. Authentication URLs are
  always empty and password management is never supported. The metadata
  holds four claim descriptors, and three of them are identifying.

`DirectoryServices` holds the shared vocabulary: the provider name, the
configuration record, and constants defined elsewhere in the host.

## Model

| member | source | states |
|---|---|---|
| `GroupRetrieval.Read` | source/Server/DirectoryServices/GroupRetriever.cs:28-69 | the result is the specification `Resolved`, and the account names passed to the directory are exactly `Queried`: none when a guard fires, otherwise one per identity of this provider, in order |
| `GroupRetrieval.AddGroups` | source/Server/DirectoryServices/GroupRetriever.cs:50-53 | adding a lookup's ids to the accumulated groups appends, in order, each id not already present (`AddDistinct`) |
| `GroupRetrieval.AdIdentities` | source/Server/DirectoryServices/GroupRetriever.cs:42 | every identity kept by the filter is one of the user's and belongs to "Active Directory" |
| `GroupRetrieval.AdIdentitiesMembership` | source/Server/DirectoryServices/GroupRetriever.cs:42 | the filter keeps exactly the user's identities of this provider |
| `GroupRetrieval.AdIdentitiesAppend` | source/Server/DirectoryServices/GroupRetriever.cs:42 | filtering a concatenation is the concatenation of the filtered parts |
| `GroupRetrieval.InsertIgnored` | source/Server/DirectoryServices/GroupRetriever.cs:42 | inserting an identity of another provider anywhere leaves the filtered list unchanged |
| `GroupRetrieval.NoMatchIffNoAdIdentities` | source/Server/DirectoryServices/GroupRetriever.cs:35-42 | "every identity has another provider" (the guard) holds exactly when the filtered list used by the loop is empty |
| `GroupRetrieval.GuardsShortCircuit` | source/Server/DirectoryServices/GroupRetriever.cs:30-36 | disabled provider or groups gives "Not enabled" whatever the user; otherwise the guest gives "Not valid for Guest user"; otherwise no identity of this provider gives "No identities matching this provider"; in all three cases the directory is not called |
| `GroupRetrieval.QueriesFollowAdIdentities` | source/Server/DirectoryServices/GroupRetriever.cs:42-47 | past the guards the directory is called once per identity of this provider, at least once, the i-th call with the i-th such identity's SAM account-name claim |
| `GroupRetrieval.OtherProvidersIgnored` | source/Server/DirectoryServices/GroupRetriever.cs:35-47 | an identity from another provider, inserted anywhere, changes neither the calls made nor the result |
| `GroupRetrieval.LookupStep` | source/Server/DirectoryServices/GroupRetriever.cs:47-55 | one more lookup extends the merge by its groups only if it succeeded, and sets the success flag exactly when it succeeded |
| `GroupRetrieval.AddDistinctMembership` | source/Server/DirectoryServices/GroupRetriever.cs:50-53 | after adding `gs`, an id is present exactly when it was present before or is in `gs` |
| `GroupRetrieval.AddDistinctKeepsDistinct` | source/Server/DirectoryServices/GroupRetriever.cs:50-53 | adding ids to a list without duplicates never creates one |
| `GroupRetrieval.MergedGroupsIsUnion` | source/Server/DirectoryServices/GroupRetriever.cs:48-55 | the merged groups are exactly the union of the groups of the successful lookups; failed lookups contribute nothing |
| `GroupRetrieval.MergedGroupsDistinct` | source/Server/DirectoryServices/GroupRetriever.cs:41-53 | the merged groups hold no duplicates |
| `GroupRetrieval.SuccessIffSomeLookupSucceeds` | source/Server/DirectoryServices/GroupRetriever.cs:48-66 | the result is a success exactly when at least one of the directory calls succeeded, including one returning no groups, whatever the others did; past the guards, if all fail the reason is "Couldn't retrieve groups for user " followed by the username |
| `GroupRetrieval.SuccessIsDistinctUnion` | source/Server/DirectoryServices/GroupRetriever.cs:38-68 | on success the returned ids have no duplicates and are exactly the union of the groups of the successful lookups |
| `GroupRetrieval.AlwaysTaggedWithProvider` | source/Server/DirectoryServices/GroupRetriever.cs:30-68 | every result, success or failure, carries the provider name "Active Directory" |
| `GroupRetrieval.TwoAdUserQueried` | source/Server/DirectoryServices/GroupRetriever.cs:42-47 | a user with two identities of this provider is looked up twice, in order |
| `GroupRetrieval.TwoIdentitiesMerge` | source/Server/DirectoryServices/GroupRetriever.cs:38-68 | two identities answering {A, B} and {B, C} resolve to the groups A, B, C |
| `GroupRetrieval.PartialFailureStillSucceeds` | source/Server/DirectoryServices/GroupRetriever.cs:48-68 | a failing identity beside one answering {X} resolves to the groups X |
| `GroupRetrieval.AllLookupsFail` | source/Server/DirectoryServices/GroupRetriever.cs:62-65 | two failing identities resolve to "Couldn't retrieve groups for user " followed by the username |
| `DatabaseInitialization.DatabaseInitializer.constructor` | source/Node/Configuration/DatabaseInitializer.cs:17-24 | a new migrator holds the given stores, with no commit made and no cleanup pending |
| `DatabaseInitialization.DatabaseInitializer.Execute` | source/Node/Configuration/DatabaseInitializer.cs:28-56 | if the singleton record exists, nothing changes; if creation fails, nothing changes and no cleanup is flagged; otherwise the store gains exactly the record built from the legacy settings and cleanup is flagged; the settings store is never touched; cleanup is only ever pending once the record exists |
| `DatabaseInitialization.DatabaseInitializer.PostExecute` | source/Node/Configuration/DatabaseInitializer.cs:58-72 | without pending cleanup nothing changes and nothing is committed; with it the settings lose exactly the six legacy keys while every other key keeps its value, the commit writes that state, and exactly one commit is made |
| `DatabaseInitialization.Startup` | source/Node/Configuration/DatabaseInitializer.cs:28-72 | `Execute` then `PostExecute` on fresh stores: an existing record leaves both stores as they were with no commit; a failed creation leaves both unchanged with no commit; otherwise the record is added, the legacy keys are removed and committed once |
| `DatabaseInitialization.RestartIsNoOp` | source/Node/Configuration/DatabaseInitializer.cs:30-32 | a second run on what the first left behind is a no-op: the configuration store is exactly the first run's store plus the migrated record, the committed settings are exactly the first run's, and no further commit is made |
| `DatabaseInitialization.StripQuotes` | source/Node/Configuration/DatabaseInitializer.cs:45 | the result holds exactly the characters of the input other than `"` |
| `DatabaseInitialization.StripQuotesAppend` | source/Node/Configuration/DatabaseInitializer.cs:45 | removing quotes distributes over concatenation |
| `DatabaseInitialization.StripQuotesUnquoted` | source/Node/Configuration/DatabaseInitializer.cs:45 | a string without quotes is left as it is |
| `DatabaseInitialization.StripQuotesIdempotent` | source/Node/Configuration/DatabaseInitializer.cs:45 | removing quotes twice is the same as removing them once |
| `DatabaseInitialization.QuotesIgnored` | source/Node/Configuration/DatabaseInitializer.cs:45 | a `"` inserted anywhere in the legacy mode does not change whether it enables the provider |
| `DatabaseInitialization.EqualsIgnoreCaseIffLowerEqual` | source/Node/Configuration/DatabaseInitializer.cs:45 | case-insensitive equality holds exactly when the lower-cased strings are equal |
| `DatabaseInitialization.EnabledIffOneOfTwo` | source/Node/Configuration/DatabaseInitializer.cs:26 | the whitelist has exactly two entries, "Domain" and "1" |
| `DatabaseInitialization.LegacyModeCharacterised` | source/Node/Configuration/DatabaseInitializer.cs:26-45 | the legacy mode enables the provider exactly when, quotes removed and lower-cased, it is "domain" or "1" |
| `DatabaseInitialization.QuotedDomainEnables` | source/Node/Configuration/DatabaseInitializer.cs:45 | the quoted value `"Domain"` enables the provider |
| `DatabaseInitialization.UpperCaseDomainEnables` | source/Node/Configuration/DatabaseInitializer.cs:45 | "DOMAIN" enables the provider |
| `DatabaseInitialization.OneEnables` | source/Node/Configuration/DatabaseInitializer.cs:45 | "1" enables the provider |
| `DatabaseInitialization.DisablingModes` | source/Node/Configuration/DatabaseInitializer.cs:45 | "2", the empty mode and "Domains" leave the provider disabled |
| `DatabaseInitialization.MigrationDefaults` | source/Node/Configuration/DatabaseInitializer.cs:36-51 | with no legacy key present, the record is: disabled, container "", NTLM, forms login allowed, groups enabled, automatic user creation allowed |
| `DatabaseInitialization.MigrationCarriesLegacyValues` | source/Node/Configuration/DatabaseInitializer.cs:36-51 | each legacy value of the right type is carried into its field; `AreSecurityGroupsEnabled` is the negation of the legacy "groups disabled" flag; `IsEnabled` follows the whitelist on the legacy mode |
| `AuthenticationProvider.SupportsPasswordManagement` | source/Server/DirectoryServicesAuthenticationProvider.cs:34 | password management is never supported |
| `AuthenticationProvider.GetAuthenticationProviderElement` | source/Server/DirectoryServicesAuthenticationProvider.cs:38-48 | the element is named "Active Directory" with the Active Directory identity type; forms login follows the configured flag; the only link is the authenticate link, "~" followed by the challenge path |
| `AuthenticationProvider.GetGroupLookupElement` | source/Server/DirectoryServicesAuthenticationProvider.cs:50-61 | absent exactly when security groups are disabled, whatever `IsEnabled` is; when present it supports group lookup, is not role based and points at the group lookup API |
| `AuthenticationProvider.GetAuthenticationUrls` | source/Server/DirectoryServicesAuthenticationProvider.cs:63-66 | always empty |
| `AuthenticationProvider.GetCssUris` | source/Server/DirectoryServicesAuthenticationProvider.cs:68-73 | empty exactly when the provider is disabled, otherwise exactly the directory-services style sheet |
| `AuthenticationProvider.GetJavascriptUris` | source/Server/DirectoryServicesAuthenticationProvider.cs:75-80 | empty exactly when the provider is disabled, otherwise exactly the provider's script |
| `AuthenticationProvider.GetMetadata` | source/Server/DirectoryServicesAuthenticationProvider.cs:82-96 | four claim descriptors: UPN, SAM account name, email and display name, in that order; the first three identify a user and the display name does not; one user-lookup link |
| `AuthenticationProvider.AssetListsAgree` | source/Server/DirectoryServicesAuthenticationProvider.cs:68-80 | the style-sheet and script lists are empty together |
| `AuthenticationProvider.UnofferedLookupIsNotEnabled` | source/Server/DirectoryServices/GroupRetriever.cs:30-32 | when no group-lookup element is offered, or the UI assets are withheld, resolution answers "Not enabled" for every user |
| `AuthenticationProvider.MigratedCapabilities` | source/Node/Configuration/DatabaseInitializer.cs:39-49 | after migration the UI assets appear exactly when the legacy mode is whitelisted, and group lookup is offered exactly when the legacy "groups disabled" flag was not set |

## Left out

- The directory lookup is a total function parameter from account name to
  a result. The LDAP client behind it is network I/O and is not part of
  this model.
- Cancellation is not distinguished from a failed lookup: the token is
  only passed on to the lookup, and cancellation behaviour belongs to the
  lookup, which is not modelled.
- Logging (`Info`, `WarnFormat`, `ErrorFormat`) is a diagnostic side effect
  and is not modelled.
- GroupRetrieval.Read: the source reads a missing SAM account-name claim by
  indexing, which throws. The model instead requires that every identity of
  this provider carries the claim when the guards let the lookup run.
- GroupRetrieval.Read: the source returns the contents of a hash set, whose
  order is unspecified. The model keeps insertion order. The general
  lemmas state only what the source guarantees, membership and no
  duplicates; only the example `TwoIdentitiesMerge` fixes the model's
  order.
- Case-insensitive comparison is ASCII only. The source compares with the
  invariant culture, ignoring case, which folds non-ASCII case and also
  skips ignorable code points such as the soft hyphen U+00AD, so a mode
  like "Dom" + U+00AD + "ain" enables the provider in the source but not in the model.
- Typed settings reads: a stored value of another type is read as the
  default. The store's deserialisation is not part of this model.
- The two stores are fields of the migrator instead of shared objects.
  Failures of `Remove` and `Save` are not modelled. A failing `Create` is
  the `createFails` argument and ends `Execute` before the flag is set.
- The created record is stored under the singleton id. The record type
  that assigns this id is not part of this model.
- `PostExecute` does not clear `cleanupRequired`, as in the source, so a
  second `PostExecute` on the same instance would remove the keys and
  commit again. The host calls it once.
- Constants defined in other files are declared without a value: the guest
  login, claim types, challenge path, API paths, authenticate-link name and
  singleton id. No decision here depends on their values.
- `AuthenticationSchemes` is a flags enumeration in the source. The model
  has one case for each named member except `None`, and treats the
  combined member `IntegratedWindowsAuthentication` (Negotiate and NTLM)
  as one case; `None` and unnamed bitwise combinations are not modelled.
- The `IsEnabled` and `IdentityProviderName` getters return a configuration
  field and the provider name; the model reads the record field and the
  `ProviderName` constant directly.
