/** Vocabulary shared by the directory-services authentication extension:
    the provider's name, the versioned configuration record and the
    constants that other parts of the host define. */
module DirectoryServices {

  datatype Option<+T> = None | Some(value: T)

  /** The name under which the provider registers and tags its identities. */
  const ProviderName: string := "Active Directory"

  // Constants defined in files that are not part of this model; their
  // values never matter to the decisions modelled here.

  /** The login of the distinguished guest account. */
  const GuestLogin: string
  /** Claim type under which an identity stores its SAM account name. */
  const SamAccountNameClaimType: string
  /** Claim type of the user principal name. */
  const UpnClaimType: string
  /** Claim types every provider shares. */
  const EmailClaimType: string
  const DisplayNameClaimType: string
  /** Path of the challenge endpoint that starts domain authentication. */
  const ChallengePath: string
  /** API paths for looking up external groups and external users. */
  const ApiExternalGroupsLookup: string
  const ApiExternalUsersLookup: string
  /** Name of the link on a provider element that starts authentication. */
  const AuthenticateLinkName: string
  /** Identifier of the singleton configuration document. */
  const SingletonId: string

  /** The HTTP authentication schemes a domain login may use. */
  datatype AuthenticationScheme =
    | Anonymous
    | Basic
    | Digest
    | IntegratedWindowsAuthentication
    | Negotiate
    | Ntlm

  /** The singleton, versioned configuration record of the provider. */
  datatype DirectoryServicesConfiguration = DirectoryServicesConfiguration(
    isEnabled: bool,
    activeDirectoryContainer: string,
    authenticationScheme: AuthenticationScheme,
    allowFormsAuthenticationForDomainUsers: bool,
    areSecurityGroupsEnabled: bool,
    allowAutoUserCreation: bool)
}
