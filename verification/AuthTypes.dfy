/** The values that cross the authentication layer: credentials, errors, the region registry. */
module AuthTypes {
  import opened Prelude

  // Sentinel and wrapped errors of internal/auth, one constructor per error return.
  datatype Error =
    | UnknownRegion
    | ZeroCredentials
    | RegionMismatch
    | NotConfigured
    | CredentialsExpired
    | KeyringUnavailable
    | FileModeUnsafe
    | PlaceholderMismatch
    | ConfUnreadable
    | ConfMalformed
    | ConfWriteFailed
    | HostsUnreadable
    | HostsMalformed
    | HostsWriteFailed
    | NoTokenEndpoint
    | ExchangeFailed

  type Outcome<+T> = Result<T, Error>

  // The method is an open string in the source; only these three values have a meaning.
  type Method = string
  const METHOD_NONE: Method := ""
  const METHOD_CONSUMER_KEY: Method := "consumer_key"
  const METHOD_OAUTH2: Method := "oauth2"

  // The expiry is an instant as an integer; 0 is the zero time.
  datatype Credentials = Credentials(
    region: string, profile: string, authMethod: Method,
    applicationKey: string, applicationSecret: string, consumerKey: string,
    clientId: string, clientSecret: string,
    accessToken: string, refreshToken: string, expiry: int)

  const ZERO := Credentials("", "", METHOD_NONE, "", "", "", "", "", "", "", 0)

  const REGISTRY: seq<string> :=
    ["ovh-eu", "ovh-us", "ovh-ca", "kimsufi-eu", "kimsufi-ca", "soyoustart-eu", "soyoustart-ca"]

  predicate Known(region: string) {
    region in REGISTRY
  }

  const DEFAULT_PROFILE := "default"

  // Every entry point reads an empty profile as "default".
  function Named(profile: string): string {
    if profile == "" then DEFAULT_PROFILE else profile
  }

  predicate HasSession(c: Credentials) {
    c.accessToken != "" || c.refreshToken != "" || c.expiry != 0
  }

  // Which of the outside operations fail during one call. A call touches every keyring entry
  // at most once, so sets of entries describe every pattern of failures.
  datatype Faults = Faults(setFails: set<string>, deleteFails: set<string>, confWrite: bool, hostsWrite: bool)

  const NO_FAULTS := Faults({}, {}, false, false)
}
