# Verified model of ovh-cli's credential store and schema cache

This project models, in Dafny, the stateful core of ovh-cli and proves what it keeps.

**The credential store** (`internal/auth`) presents one table of credentials, but keeps it in three
places: an INI file (`ovh.conf`, application credentials per region), a YAML file (`hosts.yml`, an
OAuth2 session per region and profile) and the OS keyring (a flat table of strings). A value in
either file is plain text or a placeholder that points into the keyring. Four `ovh.conf` files are
candidates for reading, one is ever written, and environment variables come before all of them.

- `Keyring`, `Secrets`, `OvhConf`, `HostsYml` and `Store` hold the operations. The parsed files, the
  keyring service and the store are classes whose methods change them in place and may fail at any
  outside write; each method is proved equal to a function on plain values (`World`).
- `Vault` and `Histories` prove that the three places simulate a simple pair of tables, application
  credentials by region and sessions by (region, profile), over every history of operations.
- `LoadOutcome`, `StoreOutcome`, `DeleteOutcome` and `RefreshOutcome` say, for every input and every failure, exactly what
  an operation returns, reports and leaves in the files and the keyring. Their references are written in words of
  the files and the keyring, without the functions that the operations are made of, and are proved to determine them.
- `Ownership` proves which operation can change what, `Contracts` what each single Load, Store and
  Delete promises, with the exact condition wherever the promise does not always hold.
- `Failures` says what a failing Store or Delete leaves behind and when the previous state stands,
  `Shadowing` what happens to the written file when another one is read, `Dangling` which
  operations leave a placeholder without its keyring entry.
- `Refreshing` proves a token refresh durable and framed; `RefreshRace` cuts concurrent refreshes
  into their visible steps and proves that refresh tokens never roll back in keyring mode; `RefreshSteps`
  proves that these steps are the operation, failures included, in both directions;
  `Rollback` and `RollbackExactly` prove from exactly which states they can, and `RefreshLoads` what
  a Load returns after any such run in keyring mode.

**The schema cache** (`internal/schema`) is replaced by a two-file commit, spec first and meta second,
with a shortcut that touches the meta alone when upstream answers 304.

- `SchemaCache` holds opening and one refresh; `RefreshProtocol` is the step machine with any number of
  refreshers that stop anywhere, `ProtocolSteps` proves that its steps are the operation; `FanOut` is the
  bounded concurrent build of the service map.
- `Querier` and `Diff` are the queries, proved to agree with a plain relation in whatever order maps
  are walked (`Ordering` holds the string order and sorting).

`Runs` holds what the three step machines share.

**The poll loop** (`Poll`) waits for the validation of a consumer key with a doubling, capped back-off.

## How the code and its documentation differ

The model follows the code. Where a comment promises more, the exact condition is proved.

- `StoreCredentials` says that when a keyring write fails "`ovh.conf` is left untouched and the previous
  state stands". A refused application secret leaves both files alone, but the secrets before it are
  in the keyring (`Failures.FailedStore`); a refused token comes after `ovh.conf` was replaced
  (`Failures.FailedSession`, `Failures.FailedStoreReplacesConf`). The previous state stands exactly
  under the condition of `Failures.FailedStoreKeepsStateExactly`.
- A Store is read back exactly under `Contracts.RoundTrips`: in file mode a secret that starts with
  `keyring:` is taken for a placeholder, a consumer-key Store drops session fields, an OAuth2 Store
  without session leaves an older session in `hosts.yml` to be seen, actionable variables win, and
  behind a `./ovh.conf` or `~/.ovh.conf` that file is read instead (`Shadowing.StoredIsNotLoaded`).
- `StoreCredentials` says that it merges with the existing sections of the canonical file. It writes the
  sections of the file that was read: behind a `./ovh.conf` or `~/.ovh.conf` every other region of the
  canonical file is kept only if that file agrees on it, and so with Delete
  (`Shadowing.StoreKeepsSectionExactly`, `Shadowing.DeleteKeepsSectionExactly`, `Shadowing.OtherRegionIsLost`).
- `DeleteCredentials` takes a profile but removes the section of the whole region
  (`Contracts.DeleteUnconfigures`); the `default` keyring entries of the region's application secrets
  stay behind when another profile is named. Behind a `./ovh.conf` or `~/.ovh.conf` the region can stay
  configured; the lemma has the exact condition, `Shadowing.DeletedIsStillLoaded` an instance.
- A failing Store or Delete can leave a placeholder without its keyring entry, in exactly the cases of
  `Dangling.StoreDanglesExactly` and `Dangling.DeleteDanglesExactly`.
- `RefreshOAuth2` says that it is safe to call concurrently. A lost update of `hosts.yml` can bring an old
  refresh token back: in file mode whenever two profiles can be refreshed, in keyring mode only where a
  plain token was left in `hosts.yml` (`RollbackExactly.RollsBackExactly`).
- `Refresh` of the schema says that an error leaves the cached files unchanged. The meta is; the spec is
  replaced when only the meta write fails (`SchemaCache.ErrorKeepsFilesExactly`, `SchemaCache.ErrorCanReplaceSpec`).
- `Refresh` says that success means a cache that opens. After a 304 the files of another version or region,
  and an existing directory with a loose mode, stay closed (`SchemaCache.RefreshedOpensExactly`,
  `SchemaCache.OldVersionStaysClosed`).

The documentation says nothing about concurrent refreshes of one schema cache. They never make it
unopenable (`RefreshProtocol.CacheStaysAvailable`), but 304 answers are sound for one refresher at a time
and for no larger number (`RefreshProtocol.SoundExactly`): two that cross leave a meta with a newer tag
than the spec, after which 304 answers keep the outdated spec (`RefreshProtocol.CrossingGoesStale`).

## Model

| member | source | states |
|---|---|---|
| Keyring.UserInjective | internal/auth/keyring.go:19-25 | two (region, profile, key) tuples share a keyring entry only if they are equal, colons in the profile included, as long as regions and keys have none |
| Keyring.UserCollides | internal/auth/keyring.go:23-25 | the condition is needed: a colon in a region lets two owners share an entry |
| Keyring.FlightKeyInjective | internal/auth/oauth.go:197-200 | refreshes are coalesced only when they are for the same region and profile |
| Keyring.PlaceholderAcceptedExactly | internal/auth/ovhconf.go:138-148 | a placeholder is accepted for exactly the tuple it was made for, and then gives that tuple's entry |
| Keyring.PlaceholderText | internal/auth/keyring.go:16-33 | an instance of the placeholder format |
| Keyring.KnownExactly | internal/auth/regions.go:27-81 | the seven regions |
| Keyring.RegistryIsPlain | internal/auth/regions.go:84-98 | no region of the registry has a colon or clashes with the settings section |
| Keyring.OsKeyring.Set | internal/auth/keyring.go:36-41 | a failing write reports an unavailable keyring and leaves every entry as it was |
| Keyring.OsKeyring.Get | internal/auth/keyring.go:47-53 | a missing entry means "not configured", any other failure "unavailable" |
| Keyring.OsKeyring.Delete | internal/auth/keyring.go:57-63 | one entry is gone, missing or not, unless the keyring refuses, which is an error |
| Secrets.SaveEffect | internal/auth/ovhconf.go:158-185 | after a list of secrets is saved, exactly the entries before the first failing one are set or gone and no other entry has changed |
| Failures.SplitPointIsFirst | internal/auth/ovhconf.go:168-183 | a save stops at the first secret that is not empty and that the keyring refuses |
| Secrets.DeleteKeysEffect | internal/auth/store.go:160-162 | deleting secrets removes the listed entries that the keyring lets go and no other |
| Secrets.SaveReads | internal/auth/ovhconf.go:138-185 | a successfully saved secret reads back as itself if and only if file mode cannot take it for a placeholder |
| Secrets.SlotReads | internal/auth/ovhconf.go:138-148 | a slot that stands for a secret resolves to it |
| Secrets.ReadFailsEarly | internal/auth/ovhconf.go:102-113 | the first secret that does not resolve decides the error |
| Secrets.ReadFrame | internal/auth/ovhconf.go:102-113 | reading depends on the listed slots and their own keyring entries only |
| OvhConf.SlotValues | internal/auth/ovhconf.go:168-183 | every secret key of a section ends up with its own text and no other key is touched |
| OvhConf.PlainValues | internal/auth/ovhconf.go:160-162 | method, application key and client id end up as given, empty ones removed |
| OvhConf.IniFile.Key | internal/auth/ovhconf.go:78 | looking up a missing setting adds it, empty, to the file in memory |
| OvhConf.IniFile.SetOrDeleteKey | internal/auth/ovhconf.go:202-208 | one key of one section is set, or removed for an empty value, and nothing else changes |
| OvhConf.LoadDefaultConf | internal/auth/ovhconf.go:43-69 | the first candidate that is a file decides; one that cannot be looked at ends the search with an error |
| OvhConf.StorageMode | internal/auth/ovhconf.go:74-83 | an unset storage means the keyring |
| OvhConf.ResolveSecretWith | internal/auth/ovhconf.go:138-148 | plain text stands for itself, a foreign placeholder is an integrity error, an own one is looked up |
| OvhConf.ReadCredsFromConf | internal/auth/ovhconf.go:85-132 | the credentials of a region's section, zero when there are none, or the first error and no credentials |
| OvhConf.ReadSlots | internal/auth/ovhconf.go:102-113 | the loop over the secret fields |
| OvhConf.ApplyCreds | internal/auth/ovhconf.go:158-185 | the keyring after every pattern of failures, and on success the section, all other sections unchanged |
| OvhConf.ApplySecrets | internal/auth/ovhconf.go:168-183 | the loop over the secret fields, keyring first, stopping at the first refused write |
| HostsYml.LoadHostsYml | internal/auth/hostsyml.go:42-63 | no file is no error, a loose mode is one |
| HostsYml.ReadHostsCreds | internal/auth/hostsyml.go:81-111 | the session of the entry laid over the credentials, unchanged when there is no entry, the first unresolvable token as error |
| HostsYml.WriteHostsCreds | internal/auth/hostsyml.go:116-161 | tokens reach the keyring before the file is replaced, the account fields of the entry and all other entries survive |
| HostsYml.DeleteHostsCreds | internal/auth/hostsyml.go:165-187 | both tokens leave the keyring even if the file cannot be read; a region without profiles goes |
| Store.CredentialStore.LoadCredentials | internal/auth/store.go:49-88 | never zero credentials without error, never an error with credentials, and the outcome of the precedence of the sources |
| Store.CredentialStore.WriteOvhConf | internal/auth/ovhconf.go:189-200 | the file is replaced as a whole or not at all |
| Store.CredentialStore.StoreCredentials | internal/auth/store.go:100-138 | the whole new state of files and keyring under every pattern of failures |
| Store.CredentialStore.WriteApp | internal/auth/store.go:122-128 | its application half |
| Store.CredentialStore.DeleteCredentials | internal/auth/store.go:152-177 | the whole new state of files and keyring under every pattern of failures |
| Store.CredentialStore.RefreshOnce | internal/auth/oauth.go:207-238 | the whole new state and the returned credentials for every reply and every pattern of failures; zero credentials with an error |
| Ownership.SaveLeaves | internal/auth/ovhconf.go:168-183 | saving secrets of one owner leaves the entry of any other (region, profile, key) as it was |
| Ownership.DeleteLeaves | internal/auth/store.go:160-162 | deleting secrets of one owner leaves the entry of any other (region, profile, key) as it was |
| Ownership.LoadFrame | internal/auth/store.go:65-87 | a Load depends on its region's section, its own session and its own keyring entries only |
| Ownership.ShadowedStaysActive | internal/auth/ovhconf.go:45-69 | behind a ./ovh.conf or ~/.ovh.conf neither Store nor Delete changes the file that Load reads (what Load then returns: RoundTripExactly, DeleteUnconfigures) |
| Ownership.StoreIsolatesRegions | internal/auth/store.go:100-138 | a Store for one region, successful or not, whichever file is active, changes the Load of no profile of any other region |
| Ownership.DeleteIsolatesRegions | internal/auth/store.go:152-177 | a Delete for one region, successful or not, whichever file is active, changes the Load of no profile of any other region |
| Vault.LoadRefines | internal/auth/store.go:49-88 | Load of a state that represents the two tables answers as the tables do |
| Vault.StoreRefines | internal/auth/store.go:100-138 | a successful Store sets the region's row and, for OAuth2 with a session, the profile's row, and nothing else, in either storage mode |
| Vault.DeleteRefines | internal/auth/store.go:152-177 | a successful Delete removes the region's row and the profile's session row, and nothing else |
| Histories.RunRefines | internal/auth/store.go:49-177 | the files and the keyring represent the two tables after every step of every clean history from any represented state |
| Histories.HistoriesRefineTheVault | internal/auth/store.go:49-177 | from nothing, after any sequence of successful Stores and Deletes with the storage mode changed at will, every Load answers as the two tables do |
| Histories.OtherRegionsAreInvisible | internal/auth/store.go:100-177 | any number of Stores and Deletes for other regions, failing or not, from any state, leaves a region's Load as it was |
| Histories.NoDanglingPlaceholder | internal/auth/ovhconf.go:138-185 | after any sequence of successful operations no placeholder in either file is without its own, non-empty keyring entry |
| Histories.StepDanglesExactly | internal/auth/store.go:100-177 | any operation, failing or shadowed too, keeps every placeholder backed if and only if it is none of the dangling cases |
| Histories.RunsKeepBacking | internal/auth/store.go:100-177 | a history without such a step, failures included, keeps every placeholder backed |
| Dangling.StoreDanglesExactly | internal/auth/ovhconf.go:158-185 | a Store leaves a placeholder without its entry if and only if it empties a secret whose placeholder stays, or writes a plain text that looks like one |
| Dangling.DeleteDanglesExactly | internal/auth/store.go:152-177 | a Delete does if and only if a placeholder stays whose entry the keyring let go |
| Dangling.FailedStoreCanDangle | internal/auth/ovhconf.go:168-183 | a secret emptied before a refused one |
| Dangling.FailedDeleteCanDangle | internal/auth/hostsyml.go:165-187 | tokens deleted before hosts.yml could not be replaced |
| LoadOutcome.ReadsInOrder | internal/auth/ovhconf.go:102-148 | a list of secrets reads as what its texts stand for, or as the error of the first that stands for nothing: a foreign placeholder, an unreachable keyring, a missing entry |
| LoadOutcome.SectionOutcome | internal/auth/ovhconf.go:94-132 | a section gives its texts and secrets with the recorded method if that is known, else consumer_key for an application or consumer key, else oauth2 for a complete client, else nothing |
| LoadOutcome.SessionOutcome | internal/auth/hostsyml.go:81-111 | hosts.yml gives the session of the entry, an empty one without entry, or the error of the file or of the first token that cannot be read |
| LoadOutcome.LoadExactly | internal/auth/store.go:49-88 | Load returns given credentials if and only if variables, files and keyring give them, and a given error if and only if it is that of the first source that refuses, an unreachable keyring included |
| StoreOutcome.StoreReportsExactly | internal/auth/store.go:100-138 | each of the ten errors is reported if and only if its own condition on the state before and the faults holds, no error if and only if both halves got through |
| StoreOutcome.StoreLeavesExactly | internal/auth/store.go:100-138 | every text of ovh.conf, every entry of hosts.yml and every entry of the keyring after any Store, failing or not, told from the state before; nothing else is left |
| StoreOutcome.SecretsStayInKeyring | internal/auth/ovhconf.go:175-180 | in keyring mode a successful Store leaves a placeholder for each secret in ovh.conf and in hosts.yml, never the secret |
| DeleteOutcome.DeleteReportsExactly | internal/auth/store.go:152-177 | each error of a Delete if and only if its own condition holds |
| DeleteOutcome.DeleteLeavesExactly | internal/auth/store.go:152-177 | both files and the keyring after any Delete, failing or not; a region goes with its last profile |
| Contracts.LoadReturns | internal/auth/store.go:49-88 | credentials come with the region and profile asked for, a known method, and no session unless OAuth2 |
| Contracts.EnvPrecedence | internal/auth/store.go:12-63 | actionable variables alone give the credentials, whatever files and keyring hold; all others, those of another region included, have no effect |
| Contracts.RoundTripExactly | internal/auth/store.go:90-138 | whichever file is active and whatever the variables, Load after a successful Store returns what was stored if and only if the stated conditions on the state before hold |
| Contracts.ShownAppReads | internal/auth/ovhconf.go:43-132 | the application half behind a file in front reads as stored if and only if that file's section shows it |
| Contracts.StoredAppReads | internal/auth/ovhconf.go:85-185 | the application half of a Store reads back if and only if all its secrets are storable |
| Contracts.StoredSessionReads | internal/auth/hostsyml.go:81-161 | the session half of a Store reads back if and only if both tokens are storable |
| Contracts.UntouchedSessionReads | internal/auth/store.go:129-136 | a Store without session shows an older session exactly when one is on record |
| Failures.RefusalIsReportedExactly | internal/auth/store.go:122-137 | a Store reports an unavailable keyring if and only if the keyring refuses a secret that it gets to |
| Failures.FailedStore | internal/auth/ovhconf.go:168-183 | a refused application secret leaves both files alone, the secrets before it written or gone, all other entries untouched |
| Failures.FailedSession | internal/auth/store.go:122-137 | a refused token leaves hosts.yml alone, but ovh.conf replaced in full, all application secrets and the tokens before it written or gone |
| Failures.FailedStoreKeepsStateExactly | internal/auth/store.go:94-97 | after a failing Store, whatever failed, the previous state stands if and only if the secrets dealt with, and ovh.conf if it was replaced, were already as they were to become |
| Failures.FailedStoreReplacesConf | internal/auth/store.go:94-97 | a first login whose refresh token is refused fails and leaves an ovh.conf that was not there |
| Failures.FilesChangeInOrder | internal/auth/store.go:115-137 | a Store succeeds, replaces ovh.conf and replaces hosts.yml if and only if it gets that far, told from the state before, the faults and the credentials |
| Failures.StoreSetsEntries | internal/auth/store.go:122-137 | after any Store exactly the secrets dealt with have their new entries, of both halves |
| Contracts.StoreMerges | internal/auth/store.go:115-126 | a Store keeps the value of every key that is not its own, in every section of the file that was read |
| Shadowing.StoreKeepsSectionExactly | internal/auth/store.go:90-92 | the canonical file keeps another region's section if and only if the file that was read agrees on it, as it does when that is the canonical file |
| Shadowing.StoreKeepsSettingExactly | internal/auth/store.go:90-92 | likewise each value of the settings |
| Shadowing.DeleteKeepsSectionExactly | internal/auth/store.go:168-176 | likewise for a Delete |
| Shadowing.OtherRegionIsLost | internal/auth/store.go:90-92 | a Store and a Delete for one region that drop another one from the canonical file |
| Shadowing.StoredIsNotLoaded | internal/auth/store.go:115-137 | a Store behind ./ovh.conf that is not what is loaded |
| Shadowing.DeletedIsStillLoaded | internal/auth/store.go:140-177 | a Delete behind ./ovh.conf after which the region still loads |
| Contracts.SessionMerges | internal/auth/hostsyml.go:116-161 | writing a session keeps every other entry of hosts.yml, and the account fields of its own |
| Failures.DeleteInOrder | internal/auth/store.go:152-177 | whatever fails, exactly the five entries of the profile that the keyring lets go are gone; ovh.conf changes only in a Delete that succeeds |
| Contracts.DeleteUnconfigures | internal/auth/store.go:140-177 | after a Delete no profile of the region is configured, except exactly behind a file in front of the written one for profiles that this file and the remaining sessions serve; sessions and tokens of other profiles are untouched |
| Contracts.DeleteTwice | internal/auth/store.go:149-177 | a second Delete changes nothing, even one that fails, whichever file is active |
| RefreshOutcome.RefreshReturnsExactly | internal/auth/oauth.go:207-238 | a refresh returns the renewed credentials if and only if there were a refresh token, an issuer and new tokens and their Store got through, and else exactly the error of the step that failed |
| RefreshOutcome.RefreshLeavesExactly | internal/auth/oauth.go:207-238 | without new tokens a refresh changes nothing, with new ones it leaves exactly what their Store leaves |
| Refreshing.RefreshStores | internal/auth/oauth.go:207-238 | a refresh succeeds only over stored credentials with a refresh token, and then is a successful Store of the refreshed ones |
| Refreshing.RefreshIsDurable | internal/auth/oauth.go:207-238 | Load after a successful refresh returns the returned credentials, shadowed or not; a reply without refresh token keeps the old one (section 6 of RFC 6749) |
| Refreshing.RefreshIsDurableExactly | internal/auth/oauth.go:207-238 | without any assumption: it does if and only if the Store of the refreshed credentials round-trips |
| Refreshing.RefreshIsFramed | internal/auth/oauth.go:207-238 | Load of every other region or profile is unchanged by a refresh, sibling profiles that share the client secret included |
| Refreshing.StoreWritesNoEmpty | internal/auth/ovhconf.go:168-183 | no Store, even a failing one, puts an empty secret into the keyring |
| RefreshRace.NoRefreshTokenRollsBack | internal/auth/oauth.go:190-238 | in keyring mode, under every interleaving of concurrent refreshes, failures and lost file updates included, each exchange sends the token left by the last refresh of its key that reached the keyring |
| RefreshLoads.LoadsAfterAnyRun | internal/auth/oauth.go:184-238 | after every such run each key that could be refreshed still loads: the same application, the refresh token last left, no access token or the one last saved, an expiry it had or was once given |
| RefreshLoads.StepKeepsApp | internal/auth/oauth.go:207-238 | no step of any refresh makes the application credentials of the region unreadable or different |
| RefreshLoads.StepKeepsTokens | internal/auth/hostsyml.go:116-161 | no step leaves a token's placeholder, on disk or in a snapshot, without an entry |
| RefreshRace.StepKeepsInv | internal/auth/oauth.go:207-238 | every step of every refresh keeps the keyring entry of each key equal to the last token left for it |
| RefreshRace.LoadFindsEntry | internal/auth/store.go:82-86 | with placeholders in hosts.yml, Load finds the token that is in the keyring now |
| RefreshRace.StaleSnapshotRestores | internal/auth/hostsyml.go:116-161 | the file update that is lost: a refresh that read hosts.yml before another replaced it puts the other's old entry back |
| Rollback.FileModeRollsBack | internal/auth/oauth.go:190-238 | in file mode, from any idle state with two profiles that can be refreshed, a run in which a key is left with a new token and its next exchange sends the old one |
| Rollback.LostWriteRollsBack | internal/auth/oauth.go:190-238 | in keyring mode with a plain token in hosts.yml one failing hosts.yml write is enough |
| RollbackExactly.RollsBackExactly | internal/auth/oauth.go:184-238 | some run of concurrent refreshes rolls a refresh token back if and only if: keyring mode with a plain token left over, or file mode with two refreshable keys, and ovh.conf can be written |
| RollbackExactly.NoneRollsBack | internal/auth/oauth.go:184-238 | from every other state no run does |
| RollbackExactly.StepKeepsBase | internal/auth/oauth.go:207-238 | no step touches the session of a key that could not be refreshed from the start, or the storage mode |
| RollbackExactly.FileWorldRollsBack | internal/auth/oauth.go:190-238 | an instance with two logins kept in plain text |
| RollbackExactly.SwitchedWorldRollsBack | internal/auth/oauth.go:190-238 | an instance in keyring mode, with the plain texts of an earlier file mode |
| RefreshRace.SoloRunIsRefresh | internal/auth/oauth.go:207-238 | every successful refresh on its own is a run of the step machine with the same result |
| RefreshRace.RefreshRuns | internal/auth/oauth.go:207-238 | so it is beside refreshes of other keys that stand still |
| RefreshSteps.RefreshIsRun | internal/auth/oauth.go:207-238 | every refresh, whatever is answered and whatever fails, is a run of its own steps beside other refreshes that stand still |
| RefreshSteps.RunIsRefresh | internal/auth/oauth.go:207-238 | every run of a single refresh to its end does what the operation does under some answer and some refused entries, without error if and only if it replaced hosts.yml |
| SchemaCache.OpensExactly | internal/schema/cache.go:39-108 | the cache opens with exactly the meta and services of files that fit version and region in a private directory, and fails with exactly the error of what does not |
| SchemaCache.RefreshLeavesExactly | internal/schema/refresh.go:46-146 | directory, spec and meta after every answer and failure: only a body under status 200 reaches the spec, a 304 dates the meta anew and gives it the tag that came with it, if any |
| SchemaCache.RefreshedOpensExactly | internal/schema/refresh.go:31-36 | after a refresh without error the cache opens, dated now and stale after a day, if and only if a mode or, after a 304, the earlier state allowed it |
| SchemaCache.OldVersionStaysClosed | internal/schema/refresh.go:68-72 | after a 304 files of another version stay closed although the refresh reports success |
| SchemaCache.RefreshFailsExactly | internal/schema/refresh.go:46-74 | each error of a refresh if and only if its own condition holds: an answer that is neither a 304 nor a body under status 200, a directory or file on the way that cannot be written, no meta to touch |
| SchemaCache.ErrorKeepsFilesExactly | internal/schema/refresh.go:31-36 | a refresh with an error leaves the meta alone, and the spec if and only if no fresh data got to be written or they are what was there |
| SchemaCache.ErrorCanReplaceSpec | internal/schema/refresh.go:78-108 | an instance of a refresh with an error that replaced the spec |
| SchemaCache.SchemaDir.RefreshFrom | internal/schema/refresh.go:46-74 | the new directory for every answer and every failing write |
| SchemaCache.SchemaDir.WriteFresh | internal/schema/refresh.go:78-108 | the meta is replaced only after the spec, each whole or not at all |
| SchemaCache.SchemaDir.RewriteMetaFetchedAt | internal/schema/refresh.go:127-146 | only date and tag of the meta change, the spec never |
| RefreshProtocol.CacheStaysAvailable | internal/schema/refresh.go:46-146 | with any number of refreshers stopping anywhere: a meta on disk means a cache that opens, and once it opened or any refresh succeeded it opens ever after |
| RefreshProtocol.StepKeepsAvailable | internal/schema/refresh.go:78-146 | every step keeps a meta accompanied by a valid spec of this version and region |
| RefreshProtocol.NotModifiedIsSound | internal/schema/refresh.go:60-73 | with one refresher at a time and tags never reused, a 304 (sections 13.1.2 and 15.4.5 of RFC 9110) finds upstream's current index in the untouched spec |
| RefreshProtocol.CompletedIsCurrent | internal/schema/refresh.go:60-108 | with one refresher at a time, a refresh that returns without error leaves spec and tag of the index version it was told |
| RefreshProtocol.StepKeepsSound | internal/schema/refresh.go:46-146 | with one refresher at a time every step keeps the tag on disk no newer than the spec |
| RefreshProtocol.CrossingGoesStale | internal/schema/refresh.go:78-108 | two crossing refreshers reach a state in which upstream may answer 304 over an outdated spec |
| RefreshProtocol.SoundExactly | internal/schema/refresh.go:46-146 | every 304 of every run with at most n refreshers at once finds upstream's current index if and only if n is at most one |
| RefreshProtocol.SoloRunIsRefresh | internal/schema/refresh.go:46-74 | every refresh without error on its own is a run of the step machine with the same result |
| ProtocolSteps.RefreshIsRun | internal/schema/refresh.go:46-146 | every refresh, whatever is answered and whatever fails, is a run of its own steps beside other refreshers that stand still |
| ProtocolSteps.RunIsRefresh | internal/schema/refresh.go:46-146 | every run of a single refresher to its end does what a refresh without error does under its answer |
| FanOut.Progress | internal/schema/fetch.go:75-92 | no schedule gets stuck or runs forever with at most eight fetches in flight |
| FanOut.RunKeepsInv | internal/schema/fetch.go:75-92 | along every schedule each recorded path has the result of a fetch of its own, and each finished fetch is recorded |
| FanOut.DoneIsComplete | internal/schema/fetch.go:72-92 | a finished schedule has exactly one entry per listed path: the service as a fetch of that path decoded it, or its error text and nothing else; where repeated paths agree it is the result of each |
| FanOut.ScheduleIndependentExactly | internal/schema/fetch.go:72-92 | the service map is the same under all schedules if and only if entries with the same path agree on their result |
| FanOut.Collector.Collect | internal/schema/fetch.go:72-92 | under any scheduler the loop ends with such a map |
| FanOut.Collector.Record | internal/schema/fetch.go:79-90 | a goroutine's last step records the service or the error text under its own path, touches no other and frees its place |
| Querier.CollectPaths | internal/schema/querier_impl.go:54-67 | in whatever order maps are walked: ascending, each matching path once for every declaration, nothing else |
| Querier.ListingIsUnique | internal/schema/querier_impl.go:54-67 | the answer does not depend on the order in which maps are walked |
| Querier.SearchFiltersPaths | internal/schema/querier_impl.go:47-52 | Search is Paths filtered by the prefix, and a contiguous block of it |
| Querier.ListedExactly | internal/schema/querier_impl.go:47-67 | a path is listed exactly when a service declares it and it has the prefix |
| Querier.LookupPath | internal/schema/querier_impl.go:38-45 | finds a description exactly when some service declares the path, one of that path |
| Querier.DescribeIsDeterminedExactly | internal/schema/querier_impl.go:34-45 | the description is independent of the order of the walk if and only if all declaring services describe the path alike |
| Querier.DescribesListedPaths | internal/schema/querier_impl.go:34-48 | Describe succeeds exactly on the members of Paths |
| Querier.HasPath | internal/schema/querier_impl.go:25-32 | a method is only had by declared paths, looked up in upper case, whatever function folds to it |
| Querier.HasPathIsDeterminedExactly | internal/schema/querier_impl.go:25-32 | HasPath is independent of the order of the walk if and only if all declaring services agree on the method |
| Querier.HasPathAgreesWithDescribe | internal/schema/querier_impl.go:25-36 | where they agree, HasPath agrees with Describe in any letter case of the method |
| Querier.DescribedIsFoundExactly | internal/schema/querier_impl.go:25-36 | a described method is had under its own name if and only if its upper-case form is described |
| Diff.Compare | internal/schema/diff.go:16-36 | in whatever order maps are walked, three strictly ascending lists: paths of both, of a alone, of b alone |
| Diff.SetOf | internal/schema/diff.go:38-44 | the set of a list, repetitions dropped |
| Diff.DiffDependsOnPathsOnly | internal/schema/diff.go:16-44 | the difference depends on neither order nor repetition of the inputs nor on the order of the walk |
| Diff.DiffSwaps | internal/schema/diff.go:16-36 | comparing the other way round swaps the two one-sided lists |
| Diff.DiffRecovers | internal/schema/diff.go:16-36 | either list, sorted and without repetition, is recovered from the difference |
| Diff.EmptyDiffExactly | internal/schema/diff.go:16-36 | nothing is one-sided if and only if both declare the same paths |
| Diff.DiffComparesDeclarations | internal/schema/diff.go:14-36 | over two caches the difference compares what their services declare |
| Ordering.SortedIsUnique | internal/schema/querier_impl.go:65 | sorting has one result, whatever the order of its input |
| Ordering.BelowExactly | internal/schema/querier_impl.go:65 | strings are ordered by their first difference, a prefix first |
| Ordering.SortSorts | internal/schema/diff.go:32-34 | sorting gives an ascending permutation |
| Poll.PollUntilValidated | internal/auth/flow.go:167-208 | stops at the first attempt that succeeds, ends after the deadline or is followed by a cancellation, with that verdict, at that time, after exactly the scheduled waits |
| Poll.DelayIsCapped | internal/auth/flow.go:201-206 | the wait after attempt i is 2 seconds doubled i times, at most 30 seconds |
| Poll.FirstDelays | internal/auth/flow.go:18-25 | the waits are 2, 4, 8, 16 and then always 30 seconds |
| Poll.SleptExactly | internal/auth/flow.go:18-25 | the exact sum of the waits |
| Poll.TimeAddsUp | internal/auth/flow.go:181-208 | an attempt starts after the waits before it and the time that attempts and late timers took |
| Poll.ReturnsExactly | internal/auth/flow.go:181-208 | no attempt before the last succeeded, ended late or was followed by a cancellation; the last did, in this order of precedence, and with that verdict and time the loop returns |
| Poll.AttemptsAreBounded | internal/auth/flow.go:167-208 | the number of attempts is bounded by the timeout alone, by 25 for ten minutes |
| Poll.InstantFailures | internal/auth/flow.go:167-208 | instant failures make exactly 25 attempts and time out at 630 seconds |
| Poll.ReturnsInTime | internal/auth/flow.go:192-208 | returns within one capped wait and one attempt of the deadline, and times out only after it |
| Poll.ValidationIsSeen | internal/auth/flow.go:181-208 | a validation that leaves room for one attempt before the deadline is seen, within one capped wait and two attempts |

## Left out

- INI, YAML and JSON syntax: files are maps and writing them out and parsing them back is taken as lossless; this leaves out comments, interpolation, child sections with dots and the `DEFAULT` section's inheritance.
- Atomic replacement of a file, durability and directory creation by library calls are taken as given: a write replaces the file as a whole or fails. File modes are reduced to safe and unsafe; the mode of `ovh.conf` is not looked at when it is read, so it is not modelled.
- The network: HTTP, TLS, token endpoint discovery, go-ovh signing and the token exchange appear as replies that may be anything. Of a region's OAuth2 settings only whether it has an issuer is modelled.
- Hashing, PKCE and random states: the schema hash is an input; no code compares it on opening.
- Host checks (`ValidateHost`, `assertHostAllowed`): single checks over a URL parser. The fetch of the index starts after them.
- The loopback server, the browser, prompts, commands, flags, configuration paths and exit codes.
- Panics on empty regions: they are preconditions of the methods (`region != ""`).
- `time.Time` values are integers with 0 as the zero time; an instant that is zero in another location is not modelled. The clock is an input.
- The credential structure's accessor functions are written out as lists of key and value; the registry of regions is reduced to its identifiers.
- The prefix "auth:" texts and the wrapping of errors: an error is one of a list of causes.
- The services that a fetch collects enter `SchemaCache` as an input; `FanOut` says how they come about. Cancellation of a fetch shows as failed services.
- Nil and empty slices of Go are both the empty sequence.
- Strings are sequences of characters compared by character; UTF-8 encoding keeps that order.
- HistoriesRefineTheVault: histories of operations that succeed; failing ones are covered by StoreLeavesExactly, DeleteLeavesExactly, StepDanglesExactly and OtherRegionsAreInvisible instead.
- ShadowedStaysActive: the four candidate files are taken to be different files. Run inside the directory of the canonical file, `./ovh.conf` is the file that is written; that state is not modelled.
- RollsBackExactly: assumes no empty keyring entry, in file mode no secret that starts with `keyring:`, and no such refresh token in a reply.
- LoadsAfterAnyRun: assumes that token replies have an access token, as the OAuth2 library ensures, and placeholders alone for the tokens at the start; says that the expiry may be an earlier one.
- NoRefreshTokenRollsBack: Load, the reading of ovh.conf and each file replacement are one step each; coalescing holds within one process only, and Stores or Deletes by others at the same time are not part of the run.
- RefreshIsDurable: assumes a keyring that is reachable and has no empty entries, and in file mode no secret that starts with `keyring:`; RefreshIsDurableExactly assumes a reachable keyring only.
- NotModifiedIsSound: for one refresher at a time; SoundExactly shows that it fails for more.
- PollUntilValidated: starts after the go-ovh client was built; a client that cannot be built makes no attempt. When the timer and the cancellation are ready together either may win, as the script says.
- Compare: takes the two path lists, not the two caches; DiffComparesDeclarations connects them.
