# Verified model of SatOIDC

SatOIDC is an OpenID Provider. This project models the logic it adds to its libraries and proves
what that logic is for:

- **Signing keys** (`OidcKeys`, `OidcRotation`, `IdTokenEncoder`). The key table and its audit log
  under creation, activation, rotation, retirement and bootstrap; a transition system in which
  administrators, verifiers and signers interleave in any order, with signing split into reading a
  key and stamping a token; and the pinning of one key configuration while a token is encoded.
- **LNURL-auth** (`Lnurl`, `LnurlProtocol`, `LnurlAgreement`). Accounts, challenges, pages, the
  temporary store and sessions; callbacks as interleaved transactions that fix their cutoff, wait
  for the row, lock the claimed challenge and then commit or roll back.
- **Permissions** (`Permissions`, `PermissionHistory`). The queries under three-valued logic, and
  the request services over whole runs.
- **Clients** (`Text`, `ClientMetadata`, `ClientRecord`). The text fields of the dialogs, their
  validation, the round trip through the edit dialog, and the life of a client record.
- **Grants** (`Grants`). Authorization codes and refresh tokens over whole runs.
- **Payload** (`Payload`). The loader that overlays the query with the cached body.

## How it is built

A state-changing part of the program is a class whose fields are assigned in place; every method
equates its new state with a function on values. Those functions are also the steps of a
transition system, `Run` folds them over an arbitrary sequence of steps, and the main lemmas speak of
every sequence. Rows of the key table are objects, changed one by one in loops; other tables are
fields of sequence or map type.

Time is counted in microseconds where the program uses datetimes or `time.time()`, and in whole
seconds, rounded down, where it uses `int(time.time())`. Token life time, cache time and margin are
fixed, non-negative parameters. Fresh values (key material, k1, nonces, ids, secrets, tokens) are
parameters of the steps; a repeated one is refused as the database's constraint does. The signature
check and the URL check are function parameters.

Where the code and its documentation disagree, or a promise holds under a condition only, the model
follows the code and states the condition:

- `specs/flows/lnurl-auth.md` says that a callback consumes its challenge even when the signature is
  invalid. The consuming update is rolled back on every error return, so it does not:
  `LnurlProtocol.BadSignatureSpendsNothing`, and `LnurlProtocol.ConsumedExactlyBySuccess` says what
  does consume it.
- The life time of a challenge is compared with the moment the callback arrives, before its update
  waits for the row. A commit can be later than the life time by as much as the callback takes, and
  by no more: `LnurlProtocol.LifeTimeBoundIsExact`, with the failing run in `LnurlProtocol.LateCommit`.
- `specs/flows/token-lifecycle.md` says that retired keys stay available through the key set. Only
  active and validating keys are published: `OidcKeys.PublishedExactly`.
- An in-flight signer is safe only for a bounded time. The exact bound is C + M:
  `OidcRotation.GapBoundIsExact`.
- A challenge of action `auth` can succeed repeatedly: `LnurlProtocol.OnlyAuthCanRepeat`.
- Only developer requests are protected against a second approval:
  `PermissionHistory.ApprovedOnceOnlyForDevelopers`.
- A zero stamp reads as "not revoked" and "not disabled", so single use and the disabled flag need a
  clock past the epoch: `Grants.SingleUseNeedsAClock`, `ClientRecord.TogglesNeedAClock`.

## Model

| member | source | states |
|---|---|---|
| OidcKeys.KeyStore.CreateSigningKey | satoidc/satoidc/auth/oidc_keys.py:83-98 | appends one new row and its audit events, or changes nothing when the kid exists |
| OidcKeys.CreationLaw | satoidc/satoidc/auth/oidc_keys.py:83-98 | creation fails exactly for a known kid; otherwise one row with these timestamps and these events in the actor's name are appended |
| OidcKeys.KeyStore.EnsureActiveSigningKey | satoidc/satoidc/auth/oidc_keys.py:101-108 | returns the first active row, created only when there is none |
| OidcKeys.BootstrapLaw | satoidc/satoidc/auth/oidc_keys.py:101-108 | nothing changes while a row is active; otherwise an active row is created in the system's name |
| OidcKeys.KeyStore.GetActiveJwtConfig | satoidc/satoidc/auth/oidc_keys.py:111-120 | all fields of the configuration come from the first active row and the settings |
| OidcKeys.KeyStore.GetJwks | satoidc/satoidc/auth/oidc_keys.py:130-138 | the kids returned are the published ones of the table after the bootstrap |
| OidcKeys.PublishedExactly | satoidc/satoidc/auth/oidc_keys.py:133-137 | a kid is in the key set exactly when some row with it is active or validating |
| OidcKeys.PublishedInCreationOrder | satoidc/satoidc/auth/oidc_keys.py:136 | the key set lists kids in the order in which their rows were created |
| OidcKeys.KeyStore.ActivateSigningKey | satoidc/satoidc/auth/oidc_keys.py:141-171 | the in-place loop yields the specified table and log; unknown and retired kids are refused with no change |
| OidcKeys.ActivationLeavesExactlyOne | satoidc/satoidc/auth/oidc_keys.py:152-167 | from any table with distinct kids, however many rows were active, exactly the activated kid is active afterwards and no row is lost |
| OidcKeys.ActivationLaw | satoidc/satoidc/auth/oidc_keys.py:141-171 | activation succeeds exactly for a known kid that is not retired; every row is described field by field, every demotion has one event by the actor in row order, and the last event is the activation |
| OidcKeys.KeyStore.RotateSigningKey | satoidc/satoidc/auth/oidc_keys.py:174-176 | creation followed by activation of the new key, two transactions |
| OidcKeys.KeyStore.RetireExpiredSigningKeys | satoidc/satoidc/auth/oidc_keys.py:179-194 | the in-place loop yields the specified table and log and returns the number of expired rows |
| OidcKeys.RetirementIsExact | satoidc/satoidc/auth/oidc_keys.py:182-194 | exactly the rows whose retention is over become retired, stamped with this moment, with one event each by the actor; every other row is untouched, a second pass at the same moment does nothing |
| OidcRotation.RotationSafety | satoidc/satoidc/auth/oidc_keys.py:41-47 | in every run, a token signed without a gap has its kid in the key set at every moment up to exp + C + M |
| OidcRotation.InFlightSafety | satoidc/satoidc/auth/oauth2.py:238-246 | in every run, a token whose signer held its key for at most C + M has its kid in the key set at every moment up to exp |
| OidcRotation.PublishedWhileRetained | satoidc/satoidc/auth/oidc_keys.py:130-194 | in every run, every issued token's kid is published until T + C + M after its key was read |
| OidcRotation.GapBoundIsExact | satoidc/satoidc/auth/oauth2.py:216-225 | tokens signed a given gap after the key was read keep their kid published up to exp in all runs if and only if the gap is at most C + M |
| OidcRotation.TableInvariant | satoidc/satoidc/auth/oidc_keys.py:83-194 | in every reachable state: distinct kids, at most one active key, each status fixes its timestamps, the audit log replays to exactly the table's statuses, and every prefix of the log replays to at most one active key |
| OidcRotation.NeverZeroAgain | satoidc/satoidc/auth/oidc_keys.py:101-108 | once some key is active, every later state has an active key |
| OidcRotation.RetirementIsFinal | satoidc/satoidc/auth/oidc_keys.py:149-150 | a retired row stays exactly as it is under every further sequence of steps |
| OidcRotation.RotationCompletes | satoidc/satoidc/auth/oidc_keys.py:174-176 | whatever runs between the two transactions of a rotation, the second succeeds if it starts within T + C + M, and leaves the new key as the only active one |
| OidcRotation.StepsLaw | satoidc/satoidc/auth/oidc_keys.py:83-138 | creation waits in validation, a fetch or a reading leaves an active key and the reader holds it from now on, giving up forgets one signer |
| IdTokenEncoder.OpenIDCode.EncodeIdToken | satoidc/satoidc/auth/oauth2.py:238-246 | for every script of hook calls, key operations of others and exceptions: one answer for each call in order, all from the row that was active on entry, claims issued in the second of their own call; the context variable is restored on every exit, and the recorded signatures grow by exactly that row's kid if the token was encoded and by nothing otherwise |
| IdTokenEncoder.OpenIDCode.EncodeWithHooks | satoidc/satoidc/auth/oauth2.py:210-233 | any number and order of hook calls with key operations in between are answered, each by its own kind and for its own client and second, from the pinned configuration's one row |
| IdTokenEncoder.EncodedTokenStaysPublished | satoidc/satoidc/auth/oauth2.py:216-233 | in every run of the rotation system, the kid in the encoded header is published up to the encoded exp for a signer that held its key for at most C + M, and up to exp + C + M for one that signed at once |
| IdTokenEncoder.OpenIDCode.CurrentConfig | satoidc/satoidc/auth/oauth2.py:39-43 | the pinned configuration, or the first active row's when nothing is pinned |
| Lnurl.AuthServer.LnurlAuthCallback | satoidc/satoidc/routes/lnurl_auth.py:21-112 | the request said of the rows: each refusal with its reason and no change, auth with no change, and otherwise the account table row by row, the challenge consumed for the key's owner, and the event |
| Lnurl.CommitLaw | satoidc/satoidc/routes/lnurl_auth.py:54-103 | a commit keeps the accounts sound, consumes exactly its own challenge for the key's owner, and changes the account table as follows: link sets the key in the challenge's user's row alone, login nothing, register nothing for a known key and else one row with this key and no password |
| Lnurl.RefusalLaw | satoidc/satoidc/routes/lnurl_auth.py:43-92 | which reason a refused callback gives, told from the rows |
| Lnurl.CommitsExactly | satoidc/satoidc/routes/lnurl_auth.py:47-106 | a claimed callback commits if and only if the action is the challenge's, the signature verifies, and the accounts allow what that action does with the key; never for auth |
| LnurlProtocol.CallbackIsItsSteps | satoidc/satoidc/routes/lnurl_auth.py:26-112 | the uninterrupted callback equals an arrival, a claim and an end |
| LnurlProtocol.SingleSuccess | satoidc/satoidc/routes/lnurl_auth.py:26-44 | in every interleaving, at most one register, login or link callback succeeds per challenge, having arrived within its life time, with a valid signature, ending with the key's owner as the reported user |
| LnurlProtocol.LifeTimeBoundIsExact | satoidc/satoidc/routes/lnurl_auth.py:26-38 | for each action: in all runs, callbacks that take at most a given time from the cutoff to the end succeed within the life time and a given slack more, if and only if that time is at most the slack |
| LnurlProtocol.LateCommit | satoidc/satoidc/routes/lnurl_auth.py:26-67 | for each action and every duration there is a run whose only success ends exactly that long after the challenge's life time |
| LnurlProtocol.ConsumedExactlyBySuccess | satoidc/satoidc/routes/lnurl_auth.py:29-40 | in every reachable state a challenge is consumed if and only if a register, login or link callback has succeeded on it |
| LnurlProtocol.FailedCallbackSpendsNothing | satoidc/satoidc/models/database.py:12-14 | in every reachable state, ending a callback that may not commit leaves the whole server as it was, and a retry on the challenge consumes it if and only if it has not expired and the retry itself may commit |
| LnurlProtocol.BadSignatureSpendsNothing | satoidc/satoidc/routes/lnurl_auth.py:46-48 | in every reachable state, ending a callback with an invalid signature leaves the challenge unconsumed, and a valid retry in time succeeds on it |
| LnurlProtocol.OnlyAuthCanRepeat | satoidc/satoidc/routes/lnurl_auth.py:104-106 | from any sound account table, no challenge of an action succeeds twice in any run if and only if the action is not auth |
| LnurlProtocol.AccountsStaySound | satoidc/satoidc/models/__init__.py:37-46 | through registration, LNURL registration, link, relink, unlink and password change: no two users share a key or an id, and every user has a password or a key |
| LnurlProtocol.AccountStepsLaw | satoidc/satoidc/routes/profile.py:212-265 | registration, password change and unlinking change exactly one row as told, every other step outside the callback none |
| LnurlProtocol.NewChallengesAreFresh | satoidc/satoidc/routes/profile.py:281-287 | a challenge that any step adds is unused, stamped with the moment of the step, for the action and user it was asked for |
| LnurlProtocol.AbortReleases | satoidc/satoidc/models/database.py:12-14 | an aborted callback releases the challenge to one that waits, which is then decided by the cutoff of its own arrival |
| LnurlProtocol.OnlyOwnSessionChanges | satoidc/satoidc/routes/login.py:66-97 | no step changes a session other than the one it belongs to |
| LnurlAgreement.Agreement | satoidc/satoidc/routes/login.py:152-167 | every entry of a user into a session goes back to a successful login or register callback on a challenge shown by the page with that session's nonce, for the owner of the signing key; each such callback gives at most one entry |
| LnurlAgreement.LoginCompletes | satoidc/satoidc/routes/login.py:152-167 | in every run: when a callback may commit on the challenge that a page shows under a session's nonce, its end, the handling of its event and the redirect put the owner of the signing key into that session, whatever runs in between that leaves the session and the page alone |
| LnurlAgreement.EntriesHappened | satoidc/satoidc/routes/login.py:273-281 | every recorded entry of every run is one redirect of its session, right after which its user is in that session |
| LnurlAgreement.RedirectChangesAreEntries | satoidc/satoidc/routes/login.py:273-281 | if a redirect changes a session's user, that change is one traceable entry of this session under its own nonce |
| LnurlAgreement.OnePageShows | satoidc/satoidc/routes/login.py:108-114 | at any two moments of any run, the pages that show a challenge are one and the same, under the same nonce and session, so an event is stored under at most one nonce |
| LnurlAgreement.SessionUsersAreTraceable | satoidc/satoidc/routes/login.py:66-97 | in every reachable state, whoever is in a session was put there by a traceable redirect, an accepted password form under the session's nonce, or a registration in it, and has been in it since |
| LnurlAgreement.EnteringWorks | satoidc/satoidc/routes/register.py:95-105 | conversely, each such redirect, accepted form and registration does put its user into the session |
| Lnurl.AuthServer.RenderPage | satoidc/satoidc/routes/login.py:149-157 | a page for a logged-out session gets the new nonce, and the session too; for a logged-in one nothing changes; no other session's nonce and nobody's user changes |
| Lnurl.AuthServer.RefreshQrcode | satoidc/satoidc/routes/register.py:116-122 | commits a new challenge of the page's action and shows it |
| Lnurl.AuthServer.HandleEvent | satoidc/satoidc/routes/register.py:166-170 | stores the event's user under the nonces of the pages that show its challenge and leaves every other entry |
| Lnurl.AuthServer.LnurlRedirect | satoidc/satoidc/routes/login.py:273-281 | the session's user becomes the user stored for its nonce, if there is one, and stays otherwise; that entry leaves the store, no other entry, session or nonce changes |
| Lnurl.AuthServer.PasswordLogin | satoidc/satoidc/routes/login.py:66-97 | the session's nonce is used up in any case; the user becomes the accepted account exactly under the expected nonce, and stays otherwise |
| LnurlProtocol.PasswordFormWorksOnce | satoidc/satoidc/routes/login.py:66-76 | a password form logs in only under the session's nonce; however the run goes on, no later form or redirect changes the session's user until a page is opened for the session |
| Lnurl.AuthServer.Register | satoidc/satoidc/routes/register.py:95-105 | a new id adds one row with this password hash and no key and logs only this session in; a taken id changes nothing; the accounts stay sound |
| Lnurl.AuthServer.ChangePassword | satoidc/satoidc/routes/profile.py:226-228 | row by row: one user's password hash and nothing else changes; the accounts stay sound |
| Lnurl.AuthServer.UnlinkWallet | satoidc/satoidc/routes/profile.py:254-263 | row by row: one user's key is removed, only if that user has a password; the accounts stay sound |
| Permissions.QueriesPartition | satoidc/satoidc/auth/permissions.py:276-300 | for every table and moment the active and the inactive condition split the rows, under three-valued logic |
| Permissions.GuardsAgree | satoidc/satoidc/auth/security.py:29-73 | is_authorized with developer or admin in mode any, has_developer_access and the dashboard's query admit the same users |
| Permissions.AuthorizationLaw | satoidc/satoidc/auth/security.py:29-53 | who is admitted in mode all and in mode any, ROOT always, and that no other mode is known |
| Permissions.AuthorizationIsMonotone | satoidc/satoidc/auth/security.py:29-53 | holding more permissions never loses access |
| Permissions.MetricCountsAdmittedUsers | satoidc/satoidc/auth/permissions.py:276-282 | the developer-access metric is the number of users the developer pages would admit |
| Permissions.PermissionService.CreatePermissionRequest | satoidc/satoidc/auth/permissions.py:87-122 | refuses a developer request if and only if an active row gives developer access; otherwise the returned request is a pending one of the pair and every earlier request stays |
| Permissions.PermissionService.ApprovePermissionRequest | satoidc/satoidc/auth/permissions.py:164-212 | decides a pending request and grants its permission, touching no other request and no other pair's row; a decided one is returned unchanged |
| Permissions.PermissionService.DenyPermissionRequest | satoidc/satoidc/auth/permissions.py:215-236 | decides a pending request with the actor, the moment and the cleaned words, changes no permission and no other request |
| Permissions.GrantReasonLaw | satoidc/satoidc/auth/permissions.py:177-202 | the reason of a grant is the decider's words without surrounding white space, or the standing note when there are none |
| Permissions.PermissionService.CancelPermissionRequest | satoidc/satoidc/auth/permissions.py:239-257 | cancels the requester's own pending request and changes nothing else |
| PermissionHistory.TableEqualsHistory | satoidc/satoidc/auth/permissions.py:177-202 | after any run from any table, each pair's row is its initial row overlaid by the pair's most recent approval, and no pair has a second row |
| PermissionHistory.RequestLifecycle | satoidc/satoidc/auth/permissions.py:94-122 | from an empty request table: at most one pending request per pair, decision fields exactly on decided requests, never two approved developer requests of one user |
| PermissionHistory.DecisionsAreFinal | satoidc/satoidc/auth/permissions.py:174-175 | a request that is not pending is frozen in every later state; who asked for what never changes |
| PermissionHistory.RequestsAreTraced | satoidc/satoidc/auth/permissions.py:204-211 | every request of a run was made by a call with its words, and its status, decider, moment and reason are those of the call that settled it |
| PermissionHistory.CallsTakeEffect | satoidc/satoidc/auth/permissions.py:87-257 | every call that is allowed takes effect, and every other leaves all requests as they are |
| PermissionHistory.ApprovedOnceOnlyForDevelopers | satoidc/satoidc/auth/permissions.py:97-103 | two approved requests of one user and type are impossible if and only if the type is developer |
| Text.ParseJoinedLines | satoidc/satoidc/routes/create_client.py:53-58 | parsing the newline-joined lines gives back the lines, for all clean lines |
| Text.ParseDistributes | satoidc/satoidc/routes/create_client.py:53-58 | parsing distributes over a line feed between any two texts, also when it completes a carriage return |
| Text.ParseAtBreak | satoidc/satoidc/routes/create_client.py:53-58 | every line boundary ends a line, whatever follows it |
| Text.KeepLineLaw | satoidc/satoidc/routes/create_client.py:53-58 | a line loses exactly the white space around it and is dropped when nothing is left |
| Text.SplitAtSpace | satoidc/satoidc/routes/create_client.py:66-68 | words are what stands between white space of any kind and amount |
| Text.CleanedLaw | satoidc/satoidc/auth/permissions.py:116-119 | optional words lose the white space around them; nothing but white space counts as none |
| Text.ParsedLinesAreClean | satoidc/satoidc/routes/create_client.py:53-58 | every parsed value is non-empty, stripped and free of line breaks |
| Text.DedupLaw | satoidc/satoidc/routes/create_client.py:68 | same elements, none twice, in the order of their first occurrence |
| ClientMetadata.ScopeIsIdempotent | satoidc/satoidc/routes/create_client.py:66-68 | parsing a parsed scope changes nothing, and splitting it gives the deduplicated words |
| ClientMetadata.UnsupportedLaw | satoidc/satoidc/routes/create_client.py:105-109 | the reported values are exactly the unsupported ones, each once, in ascending order |
| ClientMetadata.BuildClientMetadata | satoidc/satoidc/routes/create_client.py:71-146 | the appending loop and checks yield the specified messages in order, or the normalized metadata |
| ClientMetadata.BuildAcceptsExactly | satoidc/satoidc/routes/create_client.py:93-136 | a form is accepted if and only if its normalized values satisfy the declared rules |
| ClientMetadata.MessagesExactly | satoidc/satoidc/routes/create_client.py:93-136 | a rejected form gets one message for each broken rule and each bad redirect, in the order of the groups of rules, and no others |
| ClientMetadata.IdentityMessages | satoidc/satoidc/routes/create_client.py:93-103 | each broken rule on name, URI and redirects has its own message |
| ClientMetadata.FieldsAreRead | satoidc/satoidc/routes/create_client.py:81-91 | each field of a form is read into its own field of the metadata; missing ones count as empty, an empty method as client_secret_basic |
| ClientMetadata.EditRoundTrip | satoidc/satoidc/routes/dashboard.py:425-458 | for every accepted form, rendering the stored metadata into the edit dialog and rebuilding it gives the same metadata |
| ClientMetadata.StorableExactly | satoidc/satoidc/routes/create_client.py:71-146 | metadata results from some form if and only if it meets the rules and is in printed form: stripped, clean lines, a scope of distinct words joined by one space |
| ClientMetadata.DialogShowsWhatIsStored | satoidc/satoidc/routes/dashboard.py:425-458 | normalizing is idempotent through the dialog for every form, accepted or not |
| ClientRecord.OAuth2Client.Submit | satoidc/satoidc/routes/create_client.py:222-256 | an accepted form becomes a client with the new secret, or with none when the form asks for method none |
| ClientRecord.OAuth2Client.UpdateClientMetadata | satoidc/satoidc/routes/create_client.py:149-176 | replaces the metadata, keeps the disabled and rotated stamps, sets the update stamp; a rejected form changes nothing |
| ClientRecord.OAuth2Client.SaveDialog | satoidc/satoidc/routes/dashboard.py:460-492 | a rejected form changes nothing; an accepted one stores its metadata and clears, keeps or generates the secret, which is shown exactly when it was generated |
| ClientRecord.OAuth2Client.RotateClientSecret | satoidc/satoidc/auth/client_management.py:37-53 | refused exactly for public clients; otherwise the stored secret is the one returned, both stamps are this moment, and nothing else changes |
| ClientRecord.OAuth2Client.ToggleClient | satoidc/satoidc/routes/dashboard.py:531-533 | a disabled client is enabled and an enabled one disabled at this moment; the update stamp is set and nothing else changes |
| ClientRecord.TogglesNeedAClock | satoidc/satoidc/auth/client_management.py:18-34 | the toggles decide the disabled flag in all runs of a new client if and only if the clock starts after the epoch |
| ClientRecord.ClientRecordInvariant | satoidc/satoidc/auth/client_management.py:18-53 | in every run of edits, rotations and toggles: the secret is the one last handed out, or empty for method none; each stamp is the moment of the last operation that sets it; the update stamp bounds the others; the metadata is that of the last accepted form; the client is looked up exactly after an even number of toggles |
| ClientRecord.UntouchedDialog | satoidc/satoidc/routes/dashboard.py:460-492 | saving a dialog that shows the stored metadata changes only the update stamp |
| ClientRecord.SecretChangesOnlyAtTheBoundary | satoidc/satoidc/routes/dashboard.py:475-481 | an edit changes the secret only between public and confidential |
| Grants.GrantStore.QueryAuthorizationCode | satoidc/satoidc/auth/oauth2.py:102-113 | finds a code only for its client and only while it has not expired |
| Grants.GrantStore.AuthenticateRefreshToken | satoidc/satoidc/auth/oauth2.py:137-144 | a token that stands in one row is found if and only if it is unrevoked and within twice its life time |
| Grants.GrantStore.TokenForCode | satoidc/satoidc/auth/oauth2.py:82-117 | succeeds if and only if the code is there, of this client and not older than 300 seconds; then the code is gone and one token row is issued now to its user, and nothing else changes |
| Grants.GrantStore.TokenForRefresh | satoidc/satoidc/auth/oauth2.py:137-152 | succeeds if and only if the token's row is unrevoked, of this client and within twice its life time; then that row is revoked and one is issued now to the same user, and nothing else changes |
| Grants.SingleUse | satoidc/satoidc/models/__init__.py:282-300 | in every run: a code is redeemed at most once, by its client, by auth_time + 300; a refresh token is spent at most once, by issued_at + 2 * expires_in; tokens stay with their code's client and user; one unrevoked refresh token per authorization |
| Grants.RedeemsExactly | satoidc/satoidc/auth/oauth2.py:102-117 | in every run, a code is exchanged if and only if it was issued to this client, has not been redeemed, and is at most 300 seconds old |
| Grants.RenewsExactly | satoidc/satoidc/models/__init__.py:296-300 | in every run, a refresh token is exchanged if and only if it has not been spent, is presented by its client, and is within twice its life time |
| Grants.CodesAreTraced | satoidc/satoidc/auth/oauth2.py:82-100 | every code was saved by an authorization of the run, with its client and user and in its second |
| Grants.RowsAreTraced | satoidc/satoidc/auth/oauth2.py:137-152 | every token row was made by an exchange of the run: its token, client and life time are the exchange's, its second is that of the exchange, its user and authorization are those of what was exchanged |
| Grants.SingleUseNeedsAClock | satoidc/satoidc/auth/oauth2.py:146-152 | no run spends a refresh token twice if and only if the runs start after the first second of the epoch |
| Payload.ParseCachedForm | satoidc/satoidc/fastapi_oauth2/requests.py:33-46 | the loop yields one flattened value for each key that has values |
| Payload.Load | satoidc/satoidc/fastapi_oauth2/requests.py:78-107 | each key's list is the body's when the method is not GET and the body has the key, else the query's; its datum is the head of that list, if any |
| Payload.FormRoundTrip | satoidc/satoidc/fastapi_oauth2/requests.py:40-46 | flattening a form and unflattening it in the loader restores every key's values |
| Payload.FormBodyLaw | satoidc/satoidc/fastapi_oauth2/requests.py:40-46 | each pair of a form gives its key one value as itself, several as their list, none as nothing |
| Payload.FormWinsOverQuery | satoidc/satoidc/fastapi_oauth2/requests.py:97-104 | for a form body the loaded lists are the form's values over the query's, and the query's alone for a GET in any case |
| Payload.JsonWinsOverQuery | satoidc/satoidc/fastapi_oauth2/requests.py:94-104 | for a JSON body the object's values replace the query's key by key; without an object, and for every GET, the query stays |
| Payload.GetListLaw | satoidc/satoidc/fastapi_oauth2/requests.py:85-89 | the values of a key are those of the query, in its order |

## Left out

- Key generation, encryption of private keys, ECDSA, password hashing, bech32: outside libraries; key material is a parameter and the signature check a function.
- Authlib's own checks (client authentication, PKCE, nonce, bearer validation, the revocation endpoint): not part of this repository; only the order of the visible hooks is modelled.
- Rendering, QR codes, notifications, redirects to other pages, the setup wizard, migrations.
- Database isolation: each service function is one atomic step, except that a rotation is two, a callback is an arrival, a claim and an end, and signing is a read and a stamp. Two callbacks that both register one new key at the same moment are serialized; in the database the unique constraint makes one of them fail, which is the step `Abort`.
- Registration, login and e-mail uniqueness, form validation rules, the password comparison: their outcomes are parameters of the steps.
- IdTokenEncoder.OpenIDCode.EncodeIdToken: the encoder's own order of hook calls is not visible, so every order and number is covered; the bytes of the token and the constant header entry typ are not modelled, and other signers' audit events do not interleave here (`OidcRotation` interleaves signers).
- OidcKeys.KeyStore.ActivateSigningKey: a query returns rows in table order, which fixes the order of several demotion events in one activation.
- Deleting clients and users, listing functions, the introspection endpoint, user info, nonce lookup: one-query reads or removals with little to prove.
- Payload.Load: body parsing itself (`parse_qs`, JSON) is given as a multimap and an optional dictionary.
