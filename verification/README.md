# MuninID in Dafny

A model of the state machines behind MuninID, an OAuth 2.0 and OpenID Connect identity provider, with
proofs of what they keep over whole runs. `dafny verify dfyconfig.toml` checks everything.

Everything rests on one clock-driven key-value store (`Kv.dfy`): values or sets with an absolute
expiry, under a clock that never goes back. Its two ways of setting a lifetime round differently, as
go-redis v9 (go.mod) sends them: SET in whole milliseconds, EXPIRE in whole seconds, each at least one.
On it stand, each handler being one atomic step:

- `SessionStore.dfy`, `SessionRefinement.dfy`, `DisciplinedRuns.dfy`, `SessionCodes.dfy`: the token-session
  store the OAuth library calls, its refinement of a single map with revocation by request id, and the life
  of its authorization codes.
- `Provider.dfy`, `ProviderEffects.dfy`, `ProviderAnswers.dfy`, `ProviderRuns.dfy`, `RefreshLineage.dfy`,
  `Lockout.dfy`, `LockoutAttained.dfy`, `ProviderHandlers.dfy`: authorization, login, consent, password change and
  reset, sessions, and the explicit code and refresh engine as one machine; theorems about all its runs;
  and the handlers as methods that change the state step by step, each proved against its step function.
- `AccessTokens.dfy`, `Exchange.dfy`: verification and revocation of access tokens, and token exchange
  (section 2 of RFC 8693) with its policies, chains and audit log.
- `Authz.dfy`, `SelfService.dfy`, `DecisionCache.dfy`: the claims decision point, the client table it
  guards, and the Solutrix client with its cache and service token.
- `Text.dfy`, `Scopes.dfy`, `Base64.dfy`, `Secrets.dfy`, `Hosts.dfy`: the string codecs underneath.

The explicit code and refresh engine is the branch taken when no Fosite provider is set
(internal/idp/provider.go:732 and 801). The shipped wiring always sets one (internal/app/app.go:79-85),
so in a deployment the session store, not the explicit engine, holds codes and refresh tokens; the
login, consent, session, lockout, exchange and revocation parts are shared by both.

## Assumptions

- Handlers run one at a time and storage calls do not fail. Random ids are fresh: no two steps of a run
  draw the same one. Account ids contain no NUL; neither do the fields of a cached decision question.
- SHA-256, AES-GCM, HMAC and RSA are function values with their usual laws (injective; opening inverts
  sealing; a signed token verifies to its claims). Base64url, joins, splits and key renderings are concrete.
- Structured keys and documents stand for rendered keys and JSON; `RenderInjective`,
  `HashedKeysAreValid` and `WiringIsLawful` prove that the renderings keep them apart.
- Replies of the identity backend, the policy query, the decision point and the random source are
  parameters of a step, so every theorem holds for all of them.

## Findings

- The revocation index is not exact even for disciplined callers. A session's record keeps milliseconds of
  its lifetime and its index only seconds, so the index can go up to a second before the record, and a
  revocation in that gap misses it (`StepKeepsRevocationExactIff`, `LoneCreateKeepsExactIff`). With fresh
  signatures, non-empty ids and, per id and kind, deadlines that never go back, every record with at least
  a second left is revoked (`ReachableRevokes`); with whole-second lifetimes, every record
  (`WholeSecondRefinement`).
- The audience of an authorization request does not survive the login detour: the login interaction does
  not store it, although consent interactions do (`DetourKeepsAudienceIff`).
- A stored interaction can be confirmed any number of times, by anyone signed in, for a code each time:
  confirmation neither deletes it nor compares the subject it was recorded for (`ConfirmFinishesIff`,
  `OneRequestManyCodes`).
- Revocation of an access token is permanent exactly when the marker outlasts the second named by `exp`;
  for all issue times that means RefreshTokenTTL, in whole milliseconds, of at least AccessTokenTTL plus
  one second, or none (`RevokedForeverIff`, `RevocationIsPermanent`, `RevocationLapses`). The defaults
  (30 days, 10 minutes) meet it.
- Revocation in the explicit engine does not check whose access token it is, so any client can end any
  accepted token for good (`RevocationTakesEffectIff`, `StrangerRevokesForeverIff`).
- Each exchange grants a fresh full lifetime, so a chain can keep rights alive for ever (`HopRenews`,
  `HopOutlivesIff`, `RightsLastForever`), and the new token survives the revocation of the one it was exchanged for
  (`ExchangedTokenSurvivesRevocation`).
- A lock after n failures admits 2n - 2 failures per window, not n: 8 per source and 38 per user, and runs
  of the provider reach both (`LockoutBound`, `SourceBoundIsAttained`, `UserBoundIsAttained`). The 8 per
  source holds exactly while no user's key equals the per-source key (`SourceBoundIff`); the two families
  meet exactly for the user name `user` and those starting with `user|`, when the whole key is in lower
  case (`FamiliesMeetIff`). 38 holds for every key (`FailuresPerKey`).
- Listing and the read check disagree only on an unowned row with an empty id (`ListedIffReadable`).
- A value that already carries the `enc:v1:` prefix is not sealed, and never opens to itself
  (`EnvelopeRoundTripIff`); one with a nonce of the wrong length makes the cipher panic (`EnvelopePanicsIff`).
- The client_credentials default may grant scopes that are not registered as such when a registered scope
  contains a blank (`DefaultScopesStayRegisteredIff`).

## Model

| member | source | states |
|---|---|---|
| `KvClient.Client.Get` | internal/kv/kv.go:58-66 | a live value, nothing after expiry, an error on another type; equals the step function |
| `KvClient.Client.Set` | internal/kv/kv.go:67-70 | value and deadline replaced, the lifetime in whole milliseconds, no deadline for ttl <= 0, every other key untouched |
| `KvClient.Client.Del` | internal/kv/kv.go:72-77 | exactly these keys removed |
| `KvClient.Client.Exists` | internal/kv/kv.go:79-82 | true exactly while the key is live |
| `KvClient.Client.Pttl` | internal/kv/kv.go:84-88 | time left, -1 without deadline, -2 when absent |
| `KvClient.Client.SAdd` | internal/kv/kv.go:90-103 | adds members to the live set or starts a new one, and always overwrites the deadline, the lifetime in whole seconds |
| `KvClient.Client.SMembers` | internal/kv/kv.go:105-107 | the live set, empty when absent |
| `KvClient.Client.IncrTtl` | internal/kv/kv.go:109-122 | counts up; the window, in whole seconds, is set only when the counter is created |
| `Kv.RoundingsCompared` | internal/kv/kv.go:67-103 | the lifetime SET keeps exceeds the one EXPIRE keeps by less than a second, does not exceed it exactly when it is under a second or less than a millisecond over whole seconds, and is at least as long exactly from one second up |
| `KvLaws.SetThenGet` | internal/kv/kv.go:58-70 | a value is read back exactly until its lifetime is over, for ever without one, and is neither a set nor a counter |
| `KvLaws.SAddThenMembers` | internal/kv/kv.go:90-107 | members accumulate while the set is live, and each addition gives the whole set a new lifetime |
| `KvLaws.SAddKeepsOtherTypes` | internal/kv/kv.go:90-103 | adding to a live key of another type keeps its value, though not its deadline |
| `KvLaws.IncrCounts` | internal/kv/kv.go:109-122 | a counter starts at one, goes on within its window without extending it, and starts anew afterwards |
| `KvLaws.PttlMeans` | internal/kv/kv.go:84-88 | -2 exactly without a live key, -1 only for a key that stays, else the time until it is gone |
| `KvLaws.OtherKeysKept` | internal/kv/kv.go:68-122 | every command leaves all keys alone that it does not name |
| `SessionStore.TtlFor` | internal/fositestore/store.go:331-339 | always positive: time to the deadline, one second when past, the default when there is none |
| `SessionStore.RequestRoundTrip` | internal/fositestore/store.go:291-314 | a stored request reads back unchanged if and only if its session is the provider's own type or the caller supplies that session |
| `SessionStore.HashedKeysAreValid` | internal/fositestore/store.go:405-413 | session keys and index keys are injective and never meet, given an injective hash |
| `SessionStoreObject.TokenStore.CreateSession` | internal/fositestore/store.go:229-260 | the step-by-step write of record and index is the Create step |
| `SessionStoreObject.TokenStore.ReadPersisted` | internal/fositestore/store.go:271-289 | a record past its embedded deadline is deleted and not returned |
| `SessionStoreObject.TokenStore.GetSession` | internal/fositestore/store.go:126-135 | the rebuilt request; an invalidated code is flagged, an unknown client is not found |
| `SessionStoreObject.TokenStore.DeleteSession` | internal/fositestore/store.go:316-318 | removes that record alone; the index keeps its key |
| `SessionStoreObject.TokenStore.RotateRefreshToken` | internal/fositestore/store.go:172-174 | rotation removes the used refresh token |
| `SessionStoreObject.TokenStore.InvalidateAuthorizeCode` | internal/fositestore/store.go:137-144 | the code stays readable until its deadline, marked invalidated |
| `SessionStoreObject.TokenStore.RevokeByRequestId` | internal/fositestore/store.go:320-329 | removes the index and every key it lists |
| `SessionCodes.CodeReadIff` | internal/fositestore/store.go:122-144 | in every run a code reads as good if and only if it is readable, its client known and it was not invalidated since its last create; invalidated it reads as such; in either case with the request it was last created for |
| `SessionCodes.InvalidatedStaysSpent` | internal/fositestore/store.go:131-144 | once a code was invalidated, no run without a new create of it reads it as good |
| `SessionCodes.OtherReadIff` | internal/fositestore/store.go:262-289 | a session of another kind is handed out if and only if it is readable and its client known, never as an invalidated code |
| `SessionCodes.DeadlinePerKind` | internal/fositestore/store.go:374-395 | access and refresh records live by their own deadlines, all others by the code's |
| `SessionCodes.DeadlineIff` | internal/fositestore/store.go:374-395 | a record has a deadline if and only if the session is the provider's own and names a non-zero one for its kind |
| `SessionRefinement.StepKeepsGoodIff` | internal/fositestore/store.go:229-252 | index coverage and soundness survive a step if and only if the step is admissible; for a create that includes that the rounded record deadline is at most the rounded index deadline |
| `SessionRefinement.InadmissibleBreaksGood` | internal/fositestore/store.go:240-250 | every inadmissible create breaks coverage or soundness at once |
| `SessionRefinement.StepKeepsRevocationExactIff` | internal/fositestore/store.go:240-250 | a step keeps revocation by request id exact for all time if and only if it is admissible: non-empty id, no foreign index listing the key, and an index that outlives the new record and every live session of the id |
| `SessionRefinement.LoneCreateKeepsExactIff` | internal/fositestore/store.go:331-339 | a fresh create under a fresh id keeps revocation exact if and only if its lifetime is under a second or less than a millisecond over whole seconds |
| `SessionRefinement.CoverageIffRevokes` | internal/fositestore/store.go:320-329 | for every slack, coverage and soundness up to that slack hold if and only if revocation by any id removes every record with more than the slack left, and no other, now and at every later time |
| `SessionRefinement.StepSimulates` | internal/fositestore/store.go:229-327 | from a good state each operation answers like the one-map specification and keeps the two in step, a revocation sparing at most sessions within the slack |
| `SessionRefinement.Refinement` | internal/fositestore/store.go:229-327 | every admissible run from the empty store answers exactly like the one-map specification |
| `SessionRefinement.RunStaysGood` | internal/fositestore/store.go:229-327 | in every state an admissible run reaches, coverage and soundness hold up to the slack |
| `SessionRefinement.RunStaysGoodIff` | internal/fositestore/store.go:229-327 | without slack, every state of a run from a good state is covered and sound if and only if every step is admissible |
| `DisciplinedRuns.ReachableCovered` | internal/fositestore/store.go:240-250 | in every state that a run with fresh signatures, non-empty ids and non-decreasing deadlines per id and kind reaches, each live access or refresh record is listed by an index that expires less than a second before it, or has less than a second left; with whole-second lifetimes the index outlives it |
| `DisciplinedRuns.ReachableRevokes` | internal/fositestore/store.go:320-329 | in every such state revocation by request id removes every live record of that kind and id with at least a second left, and no record of another id |
| `DisciplinedRuns.DisciplinedRefinement` | internal/fositestore/store.go:229-327 | every such run over the hashed keys answers like the one map, in which a revocation may spare sessions in their last second |
| `DisciplinedRuns.WholeSecondRefinement` | internal/fositestore/store.go:229-327 | when all lifetimes are whole seconds the answers are exactly those of the one map |
| `SessionStoreRuns.Serve` | internal/fositestore/store.go:122-212 | calls on the store object, one after the other, are a run of the step function |
| `SessionStoreRuns.ServeDisciplined` | internal/fositestore/store.go:60-65 | a new store object, called with discipline, answers like the one map up to sessions in their last second |
| `Artifacts.RenderInjective` | internal/store/store.go:539-541 | artifact, counter and lock keys render to distinct strings |
| `Effects.StepEffect` | internal/idp/provider.go:354-757 | for every step: which artifact it may write and why, what it must have found, what it erases and what it answers |
| `Effects.StepFrame` | internal/idp/provider.go:411-481 | time moves only by ticks, only logins touch counters and locks, no step touches a revocation marker, and every write carries its kind's lifetime |
| `Runs.Birth` | internal/store/store.go:515-518 | in every run an artifact under a random id is stored exactly as the one step that drew the id wrote it, with the lifetime of its kind |
| `Runs.NeverReturns` | internal/store/store.go:515-537 | in every run, an artifact under a random id that is gone never comes back |
| `Runs.CodeSpentOnce` | internal/idp/provider.go:869-899 | in every run, a code yields at most one token response |
| `Runs.ResetSpentOnce` | internal/idp/provider.go:569-583 | in every run, a reset token sets a password at most once |
| `AuthorizationSafety.ValidateMeans` | internal/idp/provider.go:354-385 | validation succeeds exactly for a known client, its registered redirect URI, response type code, a non-empty S256 challenge and registered scopes; only the form of the scope string changes |
| `AuthorizationSafety.InteractionsValidated` | internal/idp/provider.go:391-408 | in every reachable state each stored interaction holds parameters that an earlier request was validated with |
| `AuthorizationSafety.InteractionsAreYoung` | internal/idp/provider.go:404-404 | a live interaction is less than ten minutes old |
| `AuthorizationSafety.ConsentsWereGiven` | internal/idp/provider.go:641-680 | every stored consent was confirmed by its own subject, from a live session, and finished then |
| `AuthorizationSafety.ConsentsHoldWhatWasAsked` | internal/idp/provider.go:673-675 | in every reachable state each consent holds, as sets, exactly the scopes its subject confirmed, and as audiences those asked for and the client |
| `AuthorizationSafety.UnaskedWasConfirmed` | internal/idp/provider.go:695-707 | no request of an untrusted client is finished without asking unless the same subject confirmed, for the same client, a request for at least the same scopes before |
| `AuthorizationSafety.ConsentGrantIdFilesApart` | internal/store/store.go:586-589 | consents of different subjects or clients have different keys |
| `AuthorizationSafety.FinishedIsSafe` | internal/idp/provider.go:641-757 | in every run each finished authorization carries validated parameters and the live session's subject, for a client that is trusted or has that subject's stored consent covering the scopes |
| `AuthorizationSafety.DetourRevalidates` | internal/idp/provider.go:591-606 | while the client is unchanged, the query rebuilt after login is validated again with exactly the stored parameters |
| `AuthorizationSafety.DetourKeepsAudienceIff` | internal/idp/provider.go:391-403 | for every valid request that meets no live session, the rebuilt query keeps the audiences if and only if there were none |
| `AuthorizationSafety.ConfirmFinishesIff` | internal/idp/provider.go:641-680 | confirmation finishes if and only if it says yes, the cookie names a live session, the interaction is live and its client known; the code is for whoever confirms, whoever the interaction was recorded for |
| `AuthorizationSafety.OneRequestManyCodes` | internal/idp/provider.go:655-679 | one stored interaction can be confirmed any number of times, by any signed-in subjects, for a new code each time |
| `SessionProvenance.PendingChangeOrigin` | internal/idp/provider.go:460-472 | a pending password change stems from an accepted login of a usable account that demanded it |
| `SessionProvenance.PendingResetOrigin` | internal/idp/provider.go:517-538 | a pending reset stems from a request whose account was usable and whose destination matched, within the token's lifetime |
| `SessionProvenance.SessionsHaveProvenance` | internal/idp/provider.go:483-487 | in every reachable state each session's subject came from an accepted login without forced change, a completed forced change begun by one, or a completed reset; a live session is less than a day old |
| `CodeBinding.TokensAreBoundToRequest` | internal/idp/provider.go:869-889 | tokens for a code go only to the client, redirect URI and subject of the authorization that made it, to a verifier that hashes to the non-empty validated challenge, within the code's lifetime |
| `RefreshLineage.LineageHolds` | internal/idp/provider.go:869-933 | in every reachable state codes and refresh tokens carry their authorization's grant letter for letter, and at most one of an authorization's batons is stored |
| `RefreshLineage.OneLiveRefreshToken` | internal/idp/provider.go:914-933 | in every reachable state an authorization has at most one refresh token, and then no code |
| `RefreshLineage.IssuanceMatchesGrant` | internal/idp/provider.go:1102-1142 | each token response repeats the grant of its code, to the calling client, within the scopes registered at that moment |
| `RefreshLineage.GrantsPersist` | internal/idp/provider.go:731-745 | what a code was granted for never changes |
| `RefreshLineage.LineageIsConstant` | internal/idp/provider.go:914-933 | any two token responses of one authorization agree on client, subject and scope string |
| `Lockout.LockOutlivesCounter` | internal/store/store.go:616-626 | an unlocked key with a full counter has an expired counter whose last failure is a whole window old |
| `Lockout.RecordKeeps` | internal/store/store.go:616-626 | recording on an unlocked key, under any threshold up to n, keeps counter and lock in agreement with the history, for every lock time from one second up |
| `Lockout.BoundIsAttained` | internal/store/store.go:616-638 | for every threshold n >= 2 and every lock time the counter and lock functions let some sequence of attempts record 2n - 2 failures in less than a window |
| `LockoutRuns.AlwaysExplained` | internal/idp/provider.go:411-466 | in every reachable state counter and lock explain the failures since the last reset |
| `LockoutRuns.LockoutBound` | internal/idp/provider.go:411-466 | in every run, steps within a half-open interval of the lock's length and without a reset record at most 2n - 2 failures under a key that no login reaches with a threshold above n |
| `LockoutRuns.FailuresPerKey` | internal/idp/provider.go:415-446 | in every run, whatever names and addresses occur: at most 38 failed logins count under any one key, of either family or both, in any 15 minutes without a reset |
| `LockoutRuns.FailuresPerSource` | internal/idp/provider.go:415-446 | in every run, whatever names others use: at most 8 under a per-source key that no user's key equals, in any 15 minutes without a reset |
| `LockoutAttained.SourceBoundIff` | internal/idp/provider.go:415-446 | in all runs at most 8 failures count under a per-source key in any 15 minutes without a reset, if and only if no user's key equals it; a shared key takes exactly as many as a user key |
| `LockoutAttained.SourceBoundIsAttained` | internal/idp/provider.go:411-466 | for every user and address whose key is not shared, some run of the provider records 8 failures within the window and none records more |
| `LockoutAttained.UserBoundIsAttained` | internal/idp/provider.go:411-466 | for every user, some run of the provider, from pairwise different addresses, records 38 failures under the user key within the window and none records more |
| `LockoutRuns.FamiliesMeetIff` | internal/idp/provider.go:428-430 | a per-source key is also the key of some user who can log in if and only if the user name is "user" or starts with "user" and the separator and the whole key, address included, is in lower case, because user names are folded |
| `ProviderHandlers.WiringIsLawful` | internal/idp/provider.go:428-430 | the configuration built from the real keys meets what the theorems over runs ask |
| `ProviderHandlers.WiredTrustIff` | internal/idp/provider.go:1686-1697 | a client is first party if and only if some URI of either kind has a trusted host |
| `ProviderHandlers.Server.RecordFailure` | internal/store/store.go:616-626 | counter, then lock, as specified |
| `ProviderHandlers.Server.IsLocked` | internal/store/store.go:628-638 | locked exactly while the lock has time left, and until when |
| `ProviderHandlers.Server.ResetFailures` | internal/store/store.go:640-642 | counter and lock erased |
| `ProviderHandlers.Server.CanAutoGrantAuthorization` | internal/idp/provider.go:695-707 | trusted, or consented for these scopes and this client and not prompted anew |
| `ProviderAnswers.RefusalTellsCheck` | internal/idp/provider.go:354-385 | the first check a request fails decides its refusal, and refusals change nothing |
| `ProviderAnswers.AuthorizeRepliesIff` | internal/idp/provider.go:386-408 | a valid request asks for login, is finished at once, or asks for consent, each in exactly its own case |
| `ProviderAnswers.PromptAsks` | internal/idp/provider.go:699-701 | prompt=consent always asks, unless the client is trusted |
| `ProviderAnswers.AskingStores` | internal/idp/provider.go:391-404 | what a request that must wait leaves behind: its own parameters, and for consent the audience and the subject |
| `ProviderHandlers.Server.HandleAuthorize` | internal/idp/provider.go:354-409 | the handler's new state and reply are those of the Authorize step |
| `ProviderHandlers.Server.HandleConfirmConsent` | internal/idp/provider.go:641-680 | the same for ConfirmConsent, which does not validate again |
| `ProviderAnswers.ConfirmRefusalsIff` | internal/idp/provider.go:641-693 | why a confirmation is refused or postponed, exactly, and that it then changes nothing |
| `ProviderAnswers.ConfirmedRequest` | internal/idp/provider.go:713-722 | a confirmation finishes the stored parameters, with the audience a consent interaction kept |
| `ProviderHandlers.Server.FinishAuthorization` | internal/idp/provider.go:731-757 | the code carries client, redirect URI, scope, subject, nonce and challenge |
| `ProviderHandlers.Server.HandleLogin` | internal/idp/provider.go:411-481 | both locks are checked first, failures recorded under both keys, success resets both, a forced change yields no session |
| `ProviderAnswers.LockedLoginIsRefused` | internal/idp/provider.go:433-440 | while either key is locked no login gets through, whatever the password, and nothing changes |
| `ProviderAnswers.LoginRepliesIff` | internal/idp/provider.go:411-481 | each of the six answers to a login has exactly its own condition on interaction, locks, backend reply and account |
| `ProviderAnswers.LoginSuccessLeaves` | internal/idp/provider.go:464-480 | a success clears both keys and stores the account's session, or its pending change and no session |
| `ProviderAnswers.FailureCounts` | internal/idp/provider.go:442-463 | a failure adds one to both counters and locks exactly the keys that reach 5 and 20 |
| `ProviderAnswers.LoginRefusalLeaves` | internal/idp/provider.go:433-463 | refusals other than bad credentials change nothing; bad credentials change no artifact |
| `ProviderHandlers.Server.CompletePassword` | internal/idp/provider.go:492-509 | redeems the pending artifact once the backend accepts the password |
| `ProviderAnswers.RedeemRepliesIff` | internal/idp/provider.go:492-583 | a pending change or reset signs its subject in if and only if it is live, names someone and the password was set; then it is gone, else nothing changes |
| `ProviderHandlers.Server.BeginPasswordReset` | internal/idp/provider.go:517-538 | a token only for a usable account with a matching destination, and always the same answer |
| `ProviderAnswers.ResetBegunIff` | internal/idp/provider.go:517-555 | a reset is stored if and only if the account is usable and some destination equals the address or its digest; the answer is always the same |
| `ProviderHandlers.Server.MatchDestination` | internal/idp/provider.go:543-555 | true exactly when some destination equals the address or its digest, ignoring case |
| `ProviderHandlers.Server.IssueTokenResponse` | internal/idp/provider.go:1102-1142 | a refresh token exactly for a subject, a client that may refresh and the offline scope |
| `ProviderAnswers.RefreshIssuedIff` | internal/idp/provider.go:1125-1130 | a refresh token comes with the response if and only if there is a subject, the client may refresh and the scope is offline |
| `ProviderHandlers.Server.TokenAuthorizationCode` | internal/idp/provider.go:869-899 | code, client, redirect URI and verifier are checked, then the code is erased before the scope check |
| `ProviderAnswers.CodeRepliesIff` | internal/idp/provider.go:869-899 | tokens and each refusal in exactly their own case; only a scope no longer registered spends the code in vain |
| `ProviderHandlers.Server.TokenRefresh` | internal/idp/provider.go:914-933 | the token is erased only after the scope check |
| `ProviderAnswers.RefreshRepliesIff` | internal/idp/provider.go:914-933 | tokens and each refusal in exactly their own case; a refusal never spends the token |
| `ProviderHandlers.Server.RevokeRefreshToken` | internal/idp/provider.go:1223-1225 | only the client of a refresh token can erase it |
| `ProviderAnswers.RefreshRevokedIff` | internal/idp/provider.go:1223-1225 | a live refresh token is revoked if and only if its own client asks |
| `ProviderHandlers.Server.HandleLogout` | internal/idp/provider.go:1229-1232 | erases the session the cookie names |
| `ProviderAnswers.LogoutEndsSession` | internal/idp/provider.go:1229-1232 | after logout the session the cookie names is gone, and no other |
| `ProviderAnswers.AdministrationMeans` | internal/store/store.go:195-243 | setting and removing a client, and the passing of time, do that and nothing else |
| `ProviderHandlers.Server.Perform` | internal/idp/provider.go:354-933 | every step of the machine is carried out by a handler |
| `ProviderServer.Serve` | internal/idp/provider.go:354-933 | requests served one after the other by an untouched server are a run of the machine, from its state to its state |
| `ProviderServer.ServeFromStart` | internal/idp/provider.go:354-933 | a new server with the real keys, serving any requests with fresh ids: every authorization it finishes is validated and trusted or consented to, every session it keeps has a legitimate origin, and failed logins are bounded |
| `AccessTokens.AcceptedIff` | internal/idp/provider.go:1241-1260 | a token is accepted if and only if it verifies, the second named by exp is not over, its id is not marked, and where Fosite is wired in it still knows each token of its own |
| `AccessTokens.UnknownToFositeNeverAccepted` | internal/idp/provider.go:1254-1258 | a token of its own that Fosite refuses is never accepted, in any continuation |
| `AccessTokens.RevocationIsLocal` | internal/idp/provider.go:1278-1294 | revoking a token changes nothing for tokens with another id |
| `AccessTokens.RevocationTakesEffectIff` | internal/idp/provider.go:1202-1227 | for every token with an id and every caller: the explicit engine marks it if and only if it is still accepted; beside Fosite if and only if the caller is its client, or any named client when it names none |
| `AccessTokens.ExplicitRevokesRefreshIff` | internal/idp/provider.go:1218-1225 | in the explicit engine a live refresh token is revoked if and only if it is no accepted access token and its own client asks |
| `AccessTokens.MarkPersists` | internal/idp/provider.go:1278-1294 | no continuation removes or shortens a revocation marker |
| `AccessTokens.RevokedForeverIff` | internal/idp/provider.go:1241-1294 | after its client revokes a token, no continuation accepts it, if and only if the marker has no deadline or, in whole milliseconds, lasts until the second named by exp is over, or Fosite refuses the token anyway |
| `AccessTokens.StrangerRevokesForeverIff` | internal/idp/provider.go:1218-1222 | in the explicit engine a client that does not own an accepted token ends it for good under exactly that condition; beside Fosite the same call changes nothing |
| `AccessTokens.RevocationIsPermanent` | internal/idp/provider.go:1241-1294 | a marker lifetime of at least AccessTokenTTL + 1 s, or no deadline, suffices for every issue and revocation time |
| `AccessTokens.RevocationLapses` | internal/idp/provider.go:1245-1247 | with any shorter positive lifetime, every token revoked as it is issued whose expiry falls on a full second is accepted again |
| `ExchangePolicies.MatchesAny` | internal/store/store.go:464-474 | an empty list, a star or the candidate itself matches |
| `ExchangePolicies.FindTokenExchangePolicy` | internal/store/store.go:410-434 | the row loop returns the first matching row |
| `ExchangePolicies.SelectionIsOptimal` | internal/store/store.go:410-474 | for every table and every order the query may return: not found if and only if no policy is eligible; otherwise eligible and outranked by no eligible policy |
| `ExchangeAnswers.MatchesIff` | internal/store/store.go:451-474 | a policy matches if and only if each of its four restrictions is absent or met |
| `ExchangeAnswers.ActorRequired` | internal/store/store.go:461-461 | a policy that requires an actor covers no request without one |
| `Exchange.IssuedMeans` | internal/idp/provider.go:975-1090 | what must have held of token, client, audience, actor, policy and scopes when a token is issued |
| `Exchange.OthersInherited` | internal/idp/provider.go:1058-1078 | every claim outside the eleven overwritten ones is inherited unchanged |
| `ExchangeAnswers.IssuedIff` | internal/idp/provider.go:935-1082 | a token is issued if and only if subject token, audience, actor token, policy and scopes fit and it can be signed |
| `ExchangeAnswers.SubjectDenialsIff` | internal/idp/provider.go:960-990 | the first check of the request or subject token that fails decides the denial |
| `ExchangeAnswers.AudienceDenialsIff` | internal/idp/provider.go:1608-1627 | a missing and an ambiguous audience are denied each in exactly its own case |
| `ExchangeAnswers.ActorDenialsIff` | internal/idp/provider.go:1004-1030 | the first check of the actor that fails decides the denial |
| `ExchangeAnswers.RightsDenialsIff` | internal/idp/provider.go:1033-1056 | no policy, exceeding the subject token and exceeding the policy are denied each in exactly its own case |
| `ExchangeAnswers.IssuedTokenTells` | internal/idp/provider.go:1061-1072 | issuer, issue time, grant type and origin of an issued token |
| `ExchangeAnswers.IssuedTokenNamesParties` | internal/idp/provider.go:1073-1078 | with an actor token the issued token names that token's subject as actor, and the subject token's as the one acted for when it is someone else; without one both claims are inherited |
| `ExchangeAnswers.SuccessEventTells` | internal/idp/provider.go:952-1090 | the event of an issued token names subject, subject token, actor, audience, policy and scopes |
| `ExchangeChains.HopAttenuates` | internal/idp/provider.go:1036-1066 | one exchange keeps client and identity claims and narrows scopes to the subject token's and the policy's |
| `ExchangeChains.HopRenews` | internal/idp/provider.go:1062-1067 | each hop grants a fresh full lifetime and an id of its own, for an audience its policy matches |
| `ExchangeChains.HopOutlivesIff` | internal/idp/provider.go:1067-1067 | the new token expires no later than its subject token if and only if a fresh lifetime would |
| `ExchangeForever.RightsLastForever` | internal/idp/provider.go:935-1100 | from any accepted token whose rights a policy admits, for every later time, there is a chain of exchanges to a token with exactly the same scopes that is accepted then |
| `ExchangeChains.ChainsNeverWiden` | internal/idp/provider.go:935-1100 | along any chain no token has a scope that an earlier one lacks, client and all claims outside the eleven overwritten ones are constant, and each token's scopes pass the policy of every hop before it |
| `ExchangeChains.ChainsKeepSubject` | internal/authz/authz.go:94-106 | subject, customer and roles, as the decision point reads them, are constant along any chain |
| `ExchangeChains.ExchangedTokenSurvivesRevocation` | internal/idp/provider.go:1058-1067 | revoking the subject token leaves the token exchanged for it as it was |
| `ExchangeAudit.EventTellsOutcome` | internal/idp/provider.go:935-1091 | at every exit the event is a success if and only if a token was issued, and names that token's id, audience and scopes |
| `ExchangeAudit.AuditConservation` | internal/idp/provider.go:946-951 | over any run the success events list the issued tokens one for one, in order |
| `ExchangeHandler.Exchanger.TokenExchange` | internal/idp/provider.go:935-1100 | the handler with its early returns answers as specified, with the error code and description of its denial, and appends exactly one event |
| `ExchangeHandler.Exchanger.Serve` | internal/idp/provider.go:935-1100 | requests handled one after the other append their events in order |
| `ExchangeHandler.Exchanger.ServeAudited` | internal/idp/provider.go:946-951 | the success events of a log that starts empty list the issued tokens one for one, in order |
| `ExchangeHandler.ResolveTokenExchangeAudience` | internal/idp/provider.go:1608-1627 | exactly one non-blank audience, or else resource, or the respective error |
| `ExchangeHandler.AllowsScopes` | internal/idp/provider.go:1741-1751 | an empty list or a star allows everything, otherwise the subset test |
| `ExchangeHandler.BuildClaims` | internal/idp/provider.go:1058-1078 | overwriting the clone claim by claim gives the specified claims |
| `Scopes.ParseScopes` | internal/idp/provider.go:1629-1645 | the loop with its seen-set computes the fields without repetition, in order |
| `Scopes.ScopeSubset` | internal/idp/provider.go:1670-1684 | true exactly when every requested scope is available |
| `Scopes.Unique` | internal/idp/provider.go:1724-1739 | trimmed, non-blank, without repetition, in order |
| `Scopes.NonBlankMeans` | internal/idp/provider.go:1613-1619 | exactly the trimmed forms of the values that are not blank |
| `TextLaws.FieldsAreWords` | internal/idp/provider.go:1630-1630 | white space before a word is skipped, and a word ends at the first white space after it |
| `TextLaws.AsciiSpaces` | internal/idp/provider.go:1630-1634 | which ASCII characters separate scopes |
| `TextLaws.TrimTakesSpace` | internal/idp/provider.go:1614-1614 | trimming takes all white space off both ends and nothing else |
| `TextLaws.DedupKeepsFirst` | internal/idp/provider.go:1633-1643 | of repeated scopes the first is kept, in order |
| `TextLaws.FoldIsLower` | internal/authz/authz.go:113-113 | on ASCII text equality ignoring case is equality in lower case |
| `TextLaws.LowerMeans` | internal/idp/provider.go:428-428 | only the letters A to Z change, to a to z |
| `Scopes.ParseFormatParse` | internal/idp/provider.go:1629-1645 | parsing a joined parse gives it back, with no repetition and no blank |
| `Scopes.AllowedIdempotent` | internal/idp/provider.go:1647-1659 | granted if and only if registered; what is granted denotes what was asked and is granted again as is |
| `Scopes.AllowedKeepsCanonical` | internal/idp/provider.go:1647-1659 | a canonical scope string is granted letter for letter or refused |
| `Scopes.DefaultMatters` | internal/idp/provider.go:1647-1653 | the default grants all registered scopes exactly when none is asked for |
| `Scopes.DefaultScopesStayRegisteredIff` | internal/idp/provider.go:1649-1653 | the default grant re-parses within the registration if and only if every blank-separated part of a registered scope is registered |
| `Hosts.SuffixTestIsLabelMatch` | internal/idp/provider.go:1706-1708 | for every host and domain the string test succeeds if and only if the domain's labels end the host's |
| `Hosts.TrustedHost` | internal/idp/provider.go:1699-1711 | the loop succeeds exactly when some non-blank normalised domain owns the host |
| `Hosts.TrustedFirstParty` | internal/idp/provider.go:1686-1697 | the same over all redirect and post-logout URIs that parse |
| `Hosts.TrustedClientIff` | internal/idp/provider.go:1686-1697 | one trusted host among the URIs of either kind is enough, and needed |
| `Hosts.TrustIgnoresCase` | internal/idp/provider.go:1700-1702 | the case of a host does not matter |
| `Hosts.TrustIgnoresDot` | internal/idp/provider.go:1700-1700 | nor does one dot at its end |
| `Hosts.DomainIgnoresCaseAndDot` | internal/idp/provider.go:1702-1702 | nor, in a configured domain, do case and one dot at its end |
| `Hosts.BlankTrustsNobody` | internal/idp/provider.go:1702-1705 | a blank domain trusts nobody |
| `Base64.RoundTrip` | internal/secret/secret.go:103-105 | unpadded base64url decodes what it encodes, for all bytes |
| `Secrets.EncryptShape` | internal/secret/secret.go:46-101 | sealing gives exactly five parts, is recognised, and opens to the input |
| `Secrets.OpeningNeedsKey` | internal/secret/secret.go:46-101 | what one key sealed opens under another if and only if that key opens the sealed message itself |
| `Secrets.EncryptIdempotent` | internal/secret/secret.go:46-49 | sealing twice is sealing once, whatever the nonces |
| `Secrets.EnvelopeRoundTripIff` | internal/secret/secret.go:46-101 | opening returns the sealed input if and only if it was not already prefixed |
| `Secrets.EnvelopePanicsIff` | internal/secret/secret.go:95-97 | opening a well-formed envelope panics if and only if its nonce is not twelve bytes long |
| `Secrets.CookieAcceptedIff` | internal/idp/provider.go:1506-1526 | a cookie is accepted for an id if and only if it is that id's signed cookie and the id has no dot |
| `Secrets.CookieNeedsKey` | internal/idp/provider.go:1506-1526 | a cookie signed under one key is accepted under another if and only if the two sign its id alike |
| `Secrets.RandomIdReadBack` | internal/idp/provider.go:1567-1571 | every random id written to a cookie is read back |
| `Authz.CollectStrings` | internal/authz/authz.go:132-139 | the loop over a list claim keeps its non-empty strings, in order |
| `Authz.CoerceStrings` | internal/authz/authz.go:123-143 | a claim as a list: its non-empty strings, a single string as a list of one, anything else as none |
| `Authz.SearchRoles` | internal/authz/authz.go:110-119 | true exactly when some role equals some wanted role, ignoring case |
| `Authz.RolesIgnoreCase` | internal/authz/authz.go:110-119 | every role counts, and its case does not |
| `Authz.RolesIff` | internal/authz/authz.go:110-119 | on ASCII names, an administrator if and only if some role equals some wanted one in lower case |
| `Authz.SubjectIsRead` | internal/authz/authz.go:94-106 | subject, customer and roles are read from their own claims, each only in the right type |
| `Authz.DecideIff` | internal/authz/claims.go:45-68 | allowed if and only if for an administrator, for the owner's own customer, or to create for oneself or for nobody |
| `SelfService.ListedIffReadable` | internal/handlers/self.go:45-119 | being listed and being readable agree for every row and subject except, exactly, an unowned row with an empty id |
| `SelfService.TenantStepKeepsForeign` | internal/handlers/self.go:121-277 | a tenant's call leaves every foreign row as and where it was |
| `SelfService.TenantIsolation` | internal/handlers/self.go:45-277 | over any run of tenants' calls all foreign rows and every other tenant's list are unchanged |
| `SelfService.OwnersNeverChange` | internal/store/store.go:215-232 | no call by anyone changes a row's owner or client id; a non-admin's new row is owned by the caller's customer |
| `SelfService.RowsKeepOwnersOrAreTenants` | internal/handlers/self.go:121-239 | after any run each row continues an original one with its owner, or is owned by one of the calling tenants |
| `SelfServiceHandlers.Handlers.ListClients` | internal/handlers/self.go:85-119 | the handler's list is that of the List step |
| `SelfService.ShowRepliesIff` | internal/handlers/self.go:185-196 | not found and forbidden in exactly their own cases, else the row itself |
| `SelfService.UpdateRepliesIff` | internal/handlers/self.go:198-206 | not found, forbidden and bad request in exactly their own cases, and then nothing changes |
| `SelfService.RotateRepliesIff` | internal/handlers/self.go:241-250 | not found and forbidden in exactly their own cases, and then nothing changes |
| `SelfService.DeleteRepliesIff` | internal/handlers/self.go:262-277 | not found and forbidden in exactly their own cases, and then nothing changes |
| `SelfService.MayTouchIff` | internal/handlers/self.go:45-59 | an administrator may act on any row, anyone else on those of their own, non-empty customer |
| `SelfService.ListKeepsOrder` | internal/handlers/self.go:85-119 | an administrator's list is the whole table, and a tenant's keeps its order |
| `SelfServiceHandlers.Handlers.CreateClient` | internal/handlers/self.go:121-183 | table and reply are those of the Create step |
| `SelfService.CreateRepliesIff` | internal/handlers/self.go:121-183 | a client is created, forbidden or a bad request each in exactly its own case, and a created row comes first |
| `SelfService.NewRowMeans` | internal/handlers/self.go:121-183 | the new row is the request's, under the new ids and secret, owned by whom the request or else the caller names |
| `SelfService.CreatesOwn` | internal/handlers/self.go:121-183 | without an admin role one creates rows of one's own, non-empty customer only |
| `SelfServiceHandlers.Handlers.UpdateClient` | internal/handlers/self.go:198-239 | table and reply are those of the Update step |
| `SelfService.EditSetsNamedFields` | internal/handlers/self.go:207-238 | an update sets each field the request names, trimmed and without blanks, and no other |
| `SelfService.UpdateStoresEdit` | internal/handlers/self.go:198-239 | an allowed update stores the edited row and shows it |
| `SelfServiceHandlers.Handlers.RotateSecret` | internal/handlers/self.go:241-260 | table and reply are those of the Rotate step |
| `SelfService.RotationReplacesSecret` | internal/handlers/self.go:241-260 | an allowed rotation stores the new secret in the row it names and changes nothing else of it |
| `SelfServiceHandlers.Handlers.DeleteClient` | internal/handlers/self.go:262-277 | table and reply are those of the Delete step |
| `SelfService.DeletedIsGone` | internal/store/store.go:234-243 | a delete removes exactly the rows of that id |
| `SelfServiceHandlers.Handlers.ShowClient` | internal/handlers/self.go:185-196 | reply as in the Show step, table unchanged |
| `SelfServiceHandlers.Handlers.Serve` | internal/handlers/self.go:35-43 | calls on the object, one after the other, are a run of the step function |
| `SelfServiceHandlers.Handlers.ServeTenants` | internal/handlers/self.go:35-277 | tenants served by the object leave all foreign rows, and every other tenant's list, as they were |
| `DecisionCache.KeysTellBodies` | internal/authz/solutrix.go:235-237 | equal decision keys mean equal bodies; no scope key is a decision key |
| `DecisionCache.BodyAsksQuestion` | internal/authz/solutrix.go:106-151 | the decision point is asked about the very subject, customer, action, resource type and owner of the question |
| `DecisionCache.VisibilityIff` | internal/authz/solutrix.go:186-197 | only "all" sees everything, only "customerIds" sees the customers it lists |
| `DecisionCache.UncachedAskedIff` | internal/authz/solutrix.go:106-131 | without a cached answer the decision point decides, and if it fails nothing is decided |
| `DecisionCache.AnswerIsRepeated` | internal/authz/solutrix.go:199-233 | an answer is repeated without asking up to and including the end of the cache lifetime |
| `DecisionCache.ScopeIsRepeated` | internal/authz/solutrix.go:133-151 | the same for scopes |
| `DecisionCache.NulCollision` | internal/authz/solutrix.go:235-237 | two different questions with a NUL share a key |
| `DecisionCache.StepKeepsCoherent` | internal/authz/solutrix.go:199-233 | every reachable entry stays an answer to its own question's body |
| `DecisionCache.CacheCoherence` | internal/authz/solutrix.go:106-150 | over any run every reply is the decision point's answer to the same body, no older than the cache lifetime, and failures are never stored |
| `SolutrixClient.Authorizer.Authorize` | internal/authz/solutrix.go:106-131 | the method is the Decide step |
| `SolutrixClient.Authorizer.Scope` | internal/authz/solutrix.go:133-151 | the method is the Scoping step |
| `SolutrixClient.Authorizer.Serve` | internal/authz/solutrix.go:106-151 | questions put one after the other are a run of the step function |
| `SolutrixClient.ServeClean` | internal/authz/solutrix.go:62-104 | a new authorizer, asked clean questions, gives backed replies only, and failed checks leave it as it was |
| `SolutrixClient.TokenSource.Get` | internal/authz/solutrix.go:264-307 | a service token is reused only with more than thirty seconds left; a failed fetch changes nothing |

## Left out

- Fosite's own flows, compose wiring and response writing: library behaviour; only the storage interface it calls is modelled.
- RSA and AES arithmetic, key loading, JSON and PEM encoding: abstract functions with laws.
- The WildDuck adapter, mailer, HTTP clients, configuration, routers, pages and the admin interface: input, output and user interface.
- SAML service providers, identity policies, discovery, JWKS and introspection: record keeping or constant output.
- The client_credentials grant beyond its scopes, ID tokens and claim building: straight-line copies.
- The replay store for client assertion ids (internal/fositestore/store.go:106-120): one key written and read.
- Interleavings inside a handler and failing storage calls: every handler is one atomic step that succeeds in storing.
- ProviderHandlers.Server.IssueTokenResponse: does not build the access token, its claims or the ID token, because they are straight-line copies; it covers the refresh token and the granted scope.
- The store's own clock, which counts milliseconds, and its difference from the server's: one clock in nanoseconds serves both.
- How the caller's address is found: it is a parameter of a login (internal/handlers/auth.go:73 passes the remote address, with its port unless a proxy header replaced it).
- Case folding beyond ASCII.
- URL parsing: a parameter that gives a URI's host or fails.
- Update in place of JSON documents: documents are values that are replaced whole, as the source does.
- Row order on equal creation times: the client table is kept in listing order; the policy query may return ties in any order.
