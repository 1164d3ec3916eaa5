# Credo, in Dafny

A model of the parts of Credo that carry state over time, with proofs of what
they promise over whole runs:

- **The token protocol** of the auth service. A session goes from pending to
  active to revoked, has one authorization code and a rotating chain of refresh
  tokens, and is changed by authorization, code exchange, refresh, revocation,
  logout, user deletion and a cleanup worker. Requests interleave freely between
  store calls. `TokenProtocol` is a step machine: one action is one store call of
  one request, the mutex of a transaction is a lock in the state, and an action
  that is not enabled changes nothing, so that every sequence of actions is a
  run. The configuration says whether all requests share one mutex (`mutex`, the
  in-memory transaction) and whether the stores enforce the foreign keys of the
  SQL schema (`foreignKeys`: a row whose session or user is gone is refused, and
  deleting a user or a session deletes what refers to it). In-memory stores have
  the mutex alone, one process on SQL stores has both, several processes have the
  keys alone; no deployment has neither. `TokenInvariants`,
  `TokenSteps` and `TokenControl` hold the invariant and its preservation step by
  step; `TokenTheorems`, `TokenGuarantees`, `TokenReplay`, `TokenLifetimes`,
  `TokenKeys`, `TokenDeletion`, `TokenSpent`, `TokenTerms`, `TokenRevocations` and
  `TokenTenants` the results.
  `AuthService` is the service as an object over mutable stores; each of its
  methods is proved to be a run of the machine, so the results hold of it.
  `AuthAnswers` says in the fields of the records when it answers and with what,
  `AuthOutcomes` what its partial outcomes mean to a caller.
- **The consent ledger**: the rules of a record, the nested in-memory store, the
  service with its retry loop and its two kinds of transaction, the audit
  trail against which the ledger is proved, and the emission of audit events
  after the transaction (`ConsentEmission`).
- **The client resolver**, its cache and the circuit breaker.
- **The 18th-birthday test** on calendar dates.

Times and durations are integers without bounds; identifiers that the source
draws at random are parameters that have not been drawn before. Clocks, fresh
identifiers, the resolved client, the answers of remote calls and the success of
store calls are parameters. A request's time is fixed when it starts, so no result
assumes that steps happen in the order of their times.

Where code and documentation differ, the model follows the code: `LogoutAll`
says it fails when every revocation fails, but it only counts; a bulk revocation
of consents accepts the zero time that a single one refuses; deleting a user and
granting several consents are called atomic, but the mutex transactions around
them undo nothing.

`dafny verify dfyconfig.toml` checks the whole project.

## Model

| member | source | states |
|---|---|---|
| TokenTheorems.CreditBound | internal/auth/service/token_flow.go:52-80 | In every reachable state of every interleaving, with or without the mutex, a session's unused codes, unused refresh tokens and requests that consumed one and have not stored the next are together at most one |
| TokenSteps.PreserveStep | internal/auth/service/token_exchange.go:32-93 | Every action of every request keeps the protocol's invariant (stores against history, in-flight snapshots, at most one holder of a session's credit) |
| TokenSteps.ReachableInv | internal/auth/service/token_refresh.go:31-94 | The invariant holds in every reachable state |
| TokenSteps.PreserveConsume | internal/auth/service/token_refresh.go:98-124 | Consuming a code or a refresh token keeps the invariant: the session's credit passes from the credential to the one request that consumed it |
| TokenSteps.PreserveAdvance | internal/auth/models/models.go:160-210 | The session step keeps the invariant: it extends the chain by one grant made from the session's own attributes |
| TokenSteps.AdvanceMeets | internal/auth/service/token_flow.go:54-72 | When a session step is about to commit, an exchange finds a session without steps and a refresh the session's last refresh token |
| TokenControl.OneTransactionAtATime | internal/auth/service/service.go:245-253 | With the mutex two requests are never inside a transaction at once, and the one inside holds the lock |
| TokenControl.EnterStep | internal/auth/service/service.go:228-254 | A request enters a transaction only by taking the free mutex |
| TokenControl.StepMoves | internal/auth/service/token_exchange.go:50-74 | Each action moves only its own request, and only to a program point that follows in the code |
| TokenTheorems.ReplayDetected | internal/auth/service/token_exchange.go:104-120 | The consume step takes the replay branch exactly for a stored, used credential that is not past its expiry (a code with its own redirect URI), for the session of that credential, and then changes no store |
| TokenTheorems.ReplayContained | internal/auth/service/token_flow.go:91-108 | After a replay's revoking write, with anything happening before, between and after, the session is revoked or gone for good and no credential of it passes a session step again; with the mutex it is not answered for again |
| TokenTheorems.StepEvolves | internal/auth/models/value_objects.go:32-43 | One step changes a session's status only along allowed transitions, never recreates it, and adds a grant only to a session that is not revoked |
| TokenTheorems.RevocationIsFinal | internal/auth/service/token_revocation.go:144-174 | Once revoked or gone, a session stays so and gains no step in any run; all responses still to come were committed before |
| TokenTheorems.StatusNeverGoesBack | internal/auth/models/models.go:96-146 | Over every run a session's status only moves pending, active, revoked, and a session that is gone never returns |
| TokenGuarantees.LateTokenIsDead | internal/auth/service/token_flow.go:76-78 | A request that passed its session step before the session was revoked or removed still stores its refresh token, unused (also after the session's tokens were deleted), and is refused exactly when foreign keys are enforced and the session is gone; either way no session step of any session ever spends that token |
| TokenGuarantees.SnapshotsAgree | internal/auth/service/token.go:41-72 | A session read before the transaction agrees with the stored one on user, client, tenant, scopes, expiry and device however old it is; tokens made from it match; writing the tenant into it changes nothing |
| TokenGuarantees.TokensMatchSession | internal/auth/service/token_exchange.go:57-92 | Every step of a session, at any length of the refresh chain, carries the identity it was authorized with and exactly its scopes, all of them allowed |
| TokenGuarantees.ResponsesFormChain | internal/auth/service/token_refresh.go:51-93 | The responses of a session form one chain: the first spends its code, each later one the refresh token of the one before |
| TokenGuarantees.CredentialsSpentOnce | internal/auth/service/token_refresh.go:105-112 | No code and no refresh token is the parent of two session steps, in one session or in two |
| TokenGuarantees.ExchangeActivates | internal/auth/service/token_flow.go:59-69 | A committing exchange always meets a pending session without steps and activates it; a committing refresh meets an active one |
| TokenGuarantees.ActivatedOnce | internal/auth/models/models.go:105-127 | Exactly the first step of a session activates it |
| TokenGuarantees.RefreshTokenSessionNotPending | internal/auth/service/token_flow.go:74-80 | The session of a stored refresh token is active or revoked, never pending |
| TokenGuarantees.RevokeSessionListsLastToken | internal/auth/service/session_revoke.go:29-74 | RevokeSession lists the access token of the session's last committed step in any interleaving, no step is added later, and the entry lasts as long as the token exactly when the list's clock is not behind the request that issued it |
| TokenGuarantees.StaleListing | internal/auth/service/token_revocation.go:153-158 | A revocation that read the session beforehand lists its last access token exactly when no step was committed in between |
| TokenGuarantees.LogoutOvertaken | internal/auth/service/session_revoke.go:102-115 | That does happen: from every state where a session step is about to commit, a logout that lists before it and revokes after it lists another token than the last |
| TokenReplay.CommitSeesCurrentSession | internal/auth/service/token_flow.go:44-46 | Although it is read outside the transaction, the session copy a request is about to commit with equals the stored session in any interleaving, apart from a revocation |
| TokenReplay.SessionIsReplayOfLog | internal/auth/service/token_flow.go:59-72 | In every reachable state a stored session is the fold of its creation and its committed steps: last token, latest activity and refresh times, fingerprint; it has a revocation time exactly when revoked |
| TokenReplay.AdvancedIsGrant | internal/auth/service/device_binding.go:36-95 | With a current copy, the mutation of a session step adds the step's token, times and fingerprint and never rebinds the device |
| TokenLifetimes.NothingIsExtended | internal/auth/models/models.go:360-433 | Every stored session, code and refresh token expires exactly its time after the request that made it (as configured for sessions and refresh tokens, ten minutes for codes); no operation extends one |
| TokenTerms.EveryStepInTime | internal/auth/models/models.go:196-210 | In every reachable state, request times in any order: no step of a session was made after the session's end; the first was made within ten minutes of the authorization and for the redirect URI it was authorized for, each later one within the refresh lifetime after the one before |
| TokenTerms.ChainInTime | internal/auth/models/models.go:268-337 | The k-th step of a session comes at most ten minutes and k refresh lifetimes after the authorization, and no later than the session lifetime after it |
| TokenTerms.UseIsDated | internal/auth/models/models.go:312-324 | In every reachable state a refresh token has a time of use exactly when it is used, and using it up records the time of the request |
| TokenRevocations.RevokedOnce | internal/auth/models/models.go:131-146 | Whatever action revokes a session: it records exactly the time of the request behind it and changes nothing else of the session, and the record then stays as it is in every run |
| TokenRevocations.RevokedIsFrozen | internal/auth/models/models.go:131-146 | A revoked session does not change any more until it is removed, in any run |
| TokenTenants.TenantsApart | internal/auth/service/authorize.go:128-146 | In every reachable state a session is of its user's tenant, and so is every step it ever made |
| TokenKeys.ReferencesWhole | migrations/000006_create_refresh_tokens_table.up.sql:7 | With foreign keys and any number of processes, in every reachable state every session's user, every code's session and every refresh token's session exists |
| TokenSpent.UsedForGood | internal/auth/models/models.go:260-337 | Once a code or refresh token is used it stays used in every run until it is removed, and then it is never stored again |
| TokenSpent.ServedOnce | internal/auth/service/token_exchange.go:97-121 | After a request that used its credential up (answered, or stopped at the session step or at storing the refresh token) and after anything that happens then, every request with the same credential is a replay of the same session or has no effect |
| TokenDeletion.SessionsHaveUsers | internal/auth/service/admin_delete_user.go:37-54 | With the mutex or with foreign keys every stored session's user exists, in every reachable state |
| TokenDeletion.DeletionIsFinal | internal/auth/service/admin_delete_user.go:46-51 | With the mutex or with foreign keys: after a user's row is deleted the user never returns, no session of theirs is ever stored again, and no session ever created for them passes a session step again, whatever codes and tokens remain |
| TokenDeletion.NoOrphansIff | internal/auth/service/authorize.go:128-187 | No session outlives its user, in any run, exactly when requests share the mutex or foreign keys are enforced; with neither, an authorization and a deletion can interleave so that one does |
| AuthService.Service.ExchangeAuthorizationCode | internal/auth/service/token_exchange.go:28-93 | The exchange answers exactly when everything an answer needs holds beforehand, in the fields of the records: a stored, unused code in time with its own redirect URI, a stored session in time, pending or active, of that client and tenant with an active user, and all writes. It is a run of the machine and takes exactly the course told from the state before it: no effect; a replay; the code used up without a session step; the session step without an answer; or step, refresh token and answer. Stores, log and answer are given for each |
| AuthService.Service.RefreshWithRefreshToken | internal/auth/service/token_refresh.go:25-94 | The same for a refresh, whose token is the credential, and whose session must be active |
| AuthAnswers.CourseIff | internal/auth/service/token_exchange.go:28-121 | Exactly when a request is answered, left unanswered after its session step, left with its credential used up, or a replay, in the fields of credential, session and user; an expired credential, a foreign redirect URI and a refused client never get that far |
| AuthAnswers.AnswerGives | internal/auth/service/token_flow.go:38-85 | From any reachable state an answer hands out an access token of exactly the session's user, client, tenant and scopes for the token lifetime and leaves one new unused refresh token for the refresh lifetime, the credential used up, the session active with that access token and its times and fingerprint updated, and nothing else changed |
| AuthAnswers.OthersLeave | internal/auth/service/token_flow.go:52-108 | What the other courses leave, field by field: a replay only revokes; a credential used up changes nothing else; without an answer the session has made its step all the same |
| AuthAnswers.ConsumeRefusal | internal/auth/models/models.go:268-337 | Why a code or a refresh token is refused, in the source's order, and that nothing else refuses it |
| AuthAnswers.AdvanceRefusal | internal/auth/models/models.go:192-210 | Why a session refuses a step, in the source's order, and that nothing else refuses it |
| AuthAnswers.CleanupKeepsAnswers | internal/auth/workers/cleanup/cleanup.go:111-146 | Cleaning up takes no answer from anybody: a request no earlier than the cleanup is answered after it exactly when it would have been before |
| AuthAnswers.CleanupComplete | internal/auth/store/session/store_memory.go:110-126 | Cleaning up leaves exactly what has not expired, and no used refresh token |
| AuthService.Service.PrepareTokenFlow | internal/auth/service/token.go:84-107 | Tokens are generated exactly when client, tenant, user and client state are accepted |
| AuthService.Service.ConsumeCode | internal/auth/service/token_exchange.go:97-121 | Consuming a code: marked used, or refused, or a replay for the code's session |
| AuthService.Service.ConsumeRefreshToken | internal/auth/service/token_refresh.go:98-124 | The same for a refresh token |
| AuthService.Service.ExecuteTokenFlowTx | internal/auth/service/token_flow.go:38-85 | There is an answer, the recorded grant, exactly when the session accepts the step and both writes succeed; without the session step nothing changes; when only storing the refresh token fails, the session step stays and there is no answer |
| AuthService.Service.AdvanceSessionTx | internal/auth/service/token_flow.go:52-75 | The session is validated and mutated as the machine's session step does, exactly when it accepts the step and the write succeeds |
| AuthService.Service.RevokeSessionOnReplay | internal/auth/service/token_flow.go:91-108 | The replay branch revokes the session unless it is already revoked or the write fails |
| AuthService.Service.RevokeSessionIfActive | internal/auth/store/session/store_memory.go:92-108 | Revokes exactly a present session that is not revoked yet, if the store call gets to read and to write it; says which of the four cases it was |
| AuthService.Service.RevokeSession | internal/auth/service/session_revoke.go:18-89 | Success means that the session is the caller's and is revoked. Forbidden exactly for another user's session, not found exactly for a missing one, nothing to do exactly for the caller's own revoked one. Only the caller's own live session is changed: revoked, its access token listed for the token lifetime if that write succeeds, its refresh tokens deleted unless a listing failure is fatal or the deletion fails; the call is a run of the machine |
| AuthService.Service.RevokeSessionInternal | internal/auth/service/token_revocation.go:144-174 | Revokes the target unless it is revoked, missing or the store call fails; fails exactly for a missing session, a failing store call or, having revoked it, a listing failure that is set to be fatal; says exactly which token is listed and which refresh tokens are removed |
| AuthService.Service.RevokeToken | internal/auth/service/token_revocation.go:29-98 | Revokes the session the token resolves to under the hint unless the store call fails, lists the access token handed in or else the session's last one, and removes the session's refresh tokens; an unknown token changes nothing and is no error |
| AuthAnswers.ResolutionIff | internal/auth/service/token_revocation.go:58-77 | Which session a token handed in belongs to, and which access token is listed: an access token's unless the hint says otherwise, else a refresh token's |
| AuthAnswers.OutcomeIff | internal/auth/service/token_revocation.go:144-174 | An error exactly when the session is not found, its revocation cannot be written or listing fails fatally; without an error the session is revoked |
| AuthService.Service.LogoutAll | internal/auth/service/session_revoke.go:95-144 | Of the user's sessions but the kept one, exactly those end revoked whose revoking write takes place, and the loop goes on after a failure; both counts are exact (revoked; failed, by a failing store call or a fatal listing failure), and so are the revocation list and the refresh tokens left; without the listing nothing changes |
| AuthOutcomes.LogoutComplete | internal/auth/service/session_revoke.go:91-144 | After a logout every chosen session is revoked exactly when no store call failed that had a session to revoke; the failures are zero exactly when nothing went wrong; every chosen session is counted once, as revoked, failed or already revoked |
| AuthOutcomes.LogoutRetried | internal/auth/service/session_revoke.go:91-123 | A second logout that meets no failing store call revokes exactly what the first one missed, and what the first revoked keeps its time |
| AuthService.Service.DeleteBySessionID | internal/auth/store/refresh-token/store_memory.go:71-87 | Exactly the session's refresh tokens are removed |
| AuthService.Service.Authorize | internal/auth/service/authorize.go:125-193 | Succeeds exactly when the scopes are allowed, the user found or made is active, and session and code are valid and stored. What a refused call leaves is exact too: nothing, at most a new user, or a pending session without a code, since nothing is undone. The session is the user's, pending, with exactly the requested scopes; the code is unused and of that session; the call is a run of the machine |
| AuthService.Service.FindOrCreateUser | internal/auth/service/authorize.go:195-212 | The user of tenant and email if there is one, else a new one, which is stored; there is no user to go on with exactly when the email is empty, the store call fails or the user is inactive |
| AuthOutcomes.OneUserPerEmail | internal/auth/store/user/store_memory.go:60-76 | However authorizations and deletions interleave, with or without the mutex, there is never more than one user of a tenant and email |
| AuthOutcomes.PickDetermined | internal/auth/store/user/store_memory.go:60-76 | So the user of an authorization is determined by the users there are |
| AuthRuns.ValidateRequestedScopes | internal/auth/service/authorize.go:248-258 | Accepts exactly the requests whose scopes are all allowed, or any when nothing is restricted |
| AuthService.Service.DeleteUser | internal/auth/service/admin_delete_user.go:16-63 | Succeeds exactly when the user is found and both deletions succeed. Three ways: user and exactly their sessions gone; nothing changed; or, when only the user's row cannot be deleted, the sessions gone and the user still there. With foreign keys the sessions' codes and refresh tokens go with them; the call is a run of the machine |
| AuthOutcomes.DeletionRetried | internal/auth/service/admin_delete_user.go:36-54 | A deletion that stopped halfway can be repeated: the second call ends where one without failures would have ended |
| ConsentRules.NewPolicy | internal/consent/service/service.go:61-85 | Each duration on its own: a positive option is kept, any other becomes its default (a year, five minutes, five minutes), so all three are positive |
| ConsentLedger.GrantIdempotent | internal/consent/models/models.go:121-161 | Granting again at the same time changes nothing and finds the consent active |
| ConsentLedger.GrantManySucceeds | internal/consent/service/service.go:170-188 | A grant of several purposes succeeds exactly when each of them would on its own |
| ConsentLedger.GrantManyAt | internal/consent/service/service.go:287-332 | What a successful grant leaves at each scope: the single grant's result for listed purposes, everything else untouched |
| ConsentLedger.GrantManyEffects | internal/consent/service/service.go:205-231 | A successful grant has one effect for each purpose that changes, none twice, with the right active flag |
| ConsentLedger.GrantOrderIrrelevant | internal/consent/service/service.go:194-234 | Order and repetition of the purposes do not matter: same success, same ledger, same effects |
| ConsentLedger.GrantFailsAt | internal/consent/service/service.go:178-186 | A failing grant has applied exactly the purposes before the first one that cannot be granted, and reports that one's error |
| ConsentLedger.RevokeManyFails | internal/consent/models/models.go:164-171 | Single revocations fail exactly at the zero time with something to revoke, and then change nothing |
| ConsentLedger.BulkEqualsSingle | internal/consent/store/store_memory.go:102-121 | Revoking all equals revoking one by one in any order, and counts what was active, exactly unless the time is zero and something is active |
| ConsentLedger.BulkRevokeOnce | internal/consent/store/store_memory.go:102-121 | Other users are untouched, and a repetition at the same time finds nothing and changes nothing |
| ConsentHistory.TrailTellsLedger | cmd/server/consent_tx.go:24-55 | Over every run with rolled-back transactions in which a call emits before the next one commits: the state-changing events are the audit trail, the ledger is its replay, every event was legal, and the gauge equals unrevoked records plus renewals of expired ones plus unrevoked records erased |
| ConsentHistory.ChangesTellLedger | internal/consent/service/tx.go:36-62 | Over every run with either kind of transaction: the ledger is the replay of its state-changing events, audited or not, and each was legal when it happened |
| ConsentHistory.GaugeMisses | internal/consent/service/service.go:194-234 | Over every run with either kind of transaction: the gauge, together with what grants that failed halfway left uncounted, equals unrevoked records plus renewals of expired ones plus unrevoked records erased |
| ConsentHistory.BodyTells | internal/consent/service/service.go:194-484 | Each operation's transaction body, also when it fails, has done exactly what its effects say, each a legal event with the right gauge change |
| ConsentHistory.GaugeEvent | internal/consent/service/service.go:225-231 | One event changes gauge and unrevoked records alike, up to renewals of expired consents and erasures |
| ConsentTheorems.RequireIff | internal/consent/service/service.go:531-565 | Over every run with either kind of transaction: a consent check passes exactly when the last state-changing event that concerns the scope is a grant no longer ago than the time to live |
| ConsentTheorems.RefusedIff | internal/consent/service/service.go:531-565 | Why a check fails, over every run with either kind of transaction: revoked exactly when some event revoked the consent and it was neither granted again nor erased since, expired exactly when its last event is a grant too long ago, missing exactly when it was not granted since the last erasure; before that, without a user or a known purpose |
| ConsentTheorems.RequireAudited | cmd/server/consent_tx.go:24-55 | With rolled-back transactions, each call emitting before the next one commits, that event is the last one of the audit trail that concerns the scope |
| ConsentTheorems.RecordsKeep | internal/consent/models/models.go:38-171 | After any run, with either transaction and times in any order, every record expires exactly the time to live after its grant and was revoked no later than that |
| ConsentTheorems.CooldownKept | internal/consent/models/models.go:96-144 | Over every run with either kind of transaction: after a revocation at r the next grant of the scope is at r plus the cooldown or later unless the records were erased, and until then the recorded time stays |
| ConsentTheorems.LegalTrailsHappen | internal/consent/service/service.go:194-484 | Every legal trail is the trail of some run, so the legal trails are exactly the possible ones |
| ConsentTheorems.MutexGrantTold | internal/consent/service/tx.go:36-62 | With the mutex transaction one grant, from a state whose trail tells the ledger, keeps them together exactly unless a purpose that changes is listed before the first one that fails |
| ConsentTheorems.MutexOtherFaithful | internal/consent/service/tx.go:36-62 | All other operations keep them together under the mutex transaction as well |
| ConsentTheorems.MutexRunFaithful | internal/consent/service/tx.go:36-62 | Over every run with the mutex transaction in which no grant was split so, the audit trail holds every state-changing event, tells the ledger, and the gauge is right |
| ConsentTheorems.MutexSplitHappens | internal/consent/service/tx.go:53-61 | A concrete grant whose failure leaves a consent without an audit event |
| ConsentEmission.EmissionPermutes | internal/consent/service/service.go:220-231 | With emission as a step of its own, in any interleaving of commits and emissions and with either transaction: the ledger is that of the calls served one after another, and the events and gauge changes emitted, together with those still owed, are the serial ones up to their order |
| ConsentEmission.QuiescentTrail | internal/consent/service/service.go:401-410 | Whenever all calls have emitted (rolled-back transactions): the audit trail is a permutation of the state-changing events, and the gauge is right |
| ConsentEmission.OrderedTrailTells | internal/consent/service/service.go:441-450 | If moreover each user's events were emitted in the order of their transactions, the trail tells the ledger, however different users' calls interleaved |
| ConsentEmission.SameForUsers | internal/consent/service/service.go:359-369 | Trails that agree user by user tell the same ledger |
| ConsentEmission.MisorderedTrail | internal/consent/service/service.go:220-231 | At every valid scope and time: a grant and a revocation of one consent that emit the other way round leave a trail that says the consent stands although it is revoked |
| ConsentStore.InMemoryStore.Save | internal/consent/store/store_memory.go:32-49 | Inserts exactly a new scope, reports a conflict for an existing one and leaves it |
| ConsentStore.InMemoryStore.FindByScope | internal/consent/store/store_memory.go:51-61 | The ledger's record of the scope, or not found |
| ConsentStore.InMemoryStore.Execute | internal/consent/store/store_memory.go:131-151 | Validates and mutates one record: missing, refused, kept or replaced, nothing else changes |
| ConsentStore.InMemoryStore.RevokeAllByUser | internal/consent/store/store_memory.go:102-121 | In any order of the records: the ledger's bulk revocation, and the number of records it hit |
| ConsentStore.InMemoryStore.DeleteByUser | internal/consent/store/store_memory.go:123-128 | Removes exactly the user's records |
| ConsentService.UpsertIsAtomic | internal/consent/service/service.go:287-332 | Whatever concurrent writers do to the scope, an upsert acts as one atomic grant on the record as it stands at its last store call, or gives up with a conflict and leaves that record as it is |
| ConsentService.ConflictIff | internal/consent/service/service.go:289-331 | Two attempts give up exactly when the record is missing, inserted, removed and inserted again between the calls |
| ConsentService.ConsentService.UpsertGrantTx | internal/consent/service/service.go:287-332 | The retry loop computes the attempts' result and leaves exactly that record |
| ConsentService.ConsentService.CreateGrantTx | internal/consent/service/service.go:336-357 | Creates the record unless it is invalid or has appeared meanwhile |
| ConsentService.ConsentService.Grant | internal/consent/service/service.go:194-234 | The call is the model's operation on ledger, trail and gauge; the error is the first that applies; the records returned are what the ledger holds at the purposes |
| ConsentService.ConsentService.Revoke | internal/consent/service/service.go:373-413 | The call is the model's operation; the records returned belong one by one to the audit events |
| ConsentService.ConsentService.RevokeAll | internal/consent/service/service.go:419-452 | The call is the model's operation and returns the number of active records |
| ConsentService.ConsentService.DeleteAll | internal/consent/service/service.go:457-484 | The call is the model's operation |
| ConsentService.ConsentService.Require | internal/consent/service/service.go:531-565 | The check answers by the record's status, revoked before expired |
| ConsentService.ConsentService.EndTx | cmd/server/consent_tx.go:39-54 | A failed body or commit undoes the body in the SQL transaction and only there |
| ConsentRequests.DedupePurposes | internal/consent/handler/requests.go:106-118 | Keeps each trimmed purpose where it occurs first |
| ConsentRequests.FirstOccurrencesDistinct | internal/consent/handler/requests.go:106-118 | The result has the same elements, none twice |
| ConsentRequests.DedupeHarmless | internal/consent/handler/requests.go:18-24 | Removing duplicates before a grant changes neither success nor ledger nor effects |
| Breaker.CountersCount | internal/ratelimit/middleware/circuitbreaker.go:51-84 | A closed breaker counts the failures since the last success, below its threshold; an open one the successes since the last failure, below its own |
| Breaker.OpenIff | pkg/platform/circuit/breaker.go:99-139 | The breaker is open exactly when some run of failures reached its threshold and no run of successes reached the other one since |
| Breaker.OpenByDefault | internal/ratelimit/middleware/circuitbreaker.go:33-40 | With the default thresholds, written out: open exactly when five failures in a row have occurred and no three successes in a row since |
| Breaker.ReportedIff | internal/ratelimit/middleware/circuitbreaker.go:51-84 | A call reports an opening exactly when the breaker is not open and the call completes a full run of failures, a closing exactly when it is open and the call completes a full run of successes |
| Breaker.ReportsAlternate | internal/ratelimit/middleware/circuitbreaker.go:51-84 | The reported changes strictly alternate: the first is an opening, and each is followed by one of the other kind |
| Breaker.CircuitBreaker.RecordFailure | internal/ratelimit/middleware/circuitbreaker.go:51-64 | Records one failure in the machine; fallback exactly when open; the change returned is the next report of the trace |
| Breaker.CircuitBreaker.RecordSuccess | internal/ratelimit/middleware/circuitbreaker.go:69-84 | Records one success; primary exactly when closed; the change returned is the next report of the trace |
| Breaker.CircuitBreaker.IsOpen | internal/ratelimit/middleware/circuitbreaker.go:42-46 | Open exactly when the trace has tripped it |
| Breaker.CircuitBreaker.constructor | pkg/platform/circuit/breaker.go:41-75 | The thresholds are the positive options, otherwise five failures and three successes |
| ClientCache.CleaningInvisible | internal/auth/adapters/client_cache.go:34-80 | A read no earlier than every cleanup answers as a cache that never cleans up, whichever expired entries the cleanups picked |
| ClientCache.UndisturbedIff | internal/auth/adapters/client_cache.go:34-80 | For every time to live and all times t and now: cleanups up to t go unnoticed by reads at now, whatever was written and removed, exactly when t is not after now. The source reads a monotonic clock under the cache's lock, so it always meets this |
| ClientCache.HitIsLastWrite | internal/auth/adapters/client_cache.go:34-64 | A hit is the value last stored for that client, no older than the time to live |
| ClientCache.NeverCleanedIff | internal/auth/adapters/client_cache.go:34-64 | Without cleanups there is a hit exactly when the last write for the client is no older than the time to live, and it is that write's value |
| ClientCache.Cache.Get | internal/auth/adapters/client_cache.go:34-49 | The unexpired entry, as without cleanup unless the clock went back |
| ClientCache.Cache.Set | internal/auth/adapters/client_cache.go:52-64 | One more write, with a proper cleanup |
| ClientCache.Cache.CleanupExpired | internal/auth/adapters/client_cache.go:68-80 | Removes only expired entries, at most ten, and all of them if fewer, in any order |
| ClientResolver.Resolver.ResolveClient | internal/auth/adapters/resilient_client_resolver.go:91-139 | Every result is an answer the delegate gave for the same client: this call's, or its last one before and no older than the time to live. As long as the clock does not go back, the call is answered without asking exactly when the recorded outcomes have tripped the breaker and the delegate's last answer for the client is not too old, and a failure of the delegate is covered exactly when that holds after recording it; every outcome is recorded |
| ClientResolver.Resolver.constructor | internal/auth/adapters/resilient_client_resolver.go:57-86 | Options that are given are used, thresholds only when positive; the defaults are five failures, three successes and five minutes in the cache |
| Calendar.CountsDays | pkg/domain/age.go:14-17 | The day count behind AddDate goes up by one with every day of the calendar, over month ends, leap years and centuries |
| Calendar.OrderIsCount | pkg/domain/age.go:14-17 | Dates are ordered as their day counts |
| Age.IsOver18Iff | pkg/domain/age.go:14-17 | The test equals comparing date and time of day with the same date eighteen years later, exactly except on the first of March after a leap-day birth whose time of day is not reached; without a time of day it always equals comparing dates |
| Age.OnceOver18 | pkg/domain/age.go:14-17 | Once over 18, always over 18 |
| Age.ParseFormat | internal/decision/models.go:62-65 | Every date written in the layout parses back to itself |
| Age.FormatParse | internal/decision/models.go:62-65 | Only written valid dates parse |
| Age.DeriveIsOver18Iff | internal/decision/models.go:58-67 | A citizen is over 18 exactly when the text is a valid date and today is not before it 18 years later; empty or malformed text is not |

## Left out

- HTTP handlers, routers, metrics other than the consent gauge, logging, audit publishing, configuration, message queues and database pools: plumbing without rules of its own.
- Signing and parsing of tokens, hashing, random identifiers, user agents: an access token is its claims with a fresh identifier and an expiry.
- In-memory auth records are shared by reference between store and reader; records here are values, so a snapshot does not change after it was read (as with the SQL stores, which build records from rows).
- Updates of auth records in place (`Apply*`, `Record*`, `MarkUsed`): functions from record to record, assigned back into the store's map by the methods of `AuthService`.
- Which device-binding event is logged for a missing or different device: nothing is refused or stored for it.
- Error codes and messages of the token endpoint, and which error a replay answers with: a refused request only stops.
- Nil identifiers of auth calls, which are refused before anything is read.
- Timeouts and cancelled contexts: a request may stop between any two store calls, and a consent transaction may not begin.
- The revocation list's size limit, eviction and own cleanup: entries stay until overwritten.
- Constraints of the SQL schema other than the foreign keys between users, sessions, codes and refresh tokens.
- Redis stores, session listing and filtering, email name derivation, redirect URI construction, display fields of devices.
- Consent record identifiers, `List`, `Update` and filters: nothing modelled reads them.
- Saturation of time differences beyond about 292 years: durations are unbounded integers.
- The order of emission in `ConsentHistory` and `ConsentTheorems`, where a call emits its audit events before the next one commits: `ConsentEmission` drops this and says what remains true.
- ConsentEmission.OrderedTrailTells: one direction only, because a trail that is out of order may still tell the ledger, depending on which records the swapped events concern.
- Concurrent SQL transactions on consent: transactions are serial, except that `UpsertGrantTx` meets other transactions' writes to its scope between its store calls. A failed commit is taken to have no effect.
- `Reset` of the platform breaker, breaker names, and the tenant adapter behind the resolver.
- Decision rules, registry, credential, tenant and rate-limit services.
- ConsentService.ConsentService.Grant: runs its upserts without concurrent writers, because those are the subject of `UpsertIsAtomic` and `ConflictIff`.
- AuthService.Service.LogoutAll: one call at a time; what interleaves with it is covered by the machine's results, which its run is part of.
