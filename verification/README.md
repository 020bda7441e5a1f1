# jwt-allauth: session whitelist, single-use credentials, attempt limits and account ownership

A Dafny model of the parts of jwt-allauth that change state in steps, and proofs of what its
documentation promises over whole runs. `dafny verify dfyconfig.toml` checks everything.

## What is modelled

**Sessions under concurrency.** `Protocol` is a machine of micro-steps: a transaction takes the
lock of a user, reads, deletes with a row count, inserts, commits or rolls back, and the
revocation a refused rotation calls for is a second transaction after the rollback. Any number
of rotations, logouts, logouts everywhere and credential changes interleave; reads and deletes
see committed rows only, and a row claimed by one transaction blocks the claim of another.
`Refinement` and `SessionGuarantees` prove that with the lock every run is the serial run in
lock order, `SessionHistory` that the whitelist says exactly what the history says, and
`LockNeeded` exhibits the session that outlives a logout everywhere when the lock does nothing.

**The refresh endpoint, statement by statement.** `Tokens` is the token class with its payload,
its attribute walk and its deadline arithmetic; `Rotation` is the rotation with its rollback,
the rejection, sign-in, both logouts and the revocation on a credential change, as methods on
the database proved against specification functions.

**Long runs of sessions.** `Sessions` and `SessionRuns` run whole requests one at a time and
prove the absolute lifetime over chains of any length and the invisibility of the session purge.
A run may start with tokens handed out under other settings: before the limit existed, while it
was longer, or by a version that wrote no session start. `SessionAnswers` says of every request
which answer it gets exactly when, and which rows it leaves.

**Single-use credentials.** `Purge` holds the retentions and the purge command. `Capabilities`
is one machine for reset links, reset and set capabilities, confirmations, invitations, MFA
challenges and setup secrets; `Views` and `MfaStorage` are the endpoints and the storage as
methods proved equal to it. `CapabilityPurge` proves that purging changes no answer,
`CapabilityLifecycle` that credentials are single-use, superseded and handed over completely,
`CapabilityInvitations` what an invitation can be exchanged for, and `CapabilityAnswers` says of
every request which answer it gets exactly when, and what it leaves, by accounts, rows and clock.

**Attempt limits.** `MfaStorage` has the sliding window, `MfaLimiter` and `MfaTightness` the
exact number of guesses under concurrency, `CapabilityCounts` that no other flow touches the
failures that count, `MfaFlows` that therefore every such flow is a step the bound allows for,
`CapabilityLimiter` and `CapabilityBudget` what the limits keep when requests come one at a time.

**Whose address it is.** `Accounts`, `Registration` and `Social` model the two resolvers, the
claim of an address and the social login; `AccountRuns` runs them together with every other
flow and proves which accounts can be lost, `InvitedAccounts` what keeps an invited one.

## Assumptions

- Ids drawn from `uuid4` are new, the clock never goes back, settings do not change during a
  run, and the leeway of the JWT library is zero.
- Reset links are distinct. Django makes them from the state of the account and the second, so
  two requests for one account in the same second yield the same link, which the model does not
  have: there each request has a link of its own.
- The database is READ COMMITTED; a transaction that raises is undone whole.
- Signatures, hashes, TOTP and recovery codes, password rules and allauth's own verdict on a
  confirmation key are answers the model is given, not computations it makes.
- A sign-in inserts its row without the lock, as the code does, so what is proved of a
  revocation speaks of sessions whose row was committed when the lock was taken.
- Instants are whole microseconds, the resolution of the columns; token claims are whole seconds.

## Promises that hold only under a condition

Each is proved with the exact condition, in both directions.

- `exp` can come closer along a rotation chain: a limit set after a token was handed out caps its
  successor, counted from the stamp or, for a token without one, from this rotation; so does a
  shorter lifetime of tokens. `ExpiryMovesForward` says exactly when, `StampedExpiryComesCloser`
  and `LegacyExpiryComesCloser` give such tokens.
- The session purge can be seen where the lifetimes of tokens were cut: it goes by the present
  ones, and a token handed out before may outlive its row. `SessionPurgeSeenExactly` says exactly
  when, `ShorterLifetimeSeesPurge` gives such a token.
- Purging can be seen by one request: a reset link opened in the last second of its timeout,
  past the fraction of a second it was made at, because Django counts whole seconds and the
  retention does not. `PurgeSeenExactly` and `LateExactly` say exactly when.
- The ordinary confirmation enables the first whitelist row of the user, so it can notice that
  an older row was purged. `ConfirmationSeesPurge` says exactly when, and
  `ConfirmationSeesPurgeExample` gives such a user.
- Verifications of one user can pass the limit together, because the lockout is checked outside
  the lock that guards the recording: with c in flight, up to c - 1 failures beyond the limit.
  `GuessBound` and `BoundIsReached` show that this is exact.

## Model

| member | source | states |
|---|---|---|
| ProtocolInvariants.NoFork | jwt_allauth/token_refresh/serializers.py:97-127 | In every run, with the lock or without it, a session has at most one committed row and no token is exchanged twice: the delete count alone carries this |
| ProtocolInvariants.ClosedForGood | jwt_allauth/token_refresh/serializers.py:62-129 | With the lock or without it, no run gives a session that lost its row another one |
| ProtocolInvariants.GuardedStep | jwt_allauth/utils.py:416-452 | Under the lock, what a transaction read and marked stays true of the committed rows until it ends, whatever the others do |
| Refinement.RefinesStep | jwt_allauth/utils.py:430-452 | Every micro-step keeps the committed rows equal to the serial whitelist of the turns ended so far, apart from rows a revocation is about to delete, and every recorded answer is the one the serial run gives |
| SessionGuarantees.SerialInLockOrder | jwt_allauth/utils.py:430-452 | Every interleaving answers and leaves the whitelist as running the same requests one at a time, each user's in the order the lock was given to them |
| SessionGuarantees.RevocationClosesForGood | jwt_allauth/revocation.py:61-64 | A session opened before a revocation starts to wait, and in its scope, has no row when it commits nor in any later state |
| SessionGuarantees.NoOvertakenRevocation | jwt_allauth/logout/views.py:81-87 | A session with a committed row when a revocation reaching it takes the lock has none when it commits and none ever after |
| LockNeeded.WithoutTheLock | jwt_allauth/utils.py:434-438 | With the lock made a no-op, a run is reached in which a logout everywhere was answered and the rotated successor is still listed |
| SessionGuarantees.ConsumedForGood | jwt_allauth/token_refresh/serializers.py:97-103 | A token that was exchanged, or whose session ended, never becomes valid again |
| SessionGuarantees.ReplayIsDetected | jwt_allauth/token_refresh/serializers.py:71-73 | Presenting a consumed token changes no row, is answered as a replay and starts the revocation of its session |
| SessionGuarantees.RefusalStarts | jwt_allauth/token_refresh/serializers.py:131-155 | What each refusal starts: the revocation of the session for a replay or an expired session, of everything of the account for a deactivated one, nothing for a disabled row |
| SessionGuarantees.ReplayKillsSession | jwt_allauth/token_refresh/serializers.py:131-145 | Once that revocation commits, no continuation lists the session or accepts any token of it, and the commit took no row of another session |
| SessionGuarantees.InactiveUserIsShutOut | jwt_allauth/token_refresh/serializers.py:153-154 | Once a rotation has found the account deactivated and its revocation commits, no session the account had has a row, then or in any continuation |
| SessionHistory.WhitelistTellsHistory | jwt_allauth/token_refresh/serializers.py:97-127 | A session has a standing row exactly when it was opened and not revoked since, and the row is the last token of its chain of rotations |
| Tokens.SyncIsFresh | jwt_allauth/tokens/tokens.py:179-194 | After a rotation the role, the verification state and every configured claim are those in the payload a sign-in hands out now, whatever the old token said |
| Tokens.SyncKeepsTheRest | jwt_allauth/tokens/tokens.py:179-194 | On the token of a session every claim but the role, the verification state and the configured ones is unchanged, present or absent, even where a reserved name is configured |
| Tokens.NoStalePrivilege | jwt_allauth/token_refresh/serializers.py:91-95 | After a chain of rotations of any length the regenerated claims are those a sign-in hands out at the last account state, and every other claim is what the first token said |
| Tokens.RefreshToken.CapExpToSession | jwt_allauth/tokens/tokens.py:65-71 | The expiry becomes the earlier of itself and the second of the deadline |
| Tokens.RefreshToken.AccessToken | jwt_allauth/tokens/tokens.py:73-82 | The access token carries the claims of the refresh token and never outlives the session |
| Tokens.RefreshToken.ReadAttribute | jwt_allauth/tokens/tokens.py:124-146 | The walk along a dotted path finds the value or stops at a missing, empty or raising attribute |
| Tokens.FollowExactly | jwt_allauth/tokens/tokens.py:124-146 | A path leads to an attribute if and only if a trail of readable fields, none missing, null or raising, ends at it |
| Tokens.WrittenExactly | jwt_allauth/tokens/tokens.py:148-149 | A configured name becomes a claim if and only if its path ends at a plain value or an object; methods never do |
| Tokens.LegacyNamesLast | jwt_allauth/tokens/tokens.py:90-97 | The legacy list names each claim after the last step of its path, and the last path of a name wins |
| Tokens.AttributeMapExactly | jwt_allauth/tokens/tokens.py:84-100 | Without a setting no claim is configured, a map is taken as it is, a list by its last steps |
| Tokens.RefreshToken.SetUserAttributes | jwt_allauth/tokens/tokens.py:102-149 | The loop over the configured names adds exactly the claims that are found, callable values and present claims excepted, and refuses a map that names the role |
| Tokens.RefreshToken.SyncUserClaims | jwt_allauth/tokens/tokens.py:179-194 | Removes the configured claims, reserved ones excepted, and writes them again from the account |
| Rotation.Rotate | jwt_allauth/token_refresh/serializers.py:62-129 | Checks in the order of the code; on success the presented row is replaced by its successor, with new times, a reread account and the cap of the session |
| Rotation.RotationKeepsTheRest | jwt_allauth/token_refresh/serializers.py:77-110 | What a rotation neither reads again nor renews is in the successor as it was in the token presented |
| Rotation.VerdictExactly | jwt_allauth/token_refresh/serializers.py:71-89 | Each verdict if and only if its check fails and those before it pass, read off the row, the token and the account |
| Rotation.Reject | jwt_allauth/token_refresh/serializers.py:131-155 | Left are exactly the rows of other sessions after a replay or an expired session, those of other users after a deactivation, all after a disabled row; the error tells which, and asks for the confirmation exactly where it is owed |
| Rotation.Validate | jwt_allauth/token_refresh/serializers.py:42-60 | The whole endpoint: an accepted token is exchanged with the account read again; a refused rotation is undone before its revocation runs and answered with the error of its reason; one that fails otherwise is undone and revokes nothing |
| Rotation.ForUser | jwt_allauth/tokens/tokens.py:196-237 | A sign-in writes one row and a payload with the capped times, the role, the verification state of the account and its configured claims |
| Rotation.Logout | jwt_allauth/logout/serializers.py:17-34 | Only for the caller it belongs to, and failing when nothing is there; left are exactly the rows of other tokens in other sessions |
| Rotation.LogoutAll | jwt_allauth/logout/views.py:81-91 | The rows left are exactly those of the other users, as they were |
| Rotation.RevokeOnCredentialChange | jwt_allauth/revocation.py:26-64 | Left are exactly the sessions of others, the single-use rows of others and failed attempts, and the addresses of others or confirmed or primary; or everything, where the installation opted out |
| SessionAnswers.OpenExactly | jwt_allauth/tokens/tokens.py:196-237 | A sign-in writes one row under the id of its token, enabled as asked |
| SessionAnswers.RefreshExactly | jwt_allauth/token_refresh/serializers.py:62-129 | A refresh succeeds if and only if the token is good, listed and enabled, its session not over and its account active; then its successor, enabled, takes its row |
| SessionAnswers.RefusedExactly | jwt_allauth/token_refresh/serializers.py:131-155 | Each refusal with its error and the rows it leaves, by the first check to fail |
| SessionAnswers.LogoutExactly | jwt_allauth/logout/serializers.py:17-34 | A logout succeeds if and only if the caller owns the token and its session is open, and leaves exactly the other sessions |
| SessionAnswers.AuthenticateExactly | jwt_allauth/authentication.py:48-71 | An access token is let in if and only if it is good and, where that is checked, its session is listed |
| SessionAnswers.EndedExactly | jwt_allauth/revocation.py:61-64 | A logout everywhere, and a change of credentials unless opted out, leave exactly the sessions of the others |
| SessionRuns.StampNeverChanges | jwt_allauth/token_refresh/serializers.py:77-84 | Once a session is stamped no run changes its stamp |
| SessionRuns.AbsoluteLifetime | jwt_allauth/tokens/tokens.py:46-82 | Once a session is stamped, every token handed out for it from then on carries the stamp and expires by it plus the lifetime, and from that instant on no token of the session is rotated, whatever its own expiry, over runs of any length |
| SessionRuns.AccessIsShort | jwt_allauth/tokens/tokens.py:73-82 | An access token is of the session and user of the refresh token beside it and lives no longer than configured |
| SessionRuns.SessionOverExactly | jwt_allauth/token_refresh/serializers.py:81-84 | A refresh reports an expired session if and only if the token is still good, listed and enabled and its stamp lies the lifetime back, and then no row of the session is left |
| SessionRuns.LimitEndsOldSession | jwt_allauth/tokens/tokens.py:46-63 | A session opened without a limit, whose token is good for two weeks, is reported expired once a limit of an hour is set two hours later |
| SessionRuns.LegacyIsAnchored | jwt_allauth/token_refresh/serializers.py:77-80 | A session from before lifetimes is stamped at its first rotation and was not stamped before |
| SessionRuns.ExpiryMovesForward | jwt_allauth/token_refresh/serializers.py:105-108 | A successor expires earlier than the token it replaces if and only if that token was to live longer than a new one does now, or the deadline counted from its stamp, or from now without one, falls before its expiry |
| SessionRuns.CappedMovesForward | jwt_allauth/tokens/tokens.py:65-71 | Of tokens capped to the present limit only one without a stamp has a successor that expires earlier |
| SessionRuns.LegacyExpiryComesCloser | jwt_allauth/tokens/tokens.py:65-71 | A token without a stamp is accepted and its successor expires earlier |
| SessionRuns.StampedExpiryComesCloser | jwt_allauth/tokens/tokens.py:65-71 | A token with a stamp, from before the limit was set, is accepted and its successor expires earlier |
| SessionRuns.CappedDiesFirst | jwt_allauth/tokens/tokens.py:56-71 | A token capped to its session has itself expired by the instant the session is reported expired |
| Sessions.PurgeSessionRows | jwt_allauth/tokens/purge.py:176-202 | Deletes exactly the rows past retention and reports how many, or only counts on a dry run |
| SessionRuns.PurgingSessionsIsInvisible | jwt_allauth/tokens/purge.py:155-202 | Purging sessions anywhere in a run changes no answer of a refresh, a logout or a checked authentication, where no outstanding token outlives the retention |
| SessionRuns.SessionPurgeSeenExactly | jwt_allauth/tokens/purge.py:155-202 | In any installation a purge changes the answer to a refresh if and only if the token is good, its row is past retention and the row would have meant anything but a replay |
| SessionRuns.ShorterLifetimeSeesPurge | jwt_allauth/tokens/purge.py:155-173 | A token from before the lifetime was cut is rotated without the purge and refused after it |
| SessionRuns.ConfirmationSeesPurge | jwt_allauth/registration/email_verification/views.py:309-313 | Enabling the first row commutes with the purge if and only if that row is kept, or nothing else is left to enable |
| SessionRuns.ConfirmationSeesPurgeExample | jwt_allauth/registration/email_verification/views.py:309-313 | A user with a session past retention and a new disabled one, whom the two orders leave differently |
| SessionRuns.HandoverEndsSessions | jwt_allauth/revocation.py:61-62 | After a credential change no token of a session of the user is rotated in any continuation, nor authenticated under the session check |
| MfaStorage.LockoutIsWindowCount | jwt_allauth/mfa/storage.py:255-278 | Sorting, taking the limit and testing the last is a lockout exactly when that many failures lie in the closed window ending now |
| MfaStorage.ReleasedAfterWindow | jwt_allauth/mfa/storage.py:255-278 | Without a new failure the user is locked out up to the N-th newest failure plus the window and released at every later instant |
| MfaStorage.AnnouncedWait | jwt_allauth/mfa/storage.py:277-278 | The wait announced is the time left until that release, in whole seconds and at least one |
| MfaStorage.CreateSetupChallenge | jwt_allauth/mfa/storage.py:101-110 | Every setup challenge the user is left with is live, one is new, and nothing but expired ones was lost |
| MfaStorage.GetSetupChallengeUser | jwt_allauth/mfa/storage.py:113-129 | The account behind the newest row when it is live; an expired or orphaned row is dropped |
| MfaStorage.CreateLoginChallenge | jwt_allauth/mfa/storage.py:172-181 | Adds a challenge; every challenge of the user left is live, and nothing but expired ones and failures too old to count was lost |
| MfaStorage.GetLoginChallengeUser | jwt_allauth/mfa/storage.py:184-197 | The user of the newest row when it is live; an expired one is dropped |
| MfaStorage.LoadSetupSecret | jwt_allauth/mfa/storage.py:151-162 | The newest secret of the user when it is live; an expired one is dropped |
| MfaStorage.RecordFailedLoginAttempt | jwt_allauth/mfa/storage.py:285-316 | Records the failure, then applies the limit of the user before that of the challenge, dropping challenges accordingly |
| MfaStorage.OutcomeExactly | jwt_allauth/mfa/storage.py:285-316 | From the failures before it: locked out, challenge gone, and the wait, each if and only if a count reaches its limit; a lockout takes every challenge of the user, the other limit only its own, and no other row goes |
| MfaLimiter.GuessBound | jwt_allauth/mfa/views.py:305-333 | With at most c verifications in flight no window of the lockout length records more than N + c - 1 failures between successes, over both endpoints and any challenges |
| MfaTightness.BoundIsReached | jwt_allauth/mfa/storage.py:285-316 | For every limit and every c some run, made of logins of the user and of checks and failures on the live challenges these hand out, records exactly N + c - 1 failures at one instant |
| MfaFlows.FlowIsElsewhere | jwt_allauth/mfa/storage.py:233-252 | Every request of every other flow, the wrong codes of other users and the purges included, is a step the guess bound allows for |
| MfaFlows.SerialGuessBound | jwt_allauth/mfa/storage.py:255-316 | Over serial runs of all flows no window of the lockout length records more wrong codes of a user than the limit between two successes |
| CapabilityLimiter.LimitsHold | jwt_allauth/mfa/storage.py:285-316 | Over any serial run an account over its limit holds no login challenge, every challenge has an attempt left, and failures are younger than their challenge |
| CapabilityLimiter.LockedOutHoldsNone | jwt_allauth/mfa/gate.py:111-130 | In every state a serial run reaches, a locked-out account has no login challenge row |
| CapabilityLimiter.PurgedAttemptsDoNotCount | jwt_allauth/mfa/storage.py:240-247 | Dropping old failures changes neither the lockout nor the count of a challenge that can still be answered |
| CapabilityBudget.ChallengeBudget | jwt_allauth/mfa/storage.py:309-314 | Over any serial run with purges at most the configured number of wrong codes is taken on one challenge between two successes of its owner |
| CapabilityBudget.BudgetStarts | jwt_allauth/mfa/storage.py:172-181 | A new challenge starts with its whole budget |
| CapabilityCounts.FlowsSpare | jwt_allauth/mfa/storage.py:240-252 | Nothing but a wrong code or a success of its owner changes the failures counted on a live challenge, or on any other selection of young failures |
| CapabilityCounts.CountedChangeOnlyBy | jwt_allauth/mfa/storage.py:233-252 | The failures of a user that still count change by the wrong codes and the successes of that user and by no other request, wrong codes of others and purges included |
| Purge.PurgeTokens | jwt_allauth/tokens/purge.py:133-152 | Deletes exactly the rows past the retention of their purpose and reports, for every purpose with any and no other, how many there were; a dry run reports the same and deletes nothing |
| Purge.PurgeLeavesExactly | jwt_allauth/tokens/purge.py:73-130 | With the built-in retentions a row stays if and only if it is not older than its purpose is of use for: the reset timeout, the life of an access token, the confirmation window, five minutes, or the longer of those and the lockout |
| CapabilityPurge.PurgeSparesLive | jwt_allauth/tokens/purge.py:73-130 | A purge takes no row a flow could still honour, unless an override shortens a built-in retention |
| CapabilityPurge.PurgingTokensIsInvisible | jwt_allauth/tokens/purge.py:12-13 | Purging anywhere in a run changes no answer of any flow, unless a reset link is opened late in its last second |
| CapabilityPurge.InvisibleOnWholeSeconds | jwt_allauth/tokens/purge.py:73-152 | On a clock of whole seconds no run can tell |
| CapabilityPurge.PurgeSeenExactly | jwt_allauth/tokens/tokens.py:265-272 | The answer of a link changes after a purge if and only if it is signed, its account active and its row present, and it is opened in that last fraction |
| CapabilityPurge.LateExactly | jwt_allauth/tokens/purge.py:83-85 | That fraction: the second the timeout ends in, past the fraction the link was made at |
| CapabilityPurge.LateLinkExample | jwt_allauth/tokens/purge.py:83-85 | A link of ten seconds opened after 10.05 seconds is honoured, and refused if a purge ran |
| CapabilityInvariants.InvStep | jwt_allauth/tokens/models.py:59-95 | Every request keeps each row accounted for by the credential handed out under its id: same account, purpose and date |
| CapabilityTable.EditStep | jwt_allauth/tokens/models.py:82-95 | Every request deletes rows and writes at most the one its answer names |
| CapabilityAnswers.ResetMailExactly | jwt_allauth/password_reset/serializers.py:37-54 | A link goes out if and only if somebody confirmed the typed address and the account is active with a password; it replaces the earlier ones and nothing else |
| CapabilityAnswers.OpenResetExactly | jwt_allauth/password_reset/views.py:162-211 | A link is exchanged if and only if it is signed, in time by whole seconds, its account active and its row there; link and earlier capabilities go |
| CapabilityAnswers.RedeemResetExactly | jwt_allauth/password_reset/views.py:246-267 | Refused, unacceptable or saved, each exactly when; a good capability is spent in all three |
| CapabilityAnswers.ChangePasswordExactly | jwt_allauth/password_change/serializers.py:43-60 | Saved for an active account and an acceptable password, with everything outstanding taken down unless the installation opted out, and otherwise nothing changes |
| CapabilityAnswers.MailExactly | jwt_allauth/adapter.py:175-200 | The mail of a sign-up without a password is an invitation, every other an ordinary confirmation |
| CapabilityAnswers.EntryExactly | jwt_allauth/registration/email_verification/views.py:216-231 | A key stands for a row of either purpose that is within the confirmation window, if there is one |
| CapabilityAnswers.OrdinaryKeyExactly | jwt_allauth/registration/email_verification/views.py:296-325 | A key that is no invitation confirms what it names, or is not found |
| CapabilityAnswers.StrangeKeyExactly | jwt_allauth/registration/email_verification/views.py:228-231 | With registration closed a key without a live row changes nothing |
| CapabilityAnswers.InvitationKeyExactly | jwt_allauth/registration/email_verification/views.py:233-293 | Nothing for a deactivated account or a bad key; otherwise the address is confirmed, and the capability goes out unless there is a password |
| CapabilityAnswers.ReservedExactly | jwt_allauth/accounts.py:106-134 | An invitation reserves if and only if the account has no password and its row is within the window |
| CapabilityAnswers.RedeemInvitationExactly | jwt_allauth/password_reset/views.py:287-330 | Refused, unacceptable or saved, each exactly when; the links go with it, and enrolment is asked for exactly where it is required |
| CapabilityAnswers.GateExactly | jwt_allauth/mfa/gate.py:90-130 | Session, setup challenge, refusal or login challenge, each if and only if the mode, the authenticator and the failures in the window say so |
| CapabilityAnswers.PendingExactly | jwt_allauth/mfa/gate.py:68-87 | A second factor is owed by who has one, and by everybody where it is required |
| CapabilityAnswers.VerifyExactly | jwt_allauth/mfa/views.py:291-336 | Each answer of the endpoint if and only if its check is the first to fail; a session takes the challenge and the failures and nothing else |
| CapabilityAnswers.SetupUserExactly | jwt_allauth/mfa/permissions.py:23-39 | The caller, or without one the account behind a setup challenge not older than five minutes |
| CapabilityAnswers.BeginSetupExactly | jwt_allauth/mfa/views.py:78-107 | A secret goes out if and only if the account has no authenticator and the mode is on, and replaces the one before |
| CapabilityAnswers.ActivateExactly | jwt_allauth/mfa/views.py:131-180 | The authenticator is stored if and only if the code is right and the secret live; only then secret and challenge go |
| CapabilityLifecycle.DeadForGood | jwt_allauth/tokens/models.py:82-95 | A credential without a row is refused by every request of every continuation |
| CapabilityLifecycle.SingleUse | jwt_allauth/password_reset/views.py:246-267 | A link, capability, challenge or secret let through once is never honoured again, even when the new password was refused |
| CapabilityLifecycle.Superseded | jwt_allauth/password_reset/views.py:194-207 | A new reset link, capability or secret kills the earlier ones of the same account and kind for good |
| CapabilityLifecycle.HandoverIsComplete | jwt_allauth/revocation.py:26-64 | After a password is set by reset, change or invitation, nothing handed out for the account before is honoured in any continuation: no capability, code or challenge is accepted, and where registration is closed no earlier link confirms anything |
| CapabilityLifecycle.HandoverSpares | jwt_allauth/revocation.py:35-44 | The failures that feed the lockout and every primary address survive; no pending secondary address does |
| CapabilityLifecycle.HandoverIsContained | jwt_allauth/revocation.py:61-64 | Other accounts keep their rows, their addresses and their state |
| CapabilityLifecycle.InvitationLinkDies | jwt_allauth/password_reset/views.py:305-311 | Once an invitation has led to a password its links hand out nothing again, even where sessions outlive a change |
| CapabilityInvitations.OneCapabilityAtATime | jwt_allauth/registration/email_verification/views.py:279-291 | Over any run an account holds at most one password-set capability row |
| CapabilityInvitations.HandingReplaces | jwt_allauth/registration/email_verification/views.py:279-291 | A click leaves its account exactly one capability row and every other account as many as before |
| CapabilityInvitations.NoCapabilityOncePasswordIsSet | jwt_allauth/registration/email_verification/views.py:247-258 | Once the account has a usable password no request of any run hands out another capability |
| Views.Consume | jwt_allauth/tokens/models.py:82-95 | Succeeds exactly when a row was there, and leaves none |
| Views.MakeToken | jwt_allauth/tokens/tokens.py:247-263 | Adds the link; every row of the account and purpose left has its id, and all other rows are as before |
| Views.CheckToken | jwt_allauth/tokens/tokens.py:265-272 | Honours a signed, timely link whose row it removes, and changes nothing otherwise |
| Views.RequestPasswordReset | jwt_allauth/password_reset/serializers.py:37-54 | When somebody confirmed the typed address, one link after the other for the matching accounts that are active and have a password; otherwise nothing |
| Views.FormIsARun | jwt_allauth/password_reset/serializers.py:53-54 | A form that matches several accounts does what a run of one request for each does, and answers each as that run does |
| Views.ConfirmPasswordReset | jwt_allauth/password_reset/views.py:162-211 | Exchanges an honoured link for a capability, dropping the one before |
| Views.ResetPassword | jwt_allauth/password_reset/views.py:246-267 | Claims the capability before looking at the account or the password, then revokes, then opens one session |
| Views.ClaimInvitation | jwt_allauth/registration/email_verification/views.py:200-293 | Decides between confirming, refusing, handing back to the ordinary flow and handing out the capability as the specification does |
| Views.VerifyEmail | jwt_allauth/registration/email_verification/views.py:295-325 | The whole confirmation endpoint: an invitation key leaves the sessions alone; an ordinary one confirms the address, enables the first session of the account and opens one only where the settings say so and no address was confirmed before |
| Views.EnabledExactly | jwt_allauth/registration/email_verification/views.py:309-325 | The first session is enabled and no other changes; one is opened if and only if it was asked for and no address was confirmed before |
| Views.OrdinaryExactly | jwt_allauth/registration/email_verification/views.py:200-235 | A key is left to the ordinary confirmation if and only if there are no invitations, or sign-up is open and its live row is not one |
| Views.OneSignUpSession | jwt_allauth/registration/email_verification/views.py:315-325 | After a confirmation no later one of that account completes a sign-up, and nothing changes for another account |
| Views.SetPassword | jwt_allauth/password_reset/views.py:287-330 | Claims, stores, revokes and drops the links; while enrolment is owed no session is new, and otherwise exactly one is, enabled, opened after the revocation |
| Views.CompletedExactly | jwt_allauth/password_reset/views.py:313-330 | The sessions a completed invitation leaves: those of others, and one new session if and only if no enrolment is owed |
| Views.OneSessionAfterReset | jwt_allauth/password_reset/views.py:259-263 | Afterwards the only session of the account is the one just handed out |
| Views.MfaChallenge | jwt_allauth/mfa/gate.py:90-130 | No payload, a setup challenge, a refusal while locked out, or a login challenge, with the rows each leaves |
| Capabilities.PendingAgreesWithGate | jwt_allauth/mfa/gate.py:68-87 | The question asked without a write agrees with the step: a session straight away exactly when nothing is pending |
| Views.VerifyMfa | jwt_allauth/mfa/views.py:291-336 | Challenge, lockout, authenticator, code, counters and session, in that order |
| Views.StartTotpSetup | jwt_allauth/mfa/views.py:78-107 | A new secret for an account without an authenticator replaces the one under way |
| Views.ConfirmTotp | jwt_allauth/mfa/views.py:131-215 | The secret and the setup challenge are spent only once a code is right; an enrolment that comes before the first session opens it, disabled while a mandatory confirmation is pending |
| Views.BootstrappedExactly | jwt_allauth/mfa/views.py:182-212 | A session is opened if and only if enrolment came before the first one, and enabled unless a mandatory confirmation is owed |
| Accounts.ResolveEmail | jwt_allauth/accounts.py:137-172 | The loop returns the first owner, or every holder when there is none |
| Accounts.ResolveEmailForProvider | jwt_allauth/accounts.py:175-210 | The loop returns the first proven owner, or splits the holders by use, in order |
| Accounts.QuestionsExactly | jwt_allauth/accounts.py:36-134 | Control of a mailbox is proved by privilege, a confirmed address or a live invitation, never by a login; an account is claimed by these or by a login |
| Accounts.ResolversInStep | jwt_allauth/accounts.py:79-103 | Registration finds no owner exactly when a provider finds neither owner nor occupant, and then both would remove the same accounts in the same order |
| Accounts.ReissueIsWeaker | jwt_allauth/registration/serializers.py:229-243 | Lifting the reservation never takes an address that was free |
| Accounts.ResolutionIsSound | jwt_allauth/accounts.py:137-172 | The owner holds the address and is claimed; nobody superseded is |
| Registration.ClaimFailsExactly | jwt_allauth/registration/serializers.py:54-66 | A sign-up is turned away if and only if addresses are unique and some holder is verified or claimed |
| Registration.ClaimTakesNobodys | jwt_allauth/registration/serializers.py:84-114 | Whoever a claim deletes holds the address and is nobody's account |
| Registration.ClaimDeletesExactly | jwt_allauth/registration/serializers.py:84-114 | A claim that succeeds deletes every holder of the address where addresses are unique, and otherwise nobody |
| Registration.ClaimAnswersExactly | jwt_allauth/registration/serializers.py:84-114 | A claim fails silently or with an error, each if and only if the form and an earlier conflict say so |
| Registration.DeleteUsers | jwt_allauth/registration/serializers.py:107-108 | The loop removes exactly these accounts, with their addresses, rows and sessions |
| Registration.ErasedExactly | jwt_allauth/registration/serializers.py:107-108 | A deletion takes exactly the accounts, addresses, rows and sessions of those it names |
| Registration.RegisterForm.ValidateEmail | jwt_allauth/registration/serializers.py:54-66 | Read-only: an error, or a conflict remembered to be hidden |
| Registration.RegisterForm.ClaimEmail | jwt_allauth/registration/serializers.py:84-114 | Asks again at the moment of the claim; deletes only when it succeeds |
| Registration.RegisterForm.Save | jwt_allauth/registration/serializers.py:179-201 | Creates the account with one new primary address, confirmed exactly where nothing is verified, or silently nothing, or fails leaving everything as it was |
| Registration.SignedUpExactly | jwt_allauth/registration/serializers.py:193-201 | The newcomer has exactly one address, the one of the form, primary, and confirmed if and only if the installation verifies nothing |
| Registration.RegisterForm.SaveInvited | jwt_allauth/registration/serializers.py:280-301 | Creates an account without a password and sends its invitation |
| Registration.InvitedExactly | jwt_allauth/registration/serializers.py:280-301 | The invited newcomer has no password, exactly one address, not confirmed, and its invitation |
| Social.ResolveAddresses | jwt_allauth/social/flows.py:383-424 | The loop over the vouched addresses reaches the verdict of the specification |
| Social.VerdictExactly | jwt_allauth/social/flows.py:383-424 | Link, conflict, refusal or sign-up, each if and only if a statement about flags and rows holds, without the two questions of the code |
| Social.VerdictIsOrderFree | jwt_allauth/social/flows.py:406-424 | Neither the order of the addresses nor that of the rows changes the kind of verdict or the set of accounts removed |
| Social.VerdictIsSound | jwt_allauth/accounts.py:175-210 | An account linked to holds a vouched address and is privileged, confirmed or invited; an account removed is none of these and was never logged in to |
| Social.OwnerIsFirst | jwt_allauth/social/flows.py:404-411 | The account linked to is that of the first owned row of the first vouched address anybody owns |
| Social.LoginExactly | jwt_allauth/social/flows.py:427-476 | Every outcome of a login without a connection, each exactly when |
| Social.ConnectedExactly | jwt_allauth/social/flows.py:359-364 | A connected identity reaches its account whatever its addresses say |
| Social.DisplacedExactly | jwt_allauth/social/flows.py:383-445 | Whoever holds a vouched address loses account and sessions if and only if nothing is connected and no vouched address is owned or used |
| Social.GatesExactly | jwt_allauth/social/flows.py:366-380 | Whatever account was reached, an inactive one is refused, and an unconfirmed one exactly where confirmation is mandatory |
| Social.LetInExactly | jwt_allauth/social/flows.py:427-445 | A login changes no account but its own; one it creates has no password and the addresses of the provider, confirmed as the provider says |
| Social.UsedIsNotProven | jwt_allauth/accounts.py:36-76 | An account that was only ever logged in to is refused to a provider that vouches for its address |
| Social.AuthenticateSocialLogin | jwt_allauth/social/flows.py:324-380 | The whole login as one transaction: a refusal at any gate undoes the sign-up, the deletions and the link; a sign-up takes the sessions of the accounts it removes and no others |
| Social.NoTakeover | jwt_allauth/social/flows.py:448-476 | A login reaching an account it was not connected to had linking on and a vouched address of it; the account is active, owes no second factor, and is privileged, confirmed, or invited and without a password |
| AccountRuns.ClaimedAccountsSurvive | jwt_allauth/accounts.py:36-103 | No run of sign-ups, invitations, social logins and every other flow deletes an account that has logged in, is privileged or has a confirmed address |
| AccountRuns.ConfirmedOnlyByLink | jwt_allauth/registration/serializers.py:193-201 | Over any run of all flows an account gets its first confirmed address only by a key that names it, by a sign-up where nothing is verified, or from the provider it signed up with |
| AccountRuns.DeletedExactly | jwt_allauth/social/flows.py:427-445 | An account a request deletes was not claimed, and if an open invitation reserved it the request invited one of its addresses again |
| InvitedAccounts.InvitedAccountsSurvive | jwt_allauth/accounts.py:106-134 | An invited account survives every run of all flows, purges included, while its link lives, unless the administrator invites one of its addresses again: it still waits for the invitation, or it is claimed, provided no password was set before an address was confirmed |
| InvitedAccounts.FlowLeaves | jwt_allauth/accounts.py:106-134 | No flow takes a live invitation from an account but one that gives it a password |

## Left out

- JWT signing and parsing, hashing, encryption, TOTP and recovery-code checks and confirmation keys: library calls, present as answers the requests carry.
- Provider exchanges, mail, templates, cookies, CSRF, throttles, user-agent columns, URL routing and schemas: plumbing or text.
- The row save of the ordinary confirmation (jwt_allauth/registration/email_verification/views.py:309-313) is outside the interleaved machine: it reads and writes a row without the lock.
- Concurrency of registration, social login, invitation and reset flows: they take no session lock, so a request of theirs is one step.
- A success of a second factor deletes the challenge and then the failures in two statements; the concurrent machine takes them as one.
- Counting and deleting in a logout are one step of the interleaved machine, and a transaction is not aborted between marking rows and committing their deletion.
- Rotation.Rotate: nothing runs beside it there, so its delete count is always one, and an id that is taken is found by the validation of the row; the claim that fails is a step of the interleaved machine, and the unique constraint behind the validation is not modelled.
- SessionRuns.AbsoluteLifetime: a token handed out before the claim existed, or before the limit was set, keeps the expiry it was given then; only its rotation is refused.
- CapabilityLifecycle.HandoverIsComplete: where sign-up is open, a confirmation link may still confirm the address it names, because the ordinary confirmation does not look at the row that was deleted.
- Views.VerifyEmail: rows of the whitelist are ordered by token id, which stands for the primary key.
- Views.RequestPasswordReset: the accounts whose own e-mail field matches are an argument; the query is Django's.
- Retention overrides that shorten a built-in retention, a non-zero leeway, and settings changed during a run; session runs may start with tokens from before a change.
- InvitedAccounts.InvitedAccountsSurvive: an account that is given a password while none of its addresses is confirmed and nobody has logged in to it can be superseded like any other.
- The guide says that sessions from before a limit carry no start (docs/source/refresh_token.rst:89-92); the code stamps every session it opens, limit or not, and so does the model.
- Case folding of e-mail addresses, extra allauth rules on which address becomes primary, roles and permissions, disconnecting a provider, and deactivating MFA: easy members or other libraries.
- Whether the set of purposes the library does not manage grows: a report without a decision.
