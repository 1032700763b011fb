# RADONAIX backend: verified model

A Dafny model of the parts of the RADONAIX revenue-assurance backend that keep
state across requests, with proofs about every run of them.

**Identity.** `IdentityModels` holds the rows, `Security` the password hashing and
the tokens, `Rbac` the permission matrices. `IdentityService` says what each request
does to the committed tables in one step. `IdentityDatabase.AppSession` is the
statement-by-statement form: a working copy inside a transaction, commit on success,
rollback on an error, and four error paths that commit on purpose before they
raise; any flush or commit may fail after rows have been changed, and every request is
proved to commit and answer exactly what the one-step description says, or to commit
nothing. `IdentityRuns` builds serial runs out of such steps, with a clock that never
goes back, identifiers that are never drawn twice, and clients that can only present
tokens they were given. The theorem files then describe the service
by its history instead of its rows: `LockoutTheorems` by the times of the wrong
passwords since the last sign-in, `RotationTheorems` and `AccessTheorems` by the token
returned last for a session and by whether anything has ended the session,
`AuditTheorems` by counting audit rows, `PasswordTheorems` by the hash format.
`CommandTheorems` says of each request exactly when it succeeds and which columns and
rows it commits.
`Interleaving` is the same service under concurrency: a request reads each row at some
moment since it began, decides, and writes back only the columns it changed.
`InterleavingTheorems` says what survives every interleaving (a committed revocation,
sign-out, the bounds on the counter), `OverlapTheorems` what does not, with the exact
condition under which it does.

**Reports.** `References` is the count-then-insert numbering shared by reports, cases
and saved queries. `Reports` is the protocol of creation, at-least-once delivery,
workers with intermediate commits, and download; `ReportWorker` is the task's own code,
whose effects are moves of that protocol, and the chunked digest.

**Figures and seeding.** `SizeFormat` is the byte-size text, `Recon` the reconciliation
figures computed separately by three routes, `Seed` the database seeder. `Prelude`,
`Rounding` and `Decimal` are shared vocabulary.

Assumptions are explicit in the model. The cryptographic libraries are the function
values of `Security.Primitives`, of which `Security.Lawful` assumes only that a new
Argon2 hash is an Argon2id hash with current parameters that verifies its password.
Tokens are ideal: decoding returns what was encoded. Times are whole microseconds and
a request reads the clock once. The digest of a file is an arbitrary function, and a
hash object is assumed only to digest joined input like consecutive input.

Where code and documentation differ, the code is followed:

- The security notes say a replayed refresh token revokes the session and that tokens
  rotate on every use. That is exact for requests that do not overlap: a token is
  accepted again only by a request that began before the first acceptance committed
  (`OverlapTheorems.SecondUseOverlapsFirst`), and such requests can always be
  (`OverlapTheorems.TokenAcceptedTwice`).
- The same notes say an account locks after the configured number of failures. A
  failure is counted exactly if the stored count is still the one its request read
  (`OverlapTheorems.FailureCountedIffUndisturbed`); otherwise it can even lower the
  count (`OverlapTheorems.LateFailureLowersCount`).
- Creating a user compares addresses ignoring case, updating one and seeding do not.
  `AccessTheorems.AddressChanges` and `Seed.SeedingKeepsAddressesApart` say exactly when
  that makes sign-in fail; `AccessTheorems.SuchAnUpdate` is an update that does.
- A stage of the pipeline page can show a match rate of 99.00 and still be a warning;
  `Recon.StageAgainstRate` gives the interval, `Recon.WarningAt99` such rows.
- A report can become Failed without having been Running: exactly when its task raises
  before the first commit (`Reports.FailsWithoutRunning`, `Reports.QueuedReportCanFail`).

## Model

| member | source | states |
|---|---|---|
| Security.NewHashIsCurrent | app/core/security.py:27-65 | a new hash has the Argon2id format, needs no rehash, and verifies the password it was made from |
| Security.VerifyDispatch | app/core/security.py:32-49 | the format of a stored hash chooses the library whose answer counts; an unknown format verifies nothing |
| Security.KeptHashes | app/core/security.py:52-65 | a hash is not renewed exactly when it is an Argon2 hash that the library parses and finds current |
| Security.BcryptBranchMatters | app/core/security.py:32-49 | dropping the bcrypt branch of the verifier changes its answer exactly for non-Argon2 hashes that bcrypt accepts |
| Security.LifetimeIsExact | app/core/security.py:75-107 | although both ends are floored to seconds, exp minus iat is exactly the lifetime, and exp is never later than the unfloored instant |
| IdentityModels.ActiveSpellings | app/modules/identity/models.py:65-67 | an account is active exactly if its status spells the word in any mixture of cases |
| Rbac.DefaultsAre | app/core/rbac.py:46-86 | the default matrix has both flags for every feature, set exactly for the features listed for the role; an unlisted role has all |
| Rbac.DefaultsIncrease | app/core/rbac.py:51-82 | viewer, analyst, manager and administrator may do by default ever more, the last everything |
| Rbac.ViewOnlyEntry | app/core/rbac.py:89-91 | an entry that only grants viewing admits viewing and refuses editing, a missing entry refuses both |
| IdentityService.FindByEmailMeaning | app/modules/identity/service.py:174-176 | the case-insensitive lookup yields nothing exactly when no account matches, and an account exactly when it is the only match; otherwise it is an error |
| IdentityDatabase.AppSession.Close | app/core/database.py:69-77 | leaving a request commits its work; raising, or failing to commit, drops whatever it had changed since the last commit; no work is left over |
| IdentityDatabase.AppSession.CountFailure | app/modules/identity/service.py:188-201 | the failure is counted, or the account locked, in a commit of its own, or the database failed and nothing is committed |
| IdentityDatabase.AppSession.Authenticate | app/modules/identity/service.py:160-212 | on an error the committed tables are those of the one-step sign-in, decided as LockoutTheorems.SignInDecision says (the counted failure or the lock survives), or unchanged if the database failed; on success nothing is committed yet and the open work plus its audit row is that step |
| IdentityDatabase.AppSession.SignIn | app/modules/identity/router.py:20-33 | wherever the database fails, the session, lock reset, rehash and audit row commit together, as the one-step sign-in, or not at all |
| IdentityDatabase.AppSession.RefreshSession | app/modules/identity/service.py:215-266 | outcomes are those of the one-step refresh, decided as RotationTheorems.RefreshDecision says: rotation is left to the closing commit, while the revocations for reuse and for an inactive owner are already committed when it raises, or unmade if their commit failed |
| IdentityDatabase.AppSession.RotateTokens | app/modules/identity/router.py:36-44 | the refresh route commits and answers as the one-step refresh, or changes nothing if the database failed at one of its writes |
| IdentityDatabase.AppSession.UpdateUserRow | app/modules/identity/service.py:347-368 | a missing user or role is reported before anything is changed; otherwise the given fields and only those are changed in the open transaction, and only then the flush reports a taken address or a failed database |
| IdentityDatabase.AppSession.UpsertRole | app/modules/identity/service.py:377-398 | a new role gets the given or default matrix, an existing one keeps its matrix unless one is given |
| IdentityDatabase.AppSession.Run | app/modules/identity/service.py:269-291 | every service call behind a command makes the change that CommandTheorems states for it, with the flushes it needs, or reports the described error, or a failed database |
| IdentityDatabase.AppSession.Obey | app/modules/identity/router.py:47-64 | a guarded command and its audit row share one transaction: both are committed or, whichever way the request fails, neither |
| IdentityDatabase.AppSession.Serve | app/core/database.py:69-77 | for every request, every way it ends and every write the database may fail at, the committed tables and the reply are those of the one-step description in full, or the tables are unchanged |
| IdentityRuns.CommandFrame | app/modules/identity/router.py:47-153 | a guarded command never touches the lockout columns, never issues tokens, never removes a role, touches sessions only by signing out, and changes nothing when it fails |
| IdentityRuns.StepGrows | app/modules/identity/service.py:138-406 | no request removes a user, role, session or audit row, changes a session's owner, or clears a revocation |
| IdentityRuns.StepKeepsGrounded | app/modules/identity/service.py:130-157 | every step keeps: roles of users exist, sessions belong to users, and every returned token names a session and its owner |
| IdentityRuns.AlwaysGrounded | app/modules/identity/service.py:130-135 | in every reachable state every returned token carries a session and the session's owner as subject, and every user's role exists |
| IdentityRuns.AlwaysGrows | app/modules/identity/service.py:97-110 | over any stretch of any run the tables, the audit log and the set of returned tokens only grow |
| IdentityRuns.AlwaysTimely | app/modules/identity/service.py:257-266 | whatever the settings, in every reachable state every returned token has its exact lifetime, and ends no later than its session unless access tokens are configured to outlive refresh tokens |
| LockoutTheorems.OthersLeaveLocksAlone | app/modules/identity/service.py:215-406 | every request other than sign-in leaves the two lockout columns of every account alone |
| LockoutTheorems.PasswordsEvaluated | app/modules/identity/service.py:174-201 | a password counts as a failure, or signs in, exactly when its address finds the active account, its stored lock is absent or past, and it does not, or does, verify |
| LockoutTheorems.CounterRefinesHistory | app/modules/identity/service.py:181-206 | in every serial run the stored count is the number of wrong passwords since the last sign-in modulo the limit, lockouts are the quotient, and the stored lock is the end of the last lockout |
| LockoutTheorems.SignInDecision | app/modules/identity/service.py:173-212 | every answer of a sign-in told by the history alone: refused as locked exactly until one lockout after the last completed block of failures, as disabled exactly if open and inactive, and otherwise by the password, a wrong one locking exactly when it completes a block |
| LockoutTheorems.ThrottleBound | app/modules/identity/service.py:181-206 | in any sign-in-free stretch of any run, wrong passwords limit apart are a lockout apart, and a window of length W holds at most limit * (W / lockout + 1) of them |
| RotationTheorems.SessionEffect | app/modules/identity/service.py:236-277 | what any request does to any session is told by its reply: new identifier exactly if it returned a pair for it, revoked exactly if it ended it |
| RotationTheorems.AlwaysHistory | app/modules/identity/service.py:236-266 | in every reachable state the stored identifier is that of the last pair returned for the session, and a session is revoked exactly when the history ended it |
| RotationTheorems.RefreshTokensFormAChain | app/modules/identity/service.py:236-266 | no refresh token is accepted twice, and each accepted one is the token returned by the previous accepted step of its session |
| RotationTheorems.RefreshDecision | app/modules/identity/service.py:227-266 | whatever the settings, every answer to a returned token told by the history alone: expired, wrong type, ended session, reuse (not the current one), inactive owner, or accepted exactly when unexpired, current, of a session nothing has ended and an active account |
| RotationTheorems.EndedForever | app/core/deps.py:70-77 | once a session has ended, no claims naming it are accepted in any later state, as access or as refresh |
| RotationTheorems.EndingIsFinal | app/modules/identity/service.py:242-277 | whatever answer ends a session, every token ever returned for it is refused in every later state |
| RotationTheorems.ReplayEndsSession | app/modules/identity/service.py:242-247 | whatever the settings, replaying a rotated token on a live session is reported as reuse, and from then on every token ever returned for the session is refused |
| RotationTheorems.InactiveOwnerEndsSession | app/modules/identity/service.py:249-255 | refreshing with the current token of an account that is not active is answered so and ends the session for good, also if the account becomes active again |
| AuditTheorems.AuditConservation | app/modules/identity/router.py:20-53 | per user, sign-in rows equal sessions, and sign-out rows plus forced revocations equal revoked sessions, so sign-outs never exceed sign-ins |
| AuditTheorems.SignOutRevokes | app/modules/identity/service.py:269-277 | a caller who passes the guard holds a live session of their own, so signing out revokes exactly one session of that user |
| AccessTheorems.AccessDecision | app/core/deps.py:42-87 | every answer of the guard to a returned token told by the history alone: expired, wrong type, inactive account, session ended or expired (the latter never unless access tokens may outlive refresh tokens), or accepted; the caller is the session's owner as stored now with the role's present matrix |
| AccessTheorems.OtherBearers | app/core/deps.py:46-77 | missing and forged tokens are refused by their kind, an untyped token counts as an access token, and a token without a session answers to its account alone |
| AccessTheorems.NewPairWorks | app/modules/identity/service.py:130-157 | a returned pair names the account as stored and its live session, and from the next state on both tokens are accepted exactly until their exp, which is less than a second before the configured end (the access token also not past the session) |
| AccessTheorems.NoTokenHasTwoUses | app/core/deps.py:55-56 | no token is accepted both as access and as refresh token |
| AccessTheorems.TokenTimes | app/core/security.py:75-107 | every token lives exactly its configured lifetime and, unless configured longer, never past the expiry of its session, which never moves back |
| AccessTheorems.LongAccessOutlivesSession | app/modules/identity/service.py:141-157 | a new access token ends by its session's expiry exactly when the access lifetime is at most the refresh lifetime |
| AccessTheorems.LogoutIsTotal | app/modules/identity/router.py:47-53 | after a sign-out every token ever returned for that session is refused in every later state |
| AccessTheorems.ClaimsDoNotDecide | app/core/deps.py:79-103 | the address and role a token carries never influence a decision |
| AccessTheorems.GuardDecision | app/core/deps.py:62-103 | in every reachable state, with any returned usable token, a user command passes exactly if the present matrix of the owner's present role has the Edit flag of user management set, a role command that of role management, a view by its own flag; otherwise it is forbidden |
| AccessTheorems.ViewOnlyDecision | app/core/rbac.py:89-91 | whoever has only viewing of a feature may view it and not edit it; of user management, cannot create or change an account |
| AccessTheorems.MatrixPersists | app/modules/identity/service.py:377-406 | a role's matrix is changed by nothing but a request that saves that role |
| AccessTheorems.NewPermissionsApplyAtOnce | app/modules/identity/service.py:377-406 | from the commit of a change of a role's matrix until the role is saved again, every accepted token of whoever holds the role is decided by the new matrix, whenever it was returned |
| AccessTheorems.NewRoleAppliesAtOnce | app/modules/identity/service.py:347-353 | once an account's role is changed, its accepted tokens are decided by the new role's matrix |
| AccessTheorems.AddressesMustBeApart | app/modules/identity/service.py:174-176 | sign-in finds the account behind every address exactly when no two addresses differ only in case |
| AccessTheorems.AddressChanges | app/modules/identity/service.py:322-368 | creating an account keeps addresses apart; updating one does exactly when no other account has the new address up to case |
| AccessTheorems.UpdateCanLockOut | app/modules/identity/service.py:347-359 | an update to another account's address in other letters succeeds, and then the lookup fails for both spellings |
| AccessTheorems.SuchAnUpdate | app/modules/identity/service.py:347-359 | such an update exists, on two accounts whose addresses were apart |
| AccessTheorems.ErrorAtomicity | app/core/database.py:69-77 | a failing request, wherever it fails, commits nothing but the failure count and lock of a wrong password, or the revocation for reuse or an inactive owner; never an audit row |
| CommandTheorems.SignInCommits | app/modules/identity/service.py:138-212 | a sign-in changes the failure count, lock, last sign-in and perhaps hash of one account, adds one session with its owner, identifier, client and expiry, and one audit row, and nothing else |
| CommandTheorems.RefreshCommits | app/modules/identity/service.py:257-266 | an accepted refresh changes the identifier, times and reported client of its one session, and nothing else |
| CommandTheorems.ReadingCommitsNothing | app/core/deps.py:93-103 | a command that the guard refuses, or that only reads, commits nothing |
| CommandTheorems.LogoutCommits | app/modules/identity/service.py:269-277 | signing out revokes the caller's session as of now if it is not revoked, and adds one audit row |
| CommandTheorems.PasswordChangeCommits | app/modules/identity/service.py:280-291 | a password change succeeds exactly with the right current password and stores a current hash that verifies the replacement; all else stays |
| CommandTheorems.CreateUserCommits | app/modules/identity/service.py:322-344 | an account is created exactly if its role exists and its address is free up to case, with the given columns and a current hash that verifies the given password |
| CommandTheorems.UpdateUserCommits | app/modules/identity/service.py:347-368 | an update succeeds exactly if the account and the new role exist and no other account has the new address as spelled, and changes exactly the given columns of that account |
| CommandTheorems.SaveRoleCommits | app/modules/identity/service.py:377-398 | saving a role writes one row: an existing one keeps its matrix unless one is given, a new one gets the given matrix or, without one or with an empty one, the default |
| CommandTheorems.SlugMeaning | app/modules/identity/service.py:378-378 | an identifier made from a name is the name in lower case with underscores for spaces |
| CommandTheorems.SetPermissionsCommits | app/modules/identity/service.py:401-406 | setting a matrix succeeds exactly if the role exists and changes only that matrix |
| CommandTheorems.NewPasswordSignsIn | app/modules/identity/service.py:280-291 | after a password change the new password signs the caller in, as soon as the history leaves the account open |
| CommandTheorems.NewAccountSignsIn | app/modules/identity/service.py:322-344 | a new active account can sign in at once with the password it was created with |
| PasswordTheorems.SignInUpgrades | app/modules/identity/service.py:207-210 | a sign-in leaves a current hash that verifies the password just used: a current one stays, and any other, of bcrypt or with stale parameters, is replaced |
| PasswordTheorems.StepHashes | app/modules/identity/service.py:286-365 | every step keeps each stored hash or replaces it by a current one |
| PasswordTheorems.MigrationNeverReverts | app/core/security.py:52-65 | a current hash stays current, and once all hashes are Argon2 they stay so, in every run |
| PasswordTheorems.BcryptCanBeRemoved | app/core/security.py:32-49 | from a state with only Argon2 hashes, the verifier without its bcrypt branch agrees on every stored hash in every later state |
| Interleaving.MergeUndisturbed | app/core/database.py:62-66 | writing back changed columns over rows nobody else changed gives exactly the decided rows |
| Interleaving.MergeNothing | app/core/database.py:62-66 | a request that changed nothing writes nothing, whatever has committed since it read |
| Interleaving.DifferentColumnsBothSurvive | app/core/database.py:62-66 | requests that change different columns of one account do not lose each other's change, in either order |
| InterleavingTheorems.SoloFlightIsSerial | app/core/database.py:69-77 | a request that no other commit separates from its beginning can commit at any time up to now, and acts and answers as the serial step at that time |
| InterleavingTheorems.MergePersists | app/modules/identity/service.py:257-277 | writing back changed columns of rows read earlier never undoes a revocation, whatever committed in between |
| InterleavingTheorems.AlwaysSound | app/modules/identity/service.py:130-157 | under every interleaving every returned token names a session and its owner |
| InterleavingTheorems.SessionRowWasCommitted | app/core/database.py:62-66 | the session row a request holds is the one committed at some moment since it began |
| InterleavingTheorems.RevokedForever | app/core/deps.py:71-77 | under every interleaving a committed revocation is permanent, and the committed tables refuse all claims naming the session |
| InterleavingTheorems.RevokedRefusesLaterRequests | app/core/deps.py:71-77 | a request that begins after a revocation has committed fails with any token of the session, whenever it commits, and writes nothing |
| InterleavingTheorems.NoResurrection | app/modules/identity/service.py:236-277 | a refresh that commits after a revocation does not revive the session, and the pair it returned is refused in all later states |
| InterleavingTheorems.LogoutIsTotal | app/modules/identity/service.py:269-277 | once a sign-out commits, under every interleaving all tokens of the session are refused, also those of an overtaking refresh |
| InterleavingTheorems.CountersAlwaysBounded | app/modules/identity/service.py:188-205 | under every interleaving the count stays in [0, limit) and a lock ends at most one lockout from now |
| OverlapTheorems.RetiredForever | app/modules/identity/service.py:257-258 | a refresh identifier that has been replaced is never stored again |
| OverlapTheorems.LaterRequestRefuses | app/modules/identity/service.py:236-258 | a request that begins after a refresh token was accepted refuses that token whenever it commits |
| OverlapTheorems.SecondUseOverlapsFirst | app/modules/identity/service.py:236-258 | a refresh token is accepted a second time only by a request that had begun before the first acceptance committed |
| OverlapTheorems.OverlappingRefreshesBothAccepted | app/modules/identity/service.py:236-266 | two overlapping requests with one acceptable token are both accepted, and the pair of the earlier commit is already rotated away |
| OverlapTheorems.BeginningRefreshWouldBeAccepted | app/modules/identity/service.py:236-266 | such overlapping requests can begin wherever the token would be accepted once |
| OverlapTheorems.TokenAcceptedTwice | app/modules/identity/service.py:236-266 | in every reachable state where a refresh token would be accepted, two overlapping requests can both have it accepted |
| OverlapTheorems.WrongPasswordCounts | app/modules/identity/service.py:188-201 | a wrong password that does not lock stores one more than the count it read: it raises the stored count by one exactly when the two are equal, and lowers it exactly when two or more failures were counted meanwhile |
| OverlapTheorems.FailureCountedIffUndisturbed | app/modules/identity/service.py:173-201 | in every interleaved run a wrong password raises the stored count by one if and only if that count is the one committed when the request last read the account |
| OverlapTheorems.UndisturbedFailureCounts | app/modules/identity/service.py:173-201 | a wrong password is counted whenever no other commit changed the account's count since the request read it |
| OverlapTheorems.LateFailureLowersCount | app/modules/identity/service.py:188-201 | from every reachable state with room for it, a failure overtaken by two others leaves the count one lower than they had left it |
| OverlapTheorems.LockoutTakesHold | app/modules/identity/service.py:188-199 | under every interleaving the wrong password that reaches the limit locks the account for the full lockout and clears the count, whatever others wrote meanwhile |
| OverlapTheorems.SignInClearsWhatItRead | app/modules/identity/service.py:203-206 | a sign-in clears the stored count unless it read zero, in which case failures counted meanwhile stay |
| Decimal.ParsePrint | app/modules/reporting/service.py:50-52 | reading a printed number back gives the number, so printing is injective |
| Rounding.TieGoesToEven | app/modules/assurance/service.py:54-54 | a value halfway between two integers rounds to the even one |
| References.ReferenceInjective | app/modules/reporting/service.py:50-52 | different numbers of a series print as different references |
| References.NumberOfReference | app/modules/reporting/service.py:50-52 | the n-th reference is the prefix followed by the decimal number base + n |
| References.FirstReferences | app/modules/assurance/service.py:217-222 | the first references are RPT-9901, CASE-2001 and Q-501 |
| References.StepKeepsDense | app/modules/assurance/service.py:113-115 | every step of every interleaving keeps the references gap-free and distinct |
| References.GapFree | app/modules/assurance/service.py:157-172 | committed references are exactly the first n of the series, each held by one row; the numbers printed in them are exactly base + 1 to base + n |
| References.NextNumber | app/modules/assurance/service.py:113-115 | a creation that commits adds one row numbered base plus the new row count |
| References.ConflictIffOvertaken | app/modules/assurance/service.py:217-231 | an insert is refused exactly when a row was committed since the request counted |
| References.ConflictIsCharged | app/modules/reporting/service.py:50-69 | each conflict is charged to another creation that committed the wanted reference in between |
| References.EndlessIffWithinCount | app/modules/reporting/service.py:50-52 | a table of references of the series takes creations without end if and only if no stored number exceeds the number of its rows |
| References.NeverReaches | app/modules/assurance/service.py:113-115 | with a larger number stored, no interleaving ever brings the table to that many rows |
| Reports.StepKeepsSound | app/workers/tasks.py:67-115 | every move keeps certificates true, running workers on Running reports, and each worker alone on its report and file |
| Reports.CertificatesHold | app/workers/tasks.py:93-101 | a Completed report has path, size, checksum and time, no error, and its size and checksum are those of the bytes now in its file; while its file is being rewritten it is Running |
| Reports.DownloadsAreCertified | app/modules/reporting/router.py:38-52 | a download is served exactly for a Completed report, and sends that report's own file with matching size and checksum |
| Reports.Lifecycle | app/workers/tasks.py:71-113 | reports never vanish or return to Queued, and become Completed only from Running |
| Reports.FailsWithoutRunning | app/workers/tasks.py:70-113 | a step takes a report that is not Running to Failed exactly when its task raises before the first commit |
| Reports.QueuedReportCanFail | app/workers/tasks.py:70-113 | a run in which a report goes from Queued to Failed and is never Running |
| Reports.RolledBackTaskIsInert | app/modules/reporting/service.py:67-78 | the task of a creation that rolled back changes no row, file or worker in any later state |
| Reports.EarlyDeliveryIsInert | app/workers/tasks.py:71-73 | a task delivered before its row commits changes nothing |
| Reports.EarlyDeliveryIsLost | app/modules/reporting/service.py:67-78 | a report whose deliveries all came before its commit stays Queued until its task is delivered again |
| ReportWorker.Sha256 | app/workers/tasks.py:59-64 | reading in chunks until an empty read digests exactly the whole file |
| ReportWorker.Task.WriteCsv | app/workers/tasks.py:51-56 | the file ends up holding exactly the pieces written, in order, whatever it held before |
| ReportWorker.Task.Generate | app/workers/tasks.py:67-115 | an execution leaves an unknown report alone, and otherwise ends Completed with the size and the chunked digest of exactly what it wrote, or Failed with the error wherever it raised, over the old bytes if the file was not opened yet; nothing else changes |
| ReportWorker.AfterMeaning | app/workers/tasks.py:67-115 | the outcome spelled out: a good run certifies all its pieces in the file named after the reference; a failed one keeps the other columns and leaves the old bytes, the pieces written so far, or all, by where it raised |
| ReportWorker.JoinedInOrder | app/workers/tasks.py:51-56 | pieces are joined in their order |
| SizeFormat.UnitOf | app/modules/reporting/service.py:19-23 | the unit is the largest one not above the size, from bytes to terabytes |
| SizeFormat.FormatBytes | app/modules/reporting/service.py:16-24 | the dividing loop ends with the text of the largest unit, one decimal except for bytes, and a dash for nothing or zero |
| SizeFormat.TextByRange | app/modules/reporting/service.py:16-24 | the text in each range of sizes: a dash, whole bytes, or tenths of the unit with its name |
| SizeFormat.TenthsReadBack | app/modules/reporting/service.py:22-22 | tenths are shown with one decimal and read back |
| SizeFormat.UnitSizes | app/modules/reporting/service.py:20-23 | each unit is 1024 of the one before |
| SizeFormat.ShownIsClose | app/modules/reporting/service.py:19-23 | the shown value is within a twentieth of a unit of the size |
| SizeFormat.ShownIsMonotone | app/modules/reporting/service.py:19-23 | a larger size is never shown as a smaller one, also across units |
| SizeFormat.JustBelowMegabyte | app/modules/reporting/service.py:19-23 | one byte short of a megabyte is shown as 1024.0 KB, the same size as 1.0 MB |
| Recon.GetStages | app/modules/operations/service.py:125-144 | of the copied stages only the status and metric text of reconciliation and the metric text of decoding are overwritten |
| Recon.GroupedIsPrint | app/modules/operations/service.py:143-143 | without its separators the record count is the full decimal number, and they stand after every third digit from the end |
| Recon.TwoDecimalsReadBack | app/modules/operations/service.py:141-141 | the rate is shown with two decimals and reads back as its number of hundredths |
| Recon.CountOfIsNumber | app/modules/assurance/service.py:34-37 | each conditional count is the number of rows with exactly that status |
| Recon.SummaryMeaning | app/modules/assurance/service.py:30-56 | the summary in terms of the rows: exact counts, rate and leakage to within half a hundredth, and a rate of 100 for no rows |
| Recon.Partition | app/modules/assurance/service.py:30-56 | each row is matched, one of three anomalies, of unknown status, or null; failures are those neither matched nor null |
| Recon.FailuresAgree | app/modules/operations/service.py:74-93 | the pipeline's failures equal total minus matched exactly when no status is null |
| Recon.DashboardAgrees | app/modules/meta/router.py:59-70 | critical alerts are the failures apart from rows only processed or of unknown status, and the assured figure is matched plus unknown plus null rows, so its clamp never acts; rate and leakage are the summary's |
| Recon.MatchRateInRange | app/modules/assurance/service.py:54-54 | the rounded match rate lies between 0 and 100 |
| Recon.StageAgainstRate | app/modules/operations/service.py:139-142 | the stage shows the same hundredths as the summary's match rate; an ok stage shows at least 99; one that shows at least 99 is a warning exactly when the unrounded rate is in [98.995, 99) |
| Recon.WarningAt99 | app/modules/operations/service.py:139-142 | rows for which the page shows 99.00% and a warning |
| Recon.LeakageIsTwoSums | app/modules/assurance/service.py:38-40 | leakage is the raw amounts of rows only seen raw plus the absolute differences of mismatched rows, missing amounts counting as zero |
| Recon.LeakageIsAdditive | app/modules/assurance/service.py:38-40 | leakage adds up over any split of the rows |
| Recon.LeakageIgnoresOrder | app/modules/assurance/service.py:38-40 | leakage does not depend on the order of the rows |
| Seed.AddMissing | app/seed.py:107-120 | the select-then-add loop adds exactly the listed rows whose key the table does not hold |
| Seed.AddMissingUsers | app/seed.py:124-142 | the same for accounts, looked up by address and stored under drawn ids |
| Seed.Seeder.Run | app/seed.py:104-189 | one execution adds the missing rows of all five tables and changes nothing else |
| Seed.SeedingTwiceIsSeedingOnce | app/seed.py:104-189 | a second execution, with other salts, ids and clock, changes nothing, whatever the database held |
| Seed.SeedingIsNonDestructive | app/seed.py:104-189 | every existing row is unchanged, and every listed key and address is present afterwards |
| Seed.SeedingKeepsRoles | app/seed.py:107-139 | accounts still name existing roles afterwards |
| Seed.SeedingKeepsAddressesApart | app/seed.py:124-142 | seeding keeps addresses apart up to case exactly when no listed address is stored only in another spelling |
| Seed.ThePlanIsReady | app/seed.py:35-101 | no key is listed twice in any of the five lists |
| Seed.ReseedingChangesNothing | app/seed.py:104-189 | with the listed rows, a second execution changes nothing, whatever the first one found |
| Seed.SeededRoles | app/seed.py:107-120 | a role the seeder adds grants exactly its defaults |
| Seed.SeededAccounts | app/seed.py:123-142 | an account the seeder adds has a current hash of the bootstrap password for the administrator and of the demonstration password otherwise, and a clear lock |
| Seed.SeededDatabase | app/seed.py:104-142 | after seeding all accounts still name existing roles, the five accounts are there, and sign-in can tell addresses apart exactly if no listed one was stored only in another spelling |

## Left out

- HTTP routing, CORS, middleware, metrics, logging, health checks and the deployment files.
- The ClickHouse, Airflow, Redis and second Postgres clients and their fallback figures; a query is the list of rows it yields, and the KPI latency and breach queries are not modelled.
- The insides of Argon2, bcrypt, SHA-256 and token signing. Nothing is claimed about which other passwords a rehash accepts.
- The JWT library's own check of `iat`, which cannot fire while the clock does not go back.
- Several clock readings within one request: session expiry and token expiry are computed from one reading.
- Lower-casing beyond the letters A to Z, and e-mail syntax checks.
- Avatars and initials, pagination, list routes and row mappers, `updated_at`, and the request id of audit rows.
- The whole-run forms of rotation and failure counting (the chain of accepted tokens, the throttle) are stated for requests that do not overlap. For overlapping ones the conditions under which one acceptance or one failure is exact are proved; no bound on wrong passwords per window is claimed, since a late failure can lower the count.
- Serial and interleaved runs contain requests whose writes succeed; a request the database fails at leaves the tables as they were, so it would be a step that changes nothing. A commit that succeeds although its acknowledgement is lost, and an answer sent before the closing commit, are not modelled.
- Interleaving: the unique index on the exact spelling of an address is checked against the rows a request has read, not again at its commit, and a row lock held between a flush and its commit is part of the commit.
- Reports.CertificatesHold: executions of one report are assumed not to overlap; they may follow each other in any number after crashes and redeliveries. Files are changed by workers only.
- ReportWorker.Task.Generate: the query's failure, which degrades to an empty file with its header, is a choice of the pieces; CSV quoting is not modelled.
- The race between the check in a download and the later read of the file.
- Case field updates, comments, alerts, decoders and system configuration routes: single-row updates without an invariant.
- IEEE rounding in rates and leakage: exact reals stand for floats.
- Migrations, SQL scripts and the rules module.
