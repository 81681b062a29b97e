# Portal credentials and principals: a verified model

The portal lets outside people in. It mints and rotates bearer links, invites
people by email, checks passwords through a port, throttles failed attempts,
follows account events from a bus and lets a principal edit a few columns of its
own row. Many requests run at once over one database, any of them may crash
between two statements, and the bus delivers events more than once.

This project models that behaviour in Dafny 4.11 and proves what it keeps.
`dafny verify dfyconfig.toml` checks everything.

## How it is laid out

- `Text.dfy`, `Links.dfy`: the text under the links (dots, hexadecimal, UUID text,
  64-bit decimals, email normal forms), the printed and parsed link formats and the
  messages their MACs sign. The keyed hash is an arbitrary function; where its
  strength matters a lemma says which collision a failure would exhibit.
- `Throttle.dfy`: the lockout curve, the attempt book as a class over a mutable map,
  and what the book bounds over time.
- `Schema.dfy`: the tables as maps, every SQL statement as an atomic change of them,
  the constraints as guards, the invariants every statement keeps, and the order in
  which a row can only move forward (`Evolves`).
- `Verify.dfy`: which strings pass as a bearer or an invitation.
- `Protocol.dfy`: every verb as a program counter machine, one statement a step, and
  the whole system: any number of requests, interleaved, with crashes, and with
  officers editing rows from outside. `Runs.dfy` is induction over its runs.
- `Safety.dfy`, `Lineage.dfy`, `KillSwitch.dfy`, `Edges.dfy`, `Accounts.dfy`,
  `Signups.dfy`, `History.dfy`: the theorems about every run.
- `Limits.dfy`: promises the code keeps only under a condition, with the condition.
- `Database.dfy`: the tables as a mutable object with one method a statement,
  transactions with rollback included, and `Others`, which lets the other sessions
  commit anything they could commit between two statements.
- `TokenService.dfy`, `InviteService.dfy`, `PolicyService.dfy`, `AccessService.dfy`,
  `LifecycleHandler.dfy`, `Routes.dfy`: the verbs as methods, statement by statement.
- `Rows.dfy`: what each verb answers and writes when nobody else runs, in terms of the
  stored rows alone; the contracts of the verbs speak of it, their bodies do not.
- `Conduct.dfy`, `Embedding.dfy`: every method is proved to issue exactly the
  statements its program in `Protocol.dfy` names, on whatever tables it finds; a method
  run alone is a run of the whole system, so the theorems about runs are about the
  methods too.
- `Surface.dfy`: the patch, its validation and the `UPDATE` builder, with a reader
  that gives the built statement its meaning.
- `Audit.dfy`: the fold of an audit fact into a subject and a payload.

A method takes the database as `shared` or not. Shared, other sessions run between
its statements; what it then promises holds under any interleaving. Not shared, it
runs without interruption, and the clauses guarded by `!db.shared` say what a caller
gets in that case.

## Where the code and its documentation differ

The model follows the code. Each point is proved.

- A crash after the first of the three statements of `revoke_access` leaves every
  bearer and invitation of the principal as it was (`Limits.CrashSkipsSweeps`), each
  stays open until a later act retires that very row (`Limits.OpenUntilRetired`), and a
  replay performs nothing (`Limits.ReplayPerformsNothing`). The bearers are refused all
  the same (`Safety.RevocationIsFinal`).
- "Every live bearer revoked" holds for the rows the sweep found; a mint or rotation in
  flight can add one afterwards (`Limits.SweepsLeaveLatecomers`, `Limits.LateMint`).
- A redelivered `created` event writes one more `onboarding_no_invitation` row
  (`LifecycleHandler.OnCreated`).
- An account linked to two principals has one of them cut for each `gone` event, and
  which one is up to the query (`Limits.TwoLinks`, `Limits.GoneReachesAll`).
- The access history is documented to show mints and rotations. Their rows have the
  token as subject, so it never does (`History.HistoryShows`).
- `mint_invite` stores and audits the invitation before it finds the secret unset
  (`InviteService.MintInvite`).
- The loser of a signup race records the winner as created again
  (`Signups.LostRaceRecordsAgain`); `Signups.WhoCreated` says exactly whose row names
  whom.
- The failure counter has 32 bits. Past its end the lock is lifted
  (`Throttle.ThrottleBoundExactly`, `Throttle.LockNeverEarlier`).
- The error surface is documented to fold an unconfigured verifier into the shared
  refusal (`portal_error.rs:6-13`). Only the two credential errors share it; an unwired
  verifier, and each of the server's own failures, can be told apart
  (`Routes.WhatVisitorsCanTell`, `Routes.ServerFailuresAreTold`).
- "Nothing is dropped" by the audit fold holds for the facts `Audit.Legible` describes
  and for no others (`Audit.FoldLosesNothing`, `Audit.FoldCollides`).
- The advertised wait is rounded down to whole seconds (`Throttle.RetryAfterRoundsDown`).
- `validate` counts bytes where the table counts characters (`Surface.BytesAndCharacters`).
- A recipient link without an email arm reads as one with an empty email
  (`Links.MissingEmailArm`).

## Model

| member | source | states |
|---|---|---|
| Text.HexDecode | src/application/service/token_service.rs:249-261 | the loop returns the bytes a hexadecimal string denotes, in either letter case, and nothing for odd length or any other character |
| Text.DecodeEncode | src/application/service/token_service.rs:231-232 | decoding the printed form of any byte string returns it |
| Text.EncodeDecode | src/application/service/token_service.rs:249-261 | re-encoding a decoded string gives its lower-case form |
| Text.SameBytesSameLetters | src/application/service/token_service.rs:238-261 | two spellings denote the same bytes exactly when they differ in letter case only |
| Text.UuidRoundTrip | src/application/service/token_service.rs:194 | parsing a printed UUID returns it, and it holds neither dot nor bar |
| Text.UuidTexts | src/application/service/token_service.rs:194 | the texts that parse to a UUID are exactly its printed form in either letter case, bare, in braces or after `urn:uuid:`, and its 32 digits alone |
| Text.I64RoundTrip | src/application/service/token_service.rs:199 | parsing a printed 64-bit number returns it |
| Text.PrintIntShape | src/application/service/token_service.rs:219-221 | a printed number carries a minus exactly when it is negative, otherwise digits alone, without a leading zero |
| Text.SplitConcat | src/application/service/token_service.rs:193 | splitting at dots distributes over a dot |
| Text.JoinSplit | src/application/service/token_service.rs:621-638 | the arms of any string joined by dots are the string |
| Text.NormalForm | src/application/service/invite_service.rs:31-33 | the fixed points of email normalisation are the trimmed strings without capitals, and every result is one |
| Text.NormalizeMeans | src/application/service/invite_service.rs:31-33 | normalisation takes the blanks off both ends and lowers each capital left, and does nothing else |
| Text.NormalizeIdempotent | src/application/service/invite_service.rs:31-33 | normalising twice is normalising once |
| Links.CapabilityRoundTrip | src/application/service/token_service.rs:192-208 | parsing a printed capability returns the same id, nonce, expiry and MAC |
| Links.CapabilityGrammar | src/application/service/token_service.rs:192-208 | a link parses to a capability if and only if it is four dotless arms that read as its id, nonce, expiry and MAC |
| Links.CapabilityInputInjective | src/application/service/token_service.rs:219-221 | equal signed messages have equal domain, id, nonce, grant and expiry, whatever dots and bars the grant holds |
| Links.RecipientInputInjective | src/application/service/token_service.rs:272-274 | equal recipient messages have equal user, email and expiry, whatever the email holds |
| Links.FamiliesDisjoint | src/application/service/token_service.rs:69-73 | no message belongs to two of the bearer, invitation and recipient families |
| Links.PreImageInjective | src/application/service/token_service.rs:219-274 | distinct claims of any family have distinct signed messages |
| Links.Formats | src/application/service/token_service.rs:219-274 | the three signed messages letter by letter: domain, bar, and the arms in order |
| Links.OneMacOneClaim | src/application/service/token_service.rs:238-247 | a MAC that verifies for two claims exhibits a collision of the keyed hash on two different messages |
| Links.VerifyMacIffSpelling | src/application/service/token_service.rs:238-247 | a candidate verifies exactly when it spells the printed MAC in some mix of letter cases |
| Links.BearerArmsIffReading | src/application/service/token_service.rs:434-443 | the MAC, nonce and expiry tests pass exactly for the readings of the row's own link |
| Links.InviteArmsIffReading | src/application/service/invite_service.rs:141-150 | the same for the tests on an invitation link |
| Links.RecipientRoundTrip | src/application/service/token_service.rs:621-638 | reading the id from the left and MAC and expiry from the right recovers user, email and expiry for every email string, dots included |
| Links.MintedRecipientVerifies | src/application/service/token_service.rs:592-638 | a minted recipient link verifies at every second up to 180 days after it was minted and at no later one |
| Links.VerifiedRecipientReading | src/application/service/token_service.rs:621-638 | two verified recipient links with one MAC read alike, or the keyed hash collides |
| Links.MissingEmailArm | src/application/service/token_service.rs:621-638 | a missing email arm and an empty one both read as the empty email |
| Throttle.CurveIsCappedDoubling | src/application/service/token_service.rs:92-99 | the clamped shift and saturating product equal unbounded doubling from 30 capped at 900 for every 32-bit count |
| Throttle.CurveMonotone | src/application/service/token_service.rs:88-99 | the curve is monotone, between 30 and 900 from the fifth failure and 900 from the tenth |
| Throttle.AttemptBook.Check | src/application/service/token_service.rs:126-143 | the verdict follows the failures of the key since its last reset: refused for the rest of the lock from the fifth failure on, refused for one second while the last failure is younger than a second, admitted otherwise |
| Throttle.AttemptBook.RegisterFailure | src/application/service/token_service.rs:147-157 | the book keeps being the fold of its log, one failure longer for that key and the same for every other |
| Throttle.AttemptBook.Reset | src/application/service/token_service.rs:160-165 | the book keeps being the fold of its log, with that key's failures forgotten and no other's |
| Throttle.AttemptBook.Failures | src/application/service/token_service.rs:168-175 | the count is the number of failures since the last reset, in 32 bits |
| Throttle.AdmittedIffWaitOver | src/application/service/token_service.rs:126-143 | an attempt is admitted exactly when the wait of the last failure is over: the lock, and at least a second |
| Throttle.WrappedWait | src/application/service/token_service.rs:154-155 | the wait follows the true number of failures if and only if the counter has not wrapped, or both are at the cap |
| Throttle.RefusalLapses | src/application/service/token_service.rs:92-143 | a refused key is admitted 900 seconds later if nothing new is registered |
| Throttle.RetryAfterRoundsDown | src/application/service/token_service.rs:130-133 | the advertised wait plus a second always suffices; the wait itself exactly when no fraction of a second was cut off |
| Throttle.LockNeverEarlier | src/application/service/token_service.rs:147-157 | with a clock that does not go back a further failure never lifts or shortens a lock, except exactly where the counter wraps |
| Throttle.SpanBound | src/application/service/token_service.rs:126-157 | gated failures on one key that do not overlap span at least the sum of the waits between them, with ungated ones interleaved at will, up to the last count the counter holds |
| Throttle.ThrottleBound | src/application/service/token_service.rs:92-157 | the n-th gated failure comes at least 934 + 900(n - 10) seconds after the first for every n from ten on, in every trace of up to 2147483648 failures |
| Throttle.ThrottleBoundExactly | src/application/service/token_service.rs:92-157 | all traces of n failures meet that bound if and only if n is at most 2147483648; for every longer n there is one that spans 455 seconds |
| Schema.ExecKeepsTables | migrations/20260426220100_portal_hardening_constraints.up.sql:17-22 | every statement keeps the table invariants: one live principal per email, normalised emails, one policy row, sound rotation links, redemption injective onto principals of the same email |
| Schema.ExecEvolves | src/application/service/access_service.rs:297-302 | every statement moves every row forward only: revoked is terminal, the account link is written once, tokens leave active once, invitations leave pending once |
| Verify.AcceptedIffGoodBearer | src/application/service/token_service.rs:416-471 | a link is accepted for a principal if and only if it reads as the link of a stored active, unexpired bearer of that live active principal |
| Verify.OwnLink | src/application/service/token_service.rs:370-471 | a row's own link is accepted for its owner exactly while the row is good, and for nobody else |
| Verify.RedeemableIffPending | src/application/service/invite_service.rs:126-152 | the tests before the transaction pass exactly for the readings of the link of a pending, live, unexpired invitation, presented by its own address |
| Verify.StoredInvite | src/application/service/token_service.rs:645-681 | an invitation's own link opens for its address alone, while it is pending, live and unexpired |
| Protocol.MoveOk | src/application/service/access_service.rs:108-315 | every step of every verb issues a statement the tables tolerate and arrives where its locals are true |
| Protocol.RunInv | src/application/service/token_service.rs:383-582 | the invariant of tables and requests holds after every number of acts of every run, crashes and officers included |
| Protocol.RunEvolves | src/application/service/invite_service.rs:159-181 | between any two moments of a run every row only moves forward |
| Safety.RevocationIsFinal | src/application/service/token_service.rs:453-466 | once a principal is revoked, no request that reads its status later ever verifies or rotates a bearer of that principal, whatever is in flight or crashed |
| Safety.OneWinner | src/application/service/token_service.rs:486-499 | of all rotations of one bearer, or redemptions of one invitation, at most one request ever commits |
| Safety.LeavesOnce | src/application/service/invite_service.rs:200-265 | a token leaves active and an invitation leaves pending in at most one act of a run |
| Safety.ReachableUniqueness | migrations/20260426220100_portal_hardening_constraints.up.sql:17-19 | in every reachable state at most one live principal has an email, and each redeemed invitation has its own principal of the same email |
| Safety.SignupsAgree | src/application/service/access_service.rs:217-284 | all successful signups for one email, whether they created the principal, lost the insert race or found it there, return the same live principal |
| Safety.ExactAcceptance | src/application/service/token_service.rs:416-471 | exact acceptance in every reachable state, for every string and time |
| Safety.LinkOverTime | src/application/service/token_service.rs:370-471 | a stored bearer's link verifies at every later moment for its owner as long as the row is good, and at no other time |
| Safety.LifecycleOnce | src/application/service/lifecycle_handler.rs:155-185 | the account link is written once, and no one-time edge is recorded twice or without having been performed |
| Safety.EdgeRecordedOnce | src/application/service/lifecycle_handler.rs:169-268 | two rows of the trail never record the same mint, rotation, redemption, revocation, account link or lifecycle cut-off |
| Safety.GoneReplayIsQuiet | src/application/service/lifecycle_handler.rs:216-252 | in every run, a `gone` event that finds every principal of the account revoked whenever it looks changes no table and writes no row at any of its steps |
| Edges.MoveOnEdges | src/application/service/audit.rs:21-73 | every step of every verb performs at most one edge and writes its row at most once |
| Edges.RunEdges | src/application/service/audit.rs:89-106 | over every run each edge is held by at most one request, after it is performed and before it is recorded |
| Accounts.EveryEdgeAccounted | src/application/service/token_service.rs:383-529 | every mint, rotation, redemption, invitation and account link of every run is recorded, or still held by the request that performed it, crashed or not |
| Lineage.ChainFacts | src/application/service/token_service.rs:486-515 | following rotation links terminates in an unrotated row, along rows of one owner in order of birth, each rotated to the next |
| Lineage.SameTailComparable | src/application/service/token_service.rs:486-515 | chains that share their end are one chain: one row descends from the other |
| Lineage.OneActivePerChain | src/application/service/token_service.rs:486-499 | at most one row of a chain is active, and it is the last |
| Lineage.ReachableLineages | src/application/service/token_service.rs:477-529 | in every reachable state the rotation links form such chains, and they only grow at their end |
| KillSwitch.EveryPrincipalAccounted | src/application/service/access_service.rs:207-260 | every principal of every run comes from a redeemed invitation or from a signup that itself read the policy as open, and there is at most one policy row |
| KillSwitch.ClosedReadCreatesNothing | src/application/service/access_service.rs:207-216 | a signup whose policy read failed or found the switch closed never creates a principal |
| KillSwitch.StaysClosed | src/application/service/policy_service.rs:54-75 | a closed switch stays closed until an act opens it |
| KillSwitch.DeletionCloses | src/application/service/policy_service.rs:37-49 | in every reachable state, deleting an id of the policy table leaves the switch open if and only if it was open and the id is not that of its row |
| KillSwitch.KillBites | src/application/service/policy_service.rs:33-75 | a signup that reads the policy after an act that closes it, be it the switch set to off or its row soft-deleted, and before the next open creates nothing |
| History.HistoryShows | src/application/service/portal_surface.rs:349-357 | in every run the access history selects logins, refused logins and sweeps of a principal's bearers, and never a mint, a rotation or a single revocation |
| History.HistoryIsNewest | src/application/service/portal_surface.rs:348-362 | the history holds rows of the principal alone, newest first, at most the clamped limit; a row left out is older than every row in it, and then the limit is reached |
| Limits.SweepsLeaveLatecomers | src/application/service/access_service.rs:313-330 | a sweep leaves exactly the rows that came in after it took its own, so none if and only if none did |
| Limits.LateMint | src/application/service/token_service.rs:383-399 | a mint in flight when its principal is revoked stores an active bearer, whose link everybody is refused |
| Limits.CrashSkipsSweeps | src/application/service/access_service.rs:297-315 | from every reachable state a crash after the first statement leaves the principal revoked and every token and invitation as it was |
| Limits.OpenUntilRetired | src/application/service/access_service.rs:313-330 | an active bearer or pending invitation stays so until a later act of a verb that names or found that very row |
| Limits.ReplayPerformsNothing | src/application/service/access_service.rs:297-311 | after a principal is revoked no later `revoke_access` performs anything, in any run |
| Limits.GoneReachesAll | src/application/service/lifecycle_handler.rs:234-252 | one event cuts every principal of the account if and only if no other was left to cut |
| Limits.TwoLinks | src/application/service/lifecycle_handler.rs:155-167 | two principals can be linked to one account |
| Limits.AddressStaysTaken | src/application/service/invite_service.rs:173-181 | a principal that is not soft-deleted, revoked or not, blocks every redemption and signup for its email |
| Limits.FreeAdmits | migrations/20260426220100_portal_hardening_constraints.up.sql:17-19 | a redemption issues its statement exactly for a pending invitation with a new id where every row of the address is deleted, and a signup insert exactly under the same condition for an address of at most 320 characters |
| Limits.DeletionFreesAddress | migrations/20260426220100_portal_hardening_constraints.up.sql:17-19 | from every reachable state, once an officer deletes the holder of an address the redemption of a pending invitation for it creates a principal, and so does a signup |
| Signups.WhoCreated | src/application/service/access_service.rs:249-281 | in every run a request about to write a `signup_created` row has made its insert, and the row names a principal the request created if and only if that insert found the address and its id free |
| Signups.LostRaceRecordsAgain | src/application/service/access_service.rs:257-281 | from every reachable state where a signup inserts an address somebody holds, its next three steps record the holder as created once more |
| Database.Database.RotateToken | src/application/service/token_service.rs:481-511 | the rotation transaction writes both rows or, rolled back, none |
| Database.Database.RedeemInvite | src/application/service/invite_service.rs:155-181 | the redemption transaction writes both rows or, rolled back, none: a failed principal insert leaves the invitation pending |
| Conduct.ConductedKeeps | src/application/service/token_service.rs:416-582 | a conducted verb keeps the tables, moves rows forward and ends where what it reports is true |
| Embedding.VerbIsRun | src/application/service/invite_service.rs:121-197 | a verb conducted alone on the tables of a reachable state is itself a run of the system |
| TokenService.VerifyBearer | src/application/service/token_service.rs:416-471 | conducts the verification program; alone, answers with a bearer and owner exactly when the link reads as that good bearer of that live active owner, and writes nothing; the refusal says the secret is unset exactly when it is |
| TokenService.RotateBearer | src/application/service/token_service.rs:477-529 | conducts the rotation program; alone, goes through if and only if the link is accepted for its owner, the expiry is in range and id and nonce are new; each error has its one cause; on success the tables are the old ones with the prior row pointing at the new one, the presented link is refused from then on and the new one opens for the same owner |
| TokenService.MintBearer | src/application/service/token_service.rs:383-409 | conducts the mint program; goes through if and only if the secret is set, the principal exists, the expiry is in range, and no stored row has the id or the nonce; each error has its one cause; success adds exactly one active row, good for the asked hours and at least one, whose link opens for its owner alone |
| TokenService.RevokeBearer | src/application/service/token_service.rs:532-556 | conducts the revocation program; succeeds exactly for an active row and then every link of it is refused; alone, that row and one audit row are all that changes |
| TokenService.RevokeAllBearers | src/application/service/token_service.rs:560-582 | conducts the sweep; alone, exactly the active bearers of the principal are revoked, the count is theirs, and one audit row is written if there were any |
| InviteService.MintInvite | src/application/service/invite_service.rs:74-109 | conducts the mint program; stores exactly when the expiry is in range and id and nonce are new, each refusal has its one cause, the link opens for the normalised address alone for the asked days or fourteen, and with the secret unset the invitation is stored although the verb fails |
| InviteService.Claim | src/application/service/invite_service.rs:121-191 | alone, succeeds if and only if the link is the reading of a pending, live, unexpired invitation of that address, the new id is no stored id, and every stored row of the address is deleted; then exactly the principal, the redeemed invitation and one audit row are written, and otherwise nothing |
| InviteService.Redeem | src/application/service/invite_service.rs:121-197 | conducts the redemption program; alone, what it answers and writes in every case; after the transaction committed the link is closed for good, and on success the bearer opens for the new principal |
| InviteService.RevokeInvite | src/application/service/invite_service.rs:200-222 | conducts the revocation; succeeds exactly for a pending invitation and then no link of it opens; alone, that row and one audit row are all that changes |
| InviteService.RevokePendingForEmail | src/application/service/invite_service.rs:228-251 | conducts the sweep; alone, exactly the pending invitations of the normalised address are revoked, the count is theirs, and one audit row is written if there were any |
| InviteService.SweepExpiredInvites | src/application/service/invite_service.rs:255-265 | conducts the sweep; alone, exactly the pending invitations past their expiry are expired and the count is theirs |
| PolicyService.SignupOpen | src/application/service/policy_service.rs:37-49 | open if and only if the read succeeds and some row is live and on |
| PolicyService.SetSignupPolicy | src/application/service/policy_service.rs:54-88 | alone, exactly one policy row is left, live and saying what was set, and one audit row is written |
| AccessService.KeysApart | src/application/service/access_service.rs:69-75 | identity keys and address keys never coincide, emails share a key exactly when they share a normal form, and addresses only when they are equal |
| AccessService.VerifyAndMint | src/application/service/access_service.rs:108-180 | the gate decides first; every later refusal of the credential charges both counters, success forgives both; alone, what each lookup and each credential answer and write, with the mint condition of an active principal on the rows |
| AccessService.Login | src/application/service/access_service.rs:184-190 | the same for any spelling of the address, with an empty one refused without a charge; alone and admitted, an active principal with a verified credential gets a bearer if and only if the secret is set, the expiry in range, and id and nonce new |
| Rows.LoginSucceeds | src/application/service/access_service.rs:108-180 | of an admitted login of an active principal with a verified credential and the secret set, the one condition left is that the expiry is in range and the id and nonce are new |
| AccessService.CreatePrincipal | src/application/service/access_service.rs:249-273 | creates a principal if and only if the address has at most 320 characters, the new id is no stored id and every stored row of the address is deleted; otherwise it returns the winner of the race it lost, or says there is none |
| AccessService.Signup | src/application/service/access_service.rs:197-285 | each of the five branches with its answer, its gate and its charges; alone, which branch follows from the policy rows, the policy read and the rows of the address, and what each branch writes is stated in full |
| AccessService.RevokeAccess | src/application/service/access_service.rs:296-333 | alone, performed exactly for a live principal not yet revoked; then its status, its active bearers and the pending invitations of its address are all that changes, and nothing of it is left open; not performed, nothing has changed |
| LifecycleHandler.OnCreated | src/application/service/lifecycle_handler.rs:136-207 | alone, stamps the one live unlinked principal of the address if there is one, nobody otherwise, and writes exactly one row that says which |
| LifecycleHandler.OnUserGone | src/application/service/lifecycle_handler.rs:216-270 | alone, cuts a live principal of the account that is not yet revoked, with nothing of it left, or changes nothing; if every linked principal was revoked already, it changes nothing |
| LifecycleHandler.Handle | src/application/service/lifecycle_handler.rs:274-286 | the four event types by name go to these two arms, with what each leaves behind; every other type is refused and changes nothing |
| Routes.WhatVisitorsCanTell | src/presentation/http/public_routes.rs:117-146 | two errors look alike to a visitor exactly when they are the same error with the same detail, or both credential-shaped |
| Routes.PublicAnswers | src/application/service/portal_error.rs:80-110 | the status, code and advertised wait of every error: 401 with one body for the two credential errors, 429 with the wait, and 500, 403, 503, 400 and 404 exactly for their errors |
| Routes.ServerFailuresAreTold | src/application/service/portal_error.rs:21-40 | the server's own failures share status and code, and their texts agree only for the same failure with the same detail |
| Routes.RedeemInvite | src/presentation/http/public_routes.rs:205-229 | a refusal charges the identity and the address counter, every other answer charges none; alone, the answer is the refusal exactly when no pending invitation of the address has that link |
| Routes.Rotate | src/presentation/http/public_routes.rs:261-284 | a throttled address reads and writes nothing; alone and admitted, with the secret set, a link of no good bearer gets the one refusal and one charge, a good one is exchanged unless the expiry, id or nonce does not fit, and with the secret unset the answer is a server failure without a charge; success leaves the presented link dead |
| Surface.Validate | src/application/service/portal_surface.rs:125-148 | accepts exactly the patches whose ten set arms are within their declared byte limits, and otherwise names the first arm that is not |
| Surface.Build | src/application/service/portal_surface.rs:299-331 | the builder yields the statement with the set arms in order, commas between them, then stamp and row condition |
| Surface.StatementReads | src/application/service/portal_surface.rs:299-331 | the built statement is well formed exactly for patches that set something, and then reads back as their set arms, the principal's stamp and its id |
| Surface.AssignedIsPatched | src/application/service/portal_surface.rs:302-323 | the assignments amount to the functional update of the named columns and leave every other column alone |
| Surface.StatementMeans | src/application/service/portal_surface.rs:299-331 | on every table the built statement, its row condition read term by term, writes exactly that update and the stamp on the row of the principal, provided it is active and not deleted |
| Surface.ValidatedFits | src/application/service/portal_surface.rs:121-148 | a validated patch never violates the length checks of the table |
| Surface.Accounts.UpdateMyDetails | src/application/service/portal_surface.rs:280-341 | a refused patch writes nothing; otherwise the write is the functional update of the rows it finds, and the answer is the row of the principal as it then is, or a miss exactly when it is no longer live and active |
| Surface.UpdateKeepsPrincipals | src/application/service/portal_surface.rs:302-331 | the update touches no column any other verb reads |
| Surface.BytesAndCharacters | src/application/service/portal_surface.rs:138-146 | byte length and character length agree exactly for ASCII text |
| Audit.RecordAudit | src/application/service/audit.rs:32-56 | the loop computes the most specific subject and the detail overlaid with the remaining ids |
| Audit.FoldLosesNothing | src/application/service/audit.rs:30-56 | a fact can be read back from its row exactly when the detail is an object that puts no id, and nothing that passes for one, under a key the fold may overlay beside that kind of subject; such facts with one row are one fact |
| Audit.FoldCollides | src/application/service/audit.rs:40-56 | every other fact shares its row with one of those, so a reader that gets those right gets every other wrong |
| Audit.ServicesWriteLegibly | src/application/service/audit.rs:21-56 | every row the verbs write can be read back in full |

## Left out

- Text.NormalForm: trimming and lower-casing cover ASCII; Unicode white space and case folding are not modelled.
- Text.NormalizeIdempotent: the same.
- Throttle.ThrottleBound: is about attempts on one key that do not overlap, because a check and a registration take the lock separately. A release build is modelled; a debug build stops where the counter wraps.
- The throttle book is not part of the interleaved state: in `Protocol.dfy` the environment decides when an attempt is throttled, and `AccessService.dfy` and `Routes.dfy` tie the decision to the book.
- Each process has a book of its own, lost on restart; the model has one book.
- The keyed hash, random nonces and fresh UUIDs: an arbitrary function, and values the environment chooses, guarded by the unique indexes. Constant-time comparison is left out.
- The password verifier: an oracle that answers yes, no, fault or absent.
- `UPDATE ... WHERE` over several rows is two steps, the rows found and the rows still matching when written; other isolation effects of the database are left out.
- A query error at any statement is a crash there: the request stops and the tables stay as the statement left them. Only the policy read, which the code turns into "closed", is modelled as an answer.
- An expiry outside the range of the time type ends the request with an internal error of its own; in the code it panics.
- Audit details of the interleaved model, actors, reasons and timestamps of rows. The texts of bus errors are fixed ones without the envelope.
- Touches of `last_used_at` and `last_login_at`, which gate nothing.
- `mint_recipient_credential` writes an audit row that is not part of the interleaved model; the credential itself is.
- Generated create, update and delete handlers, row guards, exports and seeders. Officers may soft-delete rows and move principals between states; un-revoking and restoring deleted rows, which those handlers do not rule out, are excluded.
- The axum router, header parsing, environment secrets, connection handling and organisation scopes.
- History.HistoryIsNewest: orders rows by their place in the trail; two rows with one timestamp, or timestamps out of order, are not modelled.
