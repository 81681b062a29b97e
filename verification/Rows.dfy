// What the verbs answer and leave behind when nobody else runs, read off the
// stored rows, the arguments and the choices of the environment. Contracts
// and proofs speak of these definitions; no statement and no step uses one.
module Rows {
  import opened Prelude
  import opened Text
  import opened Links
  import opened Schema
  import opened Verify
  import opened Protocol
  import opened Conduct

  // ----- principals -------------------------------------------------------

  // The row is live and active.
  predicate Standing(db: Tables, u: Uuid) {
    u in db.users && db.users[u].status == Active && !db.users[u].deleted
  }

  // A live row has the email, active or not.
  predicate Taken(db: Tables, email: string) {
    exists u :: u in db.users && db.users[u].email == email && !db.users[u].deleted
  }

  // The id is no stored id, and every stored row of the email is deleted.
  predicate NewUser(db: Tables, id: Uuid, email: string) {
    id !in db.users && forall u :: u in db.users && db.users[u].email == email ==> db.users[u].deleted
  }

  lemma NewUserIff(db: Tables, id: Uuid, email: string)
    ensures NewUser(db, id, email) <==> CanInsertUser(db, id, email)
    ensures Taken(db, email) <==> !EmailFree(db, email)
  {
    if !EmailFree(db, email) {
      var u :| u in db.users && LiveAt(db, u, email);
      assert u in db.users && db.users[u].email == email && !db.users[u].deleted;
    }
    if Taken(db, email) {
      var u :| u in db.users && db.users[u].email == email && !db.users[u].deleted;
      assert LiveAt(db, u, email);
    }
    if EmailFree(db, email) {
      forall u | u in db.users && db.users[u].email == email ensures db.users[u].deleted {
        assert !LiveAt(db, u, email);
      }
    }
  }

  // ----- bearers ----------------------------------------------------------

  // The whole seconds of the instant fit 64 bits.
  predicate InTime(t: Time) { -0x8000_0000_0000_0000 <= t / 1_000_000 <= 0x7FFF_FFFF_FFFF_FFFF }

  lemma InTimeIff(t: Time)
    ensures InTime(t) <==> InRange(t)
  {
  }

  // The asked hours, and at least one.
  function BearerUntil(now: Time, hours: int): Time {
    now + (if hours < 1 then 1 else hours) * 3_600_000_000
  }

  // The owner is stored, the id is no stored id and the nonce no stored nonce.
  predicate NewToken(db: Tables, id: Uuid, user: Uuid, nonce: string) {
    id !in db.tokens && user in db.users && forall t :: t in db.tokens ==> db.tokens[t].nonce != nonce
  }

  lemma NewTokenIff(db: Tables, id: Uuid, user: Uuid, nonce: string)
    ensures NewToken(db, id, user, nonce) <==> CanInsertToken(db, id, user, nonce)
  {
  }

  // Why a bearer cannot be minted, in the order the reasons are met.
  function MintFault(e: Engine, db: Tables, user: Uuid, hours: int, c: Choice): Option<PortalError> {
    if e.bearerSecret == [] then Some(BearerSecretNotConfigured)
    else if !InTime(BearerUntil(c.now, hours)) then Some(Internal(OutOfRange))
    else if !NewToken(db, c.id, user, c.nonce) then Some(Db(c.detail))
    else None
  }

  // One new active row, and the row that records it.
  function BearerAdded(db: Tables, user: Uuid, hours: int, c: Choice): Tables {
    db.(tokens := db.tokens[c.id :=
                    Token(user, c.nonce, BearerUntil(c.now, hours), TokenActive, None, false, db.births)],
        births := db.births + 1,
        trail := db.trail + [AuditRow(EvBearerMinted, Some(user), None, Some(c.id))])
  }

  // The prior row points at the new one, and the row that records it.
  predicate BearerExchanged(db: Tables, db': Tables, prior: Uuid, user: Uuid, hours: int, c: Choice) {
    prior in db.tokens
    && (var spent := db.tokens[prior].(status := TokenRotated, rotatedTo := Some(c.id));
        var issued := Token(user, c.nonce, BearerUntil(c.now, hours), TokenActive, None, false, db.births);
        db' == db.(tokens := db.tokens[prior := spent][c.id := issued], births := db.births + 1,
                   trail := db.trail + [AuditRow(EvBearerRotated, Some(user), None, Some(prior))]))
  }

  // What the rotation transaction answers on the rows it finds: it commits
  // exactly while the prior bearer is active, the expiry is in range, and id
  // and nonce are new.
  predicate ExchangeSays(found: Tables, x: Claimant, ttl: int, c: Choice, r: Result<string>) {
    && (r.Ok? <==> InTime(BearerUntil(c.now, ttl)) && OpenBearer(found, x.token)
                   && NewToken(found, c.id, x.user, c.nonce))
    && (r.Err? ==>
          r.error == if !InTime(BearerUntil(c.now, ttl)) then Internal(OutOfRange)
                     else if !OpenBearer(found, x.token) then CredentialRefused
                     else Db(c.detail))
  }

  // The link reads as that of bearer t, which is live, active and unexpired,
  // and whose owner is live and active.
  predicate Accepts(e: Engine, db: Tables, link: string, now: Time, t: Uuid, user: Uuid) {
    && e.bearerSecret != [] && t in db.tokens
    && db.tokens[t].user == user && db.tokens[t].status == TokenActive && !db.tokens[t].deleted
    && now <= db.tokens[t].expires && Standing(db, user)
    && SameReading(link, BearerLink(e, t, db.tokens[t].nonce, user, db.tokens[t].expires).value)
  }

  // The answer is a claimant exactly when the link is accepted for it.
  ghost predicate AnswersFor(e: Engine, db: Tables, link: string, now: Time, r: Result<Claimant>) {
    forall t: Uuid, user: Uuid :: r == Ok(Claimant(t, user)) <==> Accepts(e, db, link, now, t, user)
  }

  // Nobody's good bearer has that link.
  ghost predicate NoBearer(e: Engine, db: Tables, link: string, now: Time) {
    forall t: Uuid, user: Uuid :: !Accepts(e, db, link, now, t, user)
  }

  lemma AcceptsIff(e: Engine, db: Tables, link: string, now: Time, t: Uuid, user: Uuid)
    requires TablesOk(db)
    ensures Accepts(e, db, link, now, t, user) <==>
            VerifyRow(e, db, link, now) == Ok(Claimant(t, user)) && ActiveUser(db, user)
  {
    hide UsersOk, InvitesOk, VerifyRow, SameReading, BearerLink;
    if e.bearerSecret != [] && t in db.tokens {
      AcceptanceOfRow(e, db, link, now, t, user);
    } else {
      RowAccepted(e, db, link, now);
    }
  }

  lemma RowAccepted(e: Engine, db: Tables, link: string, now: Time)
    ensures VerifyRow(e, db, link, now).Ok? ==>
              e.bearerSecret != [] && VerifyRow(e, db, link, now).value.token in db.tokens
  {
  }

  // One bearer is revoked, and the row that records it.
  predicate BearerRevoked(db: Tables, db': Tables, t: Uuid) {
    t in db.tokens
    && db' == db.(tokens := db.tokens[t := db.tokens[t].(status := TokenRevoked)],
                  trail := db.trail + [AuditRow(EvBearerRevoked, Some(db.tokens[t].user), None, Some(t))])
  }

  // The bearer is active, whoever owns it.
  predicate OpenBearer(db: Tables, t: Uuid) { t in db.tokens && db.tokens[t].status == TokenActive }

  function OpenBearersOf(db: Tables, user: Uuid): set<Uuid> {
    set t | t in db.tokens && db.tokens[t].status == TokenActive && db.tokens[t].user == user
  }

  // Every active bearer of the principal is revoked, and no other row moves.
  function BearersCut(tokens: map<Uuid, Token>, user: Uuid): map<Uuid, Token> {
    map t | t in tokens ::
      if tokens[t].user == user && tokens[t].status == TokenActive then tokens[t].(status := TokenRevoked)
      else tokens[t]
  }

  // What a sweep of the bearers leaves: the rows, and one row that records
  // them if there were any.
  function BearersSwept(db: Tables, user: Uuid): Tables {
    db.(tokens := BearersCut(db.tokens, user),
        trail := if OpenBearersOf(db, user) == {} then db.trail
                 else db.trail + [AuditRow(EvBearerRevoked, Some(user), None, None)])
  }

  lemma OpenBearersIff(db: Tables, user: Uuid)
    ensures OpenBearersOf(db, user) == ActiveTokensOf(db, user)
    ensures BearersCut(db.tokens, user) == TokensRevoked(db.tokens, ActiveTokensOf(db, user))
  {
  }

  // ----- invitations ------------------------------------------------------

  function InviteUntil(now: Time, days: int): Time { now + days * 86_400_000_000 }

  predicate NewInvite(db: Tables, id: Uuid, nonce: string) {
    id !in db.invites && forall i :: i in db.invites ==> db.invites[i].nonce != nonce
  }

  lemma NewInviteIff(db: Tables, id: Uuid, nonce: string)
    ensures NewInvite(db, id, nonce) <==> CanInsertInvite(db, id, nonce)
  {
  }

  // Why an invitation cannot be stored.
  function InviteFault(db: Tables, days: int, c: Choice): Option<PortalError> {
    if !InTime(InviteUntil(c.now, days)) then Some(Internal(OutOfRange))
    else if !NewInvite(db, c.id, c.nonce) then Some(Db(c.detail))
    else None
  }

  function InviteAdded(db: Tables, email: string, days: int, c: Choice): Tables {
    db.(invites := db.invites[c.id :=
                     Invite(email, c.nonce, InviteUntil(c.now, days), InvitePending, None, false)],
        trail := db.trail + [AuditRow(EvInviteMinted, None, Some(c.id), None)])
  }

  // The link reads as that of invitation i, which is live, pending, unexpired
  // and made out to the address.
  predicate Invites(e: Engine, db: Tables, link: string, email: string, now: Time, i: Uuid) {
    && e.bearerSecret != [] && i in db.invites
    && db.invites[i].email == email && db.invites[i].status == InvitePending && !db.invites[i].deleted
    && now <= db.invites[i].expires
    && SameReading(link, InviteLink(e, i, db.invites[i].nonce, email, db.invites[i].expires / 1_000_000).value)
  }

  ghost predicate NoInvite(e: Engine, db: Tables, link: string, email: string, now: Time) {
    forall i: Uuid :: !Invites(e, db, link, email, now, i)
  }

  lemma InvitesIff(e: Engine, db: Tables, link: string, email: string, now: Time, i: Uuid)
    requires TablesOk(db)
    ensures Invites(e, db, link, email, now, i) <==>
            Redeemable(e, db, link, email, now) && ParseCapability(link).Some?
            && ParseCapability(link).value.id == i
  {
    hide UsersOk, TokensOk, ParseCapability, InviteLink;
    if e.bearerSecret != [] && i in db.invites {
      var row := db.invites[i];
      assert InviteRowOk(db.users, row);
      InviteArmsIffReading(e, link, i, row.nonce, row.email, row.expires);
    }
  }

  // The principal and the redeemed invitation, and the row that records them.
  predicate InviteClaimed(db: Tables, db': Tables, i: Uuid, user: Uuid) {
    i in db.invites
    && db' == db.(invites := db.invites[i := db.invites[i].(status := InviteRedeemed, redeemedBy := Some(user))],
                  users := db.users[user := User(db.invites[i].email, Active, false, None)],
                  trail := db.trail + [AuditRow(EvInviteRedeemed, Some(user), Some(i), None)])
  }

  // One invitation is revoked, and the row that records it.
  predicate InviteRevokedAlone(db: Tables, db': Tables, i: Uuid) {
    i in db.invites
    && db' == db.(invites := db.invites[i := db.invites[i].(status := InviteRevoked)],
                  trail := db.trail + [AuditRow(EvInviteRevoked, None, Some(i), None)])
  }

  predicate OpenInvite(db: Tables, i: Uuid) { i in db.invites && db.invites[i].status == InvitePending }

  function OpenInvitesFor(db: Tables, email: string): set<Uuid> {
    set i | i in db.invites && db.invites[i].status == InvitePending && db.invites[i].email == email
  }

  // Every pending invitation of the address is revoked.
  function InvitesCut(invites: map<Uuid, Invite>, email: string): map<Uuid, Invite> {
    map i | i in invites ::
      if invites[i].email == email && invites[i].status == InvitePending
      then invites[i].(status := InviteRevoked) else invites[i]
  }

  function OverdueInvites(db: Tables, now: Time): set<Uuid> {
    set i | i in db.invites && db.invites[i].status == InvitePending && db.invites[i].expires < now
  }

  // Every pending invitation past its expiry is expired.
  function InvitesLapsed(invites: map<Uuid, Invite>, now: Time): map<Uuid, Invite> {
    map i | i in invites ::
      if invites[i].expires < now && invites[i].status == InvitePending
      then invites[i].(status := InviteExpired) else invites[i]
  }

  lemma OpenInvitesIff(db: Tables, email: string, now: Time)
    ensures OpenInvitesFor(db, email) == PendingFor(db, email)
    ensures InvitesCut(db.invites, email) == InvitesRetired(db.invites, PendingFor(db, email), InviteRevoked)
    ensures OverdueInvites(db, now) == PendingBefore(db, now)
    ensures InvitesLapsed(db.invites, now) == InvitesRetired(db.invites, PendingBefore(db, now), InviteExpired)
  {
  }

  // ----- the policy -------------------------------------------------------

  // A row is live and on.
  predicate SwitchedOn(db: Tables) {
    exists p :: p in db.policies && db.policies[p].enabled && !db.policies[p].deleted
  }

  lemma SwitchedOnIff(db: Tables)
    ensures SwitchedOn(db) <==> SignupOpen(db)
  {
  }

  // ----- accounts ---------------------------------------------------------

  // The principal is live, of the email, and has no account yet.
  predicate Linkable(db: Tables, u: Uuid, email: string) {
    u in db.users && db.users[u].email == email && !db.users[u].deleted && db.users[u].sapiens == None
  }

  // The principal is live and linked to the account.
  predicate HasAccount(db: Tables, u: Uuid, sapiens: Uuid) {
    u in db.users && !db.users[u].deleted && db.users[u].sapiens == Some(sapiens)
  }

  // What a revocation of access writes: the status, the bearers, the
  // invitations, a row for the bearers if there were any, and the rows of its
  // caller.
  predicate AccessCut(db: Tables, db': Tables, u: Uuid, more: seq<AuditRow>) {
    u in db.users
    && db' == db.(users := db.users[u := db.users[u].(status := Revoked)],
                  tokens := BearersCut(db.tokens, u),
                  invites := InvitesCut(db.invites, db.users[u].email),
                  trail := (if OpenBearersOf(db, u) == {} then db.trail
                            else db.trail + [AuditRow(EvBearerRevoked, Some(u), None, None)]) + more)
  }

  // What a `created` event writes: the account on the one linkable principal,
  // if there is one, and one row that names it or nobody.
  predicate CreatedSays(db: Tables, db': Tables, sapiens: Uuid, email: string, linked: Option<Uuid>) {
    && (match linked
        case Some(u) => Linkable(db, u, email)
        case None => forall u :: u in db.users ==> !Linkable(db, u, email))
    && db' == db.(
         users := if linked.None? then db.users
                  else db.users[linked.value := db.users[linked.value].(sapiens := Some(sapiens))],
         trail := db.trail + [AuditRow(if linked.None? then EvOnboardingNoInvitation else EvOnboardingLinked,
                                       linked, None, None)])
  }

  // What a `gone` event writes: some live principal of the account is cut if
  // it was not yet revoked; none is where there is none.
  ghost predicate GoneSays(db: Tables, db': Tables, sapiens: Uuid, cut: Option<Uuid>) {
    && ((forall u: Uuid :: !HasAccount(db, u, sapiens)) ==> cut == None)
    && ((exists u: Uuid :: HasAccount(db, u, sapiens)) ==>
          exists u: Uuid :: HasAccount(db, u, sapiens)
                            && cut == if db.users[u].status == Revoked then None else Some(u))
    && match cut
       case Some(u) => AccessCut(db, db', u, [AuditRow(EvAccessRevoked, Some(u), None, None)])
       case None => db' == db
  }

  // ----- login and signup -------------------------------------------------

  function ChoiceAt(path: Path, k: nat): Option<Choice> {
    if k < |path| then Some(path[k].choice) else None
  }

  // One more row in the trail.
  function Noted(db: Tables, event: AuditEvent, user: Option<Uuid>): Tables {
    db.(trail := db.trail + [AuditRow(event, user, None, None)])
  }

  // The principal of the email is live and active.
  predicate StandsAt(db: Tables, u: Uuid, email: string) {
    u in db.users && db.users[u].email == email && db.users[u].status == Active && !db.users[u].deleted
  }

  // Whom a lookup by email finds: a live row of it, or nobody when there is
  // none.
  predicate LooksUp(db: Tables, email: string, found: Option<Uuid>) {
    match found
    case Some(u) => u in db.users && db.users[u].email == email && !db.users[u].deleted
    case None => !Taken(db, email)
  }

  // What an active principal gets for a credential, and what is written.
  ghost predicate CredentialSays(
      e: Engine, db: Tables, db': Tables, user: Uuid, answer: Answer, mint: Option<Choice>,
      r: Result<(Uuid, string)>) {
    match answer
    case Wrong => r == Err(InvalidCredentials) && db' == Noted(db, EvLoginRefused, Some(user))
    case Faulty(detail) => r == Err(Internal(VerifierFailed(detail))) && db' == db
    case Unwired => r == Err(CredentialPortNotComposed) && db' == Noted(db, EvPortNotComposed, Some(user))
    case Verified => mint.Some? && LoginMints(e, db, db', user, mint.value, r)
  }

  predicate LoginMints(e: Engine, db: Tables, db': Tables, user: Uuid, c: Choice, r: Result<(Uuid, string)>) {
    match MintFault(e, db, user, 24, c)
    case Some(error) => r == Err(error) && db' == db
    case None =>
      r.Ok? && r.value.0 == user && db' == Noted(BearerAdded(db, user, 24, c), EvLoginSucceeded, Some(user))
  }

  // What an admitted login answers and writes.
  ghost predicate LoginSays(
      e: Engine, db: Tables, db': Tables, email: string, answer: Answer, mint: Option<Choice>,
      r: Result<(Uuid, string)>) {
    && (forall u: Uuid :: StandsAt(db, u, email) ==> CredentialSays(e, db, db', u, answer, mint, r))
    && ((forall u: Uuid :: !StandsAt(db, u, email)) ==>
          && r == Err(InvalidCredentials)
          && exists found :: LooksUp(db, email, found) && db' == Noted(db, EvLoginRefused, found))
  }

  // The whole condition of a login that goes through.
  lemma LoginSucceeds(
      e: Engine, db: Tables, db': Tables, email: string, answer: Answer, mint: Option<Choice>,
      r: Result<(Uuid, string)>)
    requires LoginSays(e, db, db', email, answer, mint, r)
    ensures answer == Verified && (exists u: Uuid :: StandsAt(db, u, email)) && e.bearerSecret != [] ==>
              && mint.Some?
              && (r.Ok? <==> InTime(BearerUntil(mint.value.now, 24)) && mint.value.id !in db.tokens
                             && forall t :: t in db.tokens ==> db.tokens[t].nonce != mint.value.nonce)
  {
    hide InTime;
    if answer == Verified && e.bearerSecret != [] {
      if u: Uuid :| StandsAt(db, u, email) {
        assert CredentialSays(e, db, db', u, answer, mint, r);
      }
    }
  }

  // The new principal, recorded as created.
  function PrincipalAdded(db: Tables, id: Uuid, email: string): Tables {
    Noted(db.(users := db.users[id := User(email, Active, false, None)]), EvSignupCreated, Some(id))
  }

  // The first bearer of a principal just recorded as created.
  predicate SignupMints(
      e: Engine, db: Tables, db': Tables, user: Uuid, mint: Option<Choice>, r: Result<(Uuid, string)>) {
    && mint.Some?
    && match MintFault(e, db, user, 24, mint.value)
       case Some(error) => r == Err(error) && db' == db
       case None => r.Ok? && r.value.0 == user && db' == BearerAdded(db, user, 24, mint.value)
  }

  // What the insert of a principal and its first bearer answer and write: a
  // new principal if and only if the address is short enough, the id new and
  // every row of the address deleted.
  ghost predicate CreationSays(
      e: Engine, db: Tables, db': Tables, email: string, path: Path, k: nat, r: Result<(Uuid, string)>) {
    && k < |path|
    && (var c := path[k].choice;
        if |email| > 320 then r == Err(Db(c.detail)) && db' == db
        else if NewUser(db, c.id, email) then
          SignupMints(e, PrincipalAdded(db, c.id, email), db', c.id, ChoiceAt(path, k + 2), r)
        else
          exists found :: LooksUp(db, email, found)
            && match found
               case None => r == Err(Internal(SignupRaceLost)) && db' == db
               case Some(u) => SignupMints(e, Noted(db, EvSignupCreated, Some(u)), db', u, ChoiceAt(path, k + 3), r))
  }

  // What an admitted signup of an address nobody holds answers and writes.
  ghost predicate NewcomerSays(
      e: Engine, db: Tables, db': Tables, email: string, answer: Answer, path: Path, k: nat,
      r: Result<(Uuid, string)>) {
    match answer
    case Wrong => r == Err(InvalidCredentials) && db' == db
    case Faulty(detail) => r == Err(Internal(VerifierFailed(detail))) && db' == db
    case Unwired => r == Err(CredentialPortNotComposed) && db' == Noted(db, EvPortNotComposed, None)
    case Verified => CreationSays(e, db, db', email, path, k, r)
  }

  // The branch a signup takes.
  datatype Branch = Invalid | Shut | Barred | Existing | Newcomer

  // Which one, from the address, the policy rows and the rows of the address.
  ghost function BranchOf(db: Tables, email: string, readFails: bool): Branch {
    if email == "" || '@' !in email then Invalid
    else if readFails || !SwitchedOn(db) then Shut
    else if exists u: Uuid :: StandsAt(db, u, email) then Existing
    else if Taken(db, email) then Barred
    else Newcomer
  }

  // What each branch writes; k is the moment after the branch is taken.
  ghost predicate BranchLeaves(
      e: Engine, branch: Branch, admitted: bool, db: Tables, db': Tables, email: string, answer: Answer,
      path: Path, k: nat, r: Result<(Uuid, string)>) {
    match branch
    case Invalid => db' == db
    case Shut => db' == Noted(db, EvSignupRefused, None)
    case Barred => db' == db
    case Existing =>
      if admitted then LoginSays(e, db, db', email, answer, ChoiceAt(path, k + 2), r) else db' == db
    case Newcomer =>
      if admitted then NewcomerSays(e, db, db', email, answer, path, k + 1, r) else db' == db
  }
}
