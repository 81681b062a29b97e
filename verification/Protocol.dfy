// The verbs of the portal as programs over the tables, one statement a step.
// Any number of requests run interleaved; a crash may fall between any two
// steps. Clock readings, fresh identifiers, nonces, verifier answers, the
// throttle's refusals and the row an unordered query returns are all chosen
// by the environment.
module Protocol {
  import opened Prelude
  import opened Text
  import opened Links
  import opened Schema
  import opened Verify
  import Runs

  // `mint_nonce`: 128 random bits in lower-case hexadecimal.
  type Nonce = s: string | |s| == 32 && AllHex(s) witness seq(32, i => '0')

  lemma NonceWellFormed(nonce: Nonce)
    ensures WellFormedNonce(nonce)
  {
  }

  // The declared check on stored emails counts characters.
  const MAX_EMAIL_CHARS: int := 320

  // What the credential port says; a faulty verifier says why.
  datatype Answer = Verified | Wrong | Faulty(detail: string) | Unwired

  datatype Choice = Choice(
    id: Uuid, nonce: Nonce, now: Time, answer: Answer, throttled: Option<int>, readFails: bool, pick: Uuid,
    detail: string)

  // Which verb minted a bearer.
  datatype Via = Direct | ByLogin(email: string) | BySignup(email: string) | ByRedeem(invite: Uuid)

  // A sweep on its own, or as part of `revoke_access`.
  datatype Sweep = Alone | OfAccess(user: Uuid, email: string, lifecycle: bool)

  datatype Outcome =
    | Accepted(token: Uuid, user: Uuid)
    | Superseded(prior: Uuid, token: Uuid, user: Uuid)
    | Minted(user: Uuid, token: Uuid, via: Via)
    | Access(user: Uuid, performed: bool)
    | Finished
    | Refused(error: PortalError)

  // A request and where it stands: each constructor names the statement it
  // runs next, with the locals it holds by then. A crashed one stays where it
  // was and never moves again.
  datatype Req =
    | BearerRow(link: string, rotate: Option<int>)
    | BearerStatus(token: Uuid, user: Uuid, rotate: Option<int>)
    | RotateTx(token: Uuid, user: Uuid, ttl: int)
    | MintInsert(user: Uuid, ttl: int, via: Via)
    | RevokeOne(token: Uuid)
    | SweepTokens(user: Uuid, sweep: Sweep)
    | SweepTokensRows(user: Uuid, rows: set<Uuid>, sweep: Sweep)
    | MintInvite(email: string, ttl: int)
    | RedeemRow(link: string, email: string)
    | RedeemTx(invite: Uuid, email: string)
    | RevokeInviteOne(invite: Uuid)
    | SweepInvites(email: string, sweep: Sweep)
    | SweepInvitesRows(email: string, rows: set<Uuid>, sweep: Sweep)
    | SweepExpired
    | SweepExpiredRows(rows: set<Uuid>)
    | LoginRow(email: string)
    | LoginCheck(user: Uuid, email: string)
    | SignupPolicy(email: string)
    | SignupRow(email: string, readAt: nat)
    | SignupCheck(email: string, readAt: nat)
    | SignupInsert(email: string, readAt: nat)
    | SignupFallback(email: string)
    | RevokeAccess(user: Uuid, lifecycle: bool)
    | SetPolicy(enabled: bool)
    | Created(sapiens: Uuid, email: string)
    | Gone(sapiens: Uuid)
    | Audit(row: AuditRow, next: Req)
    | Done(outcome: Outcome)
    | Dead(last: Req)

  function Refuse(error: PortalError): Req { Done(Refused(error)) }

  function Note(event: AuditEvent, user: Option<Uuid>, next: Req): Req {
    Audit(AuditRow(event, user, None, None), next)
  }

  // ----- entry points -----------------------------------------------------

  datatype Call =
    | CallVerify(link: string)
    | CallRotate(link: string, ttl: int)
    | CallMint(user: Uuid, ttl: int)
    | CallRevokeBearer(token: Uuid)
    | CallRevokeAll(user: Uuid)
    | CallMintInvite(email: string, ttl: int)
    | CallRedeem(link: string, email: string)
    | CallRevokeInvite(invite: Uuid)
    | CallRevokePending(email: string)
    | CallSweepExpired
    | CallLogin(email: string)
    | CallSignup(email: string)
    | CallRevokeAccess(user: Uuid)
    | CallSetPolicy(enabled: bool)
    | CallCreated(userId: string, email: string)
    | CallGone(userId: string)

  function EnterMintInvite(address: string, ttl: int): Req {
    if '@' !in address || Utf8Length(address) > 320 then Refuse(InvalidInput(RecipientRequired))
    else MintInvite(address, if ttl >= 1 then ttl else DEFAULT_INVITE_TTL_DAYS)
  }

  function EnterLogin(address: string): Req {
    if address == "" then Refuse(InvalidCredentials) else LoginRow(address)
  }

  function EnterSignup(address: string): Req {
    if address == "" || '@' !in address then Refuse(InvalidInput(EmailRequired)) else SignupPolicy(address)
  }

  function EnterCreated(user: Option<Uuid>, address: string): Req {
    if user.None? then Refuse(InvalidInput(NotAUuid)) else Created(user.value, address)
  }

  function EnterGone(user: Option<Uuid>): Req {
    if user.None? then Refuse(InvalidInput(NotAUuid)) else Gone(user.value)
  }

  // What each verb does before its first statement.
  function Enter(call: Call): Req {
    match call
    case CallVerify(link) => BearerRow(link, None)
    case CallRotate(link, ttl) => BearerRow(link, Some(ttl))
    case CallMint(user, ttl) => MintInsert(user, ttl, Direct)
    case CallRevokeBearer(token) => RevokeOne(token)
    case CallRevokeAll(user) => SweepTokens(user, Alone)
    case CallMintInvite(email, ttl) => EnterMintInvite(NormalizeEmail(email), ttl)
    case CallRedeem(link, email) => RedeemRow(link, NormalizeEmail(email))
    case CallRevokeInvite(invite) => RevokeInviteOne(invite)
    case CallRevokePending(email) => SweepInvites(NormalizeEmail(email), Alone)
    case CallSweepExpired => SweepExpired
    case CallLogin(email) => EnterLogin(NormalizeEmail(email))
    case CallSignup(email) => EnterSignup(NormalizeEmail(email))
    case CallRevokeAccess(user) => RevokeAccess(user, false)
    case CallSetPolicy(enabled) => SetPolicy(enabled)
    case CallCreated(userId, email) => EnterCreated(ParseUuid(userId), NormalizeEmail(email))
    case CallGone(userId) => EnterGone(ParseUuid(userId))
  }

  // ----- one step of one request ------------------------------------------

  datatype Move = Move(stmt: Stmt, next: Req)

  function Stay(r: Req): Move { Move(Nothing, r) }

  function Expiry(now: Time, hours: int): Time {
    now + (if hours < 1 then 1 else hours) * HOUR
  }

  // token_service.rs
  function TokenMove(e: Engine, db: Tables, r: Req, c: Choice): (m: Move)
    ensures m.stmt.Nothing? || OnTokens(m.stmt)
  {
    match r
    case BearerRow(link, rotate) =>
      (match VerifyRow(e, db, link, c.now)
       case Err(error) => Stay(Refuse(error))
       case Ok(x) => Stay(BearerStatus(x.token, x.user, rotate)))
    case BearerStatus(token, user, rotate) =>
      if !ActiveUser(db, user) then Stay(Refuse(CredentialRefused))
      else if rotate.Some? then Stay(RotateTx(token, user, rotate.value))
      else Stay(Done(Accepted(token, user)))
    case RotateTx(token, user, ttl) =>
      var expires := Expiry(c.now, ttl);
      if !InRange(expires) then Stay(Refuse(Internal(OutOfRange)))
      else if !IsActiveToken(db, token) then Stay(Refuse(CredentialRefused))
      else if !CanInsertToken(db, c.id, user, c.nonce) then Stay(Refuse(Db(c.detail)))
      else Move(RotateToken(token, c.id, user, c.nonce, expires),
                Audit(AuditRow(EvBearerRotated, Some(user), None, Some(token)),
                      Done(Superseded(token, c.id, user))))
    case MintInsert(user, ttl, via) =>
      var expires := Expiry(c.now, ttl);
      if e.bearerSecret == [] then Stay(Refuse(BearerSecretNotConfigured))
      else if !InRange(expires) then Stay(Refuse(Internal(OutOfRange)))
      else if !CanInsertToken(db, c.id, user, c.nonce) then Stay(Refuse(Db(c.detail)))
      else
        var done := Done(Minted(user, c.id, via));
        Move(InsertToken(c.id, user, c.nonce, expires),
             Audit(AuditRow(EvBearerMinted, Some(user), None, Some(c.id)),
                   if via.ByLogin? then Note(EvLoginSucceeded, Some(user), done) else done))
    case RevokeOne(token) =>
      if !IsActiveToken(db, token) then Stay(Refuse(NotFound(LiveBearer(token))))
      else Move(RevokeTokens({token}),
                Audit(AuditRow(EvBearerRevoked, Some(db.tokens[token].user), None, Some(token)), Done(Finished)))
    case SweepTokens(user, sweep) => Stay(SweepTokensRows(user, ActiveTokensOf(db, user), sweep))
    case SweepTokensRows(user, rows, sweep) =>
      var next := if sweep.Alone? then Done(Finished) else SweepInvites(sweep.email, sweep);
      Move(RevokeTokens(rows),
           if exists t :: t in rows && IsActiveToken(db, t) then Note(EvBearerRevoked, Some(user), next) else next)
    case _ => Stay(r)
  }

  // invite_service.rs
  function InviteMove(e: Engine, db: Tables, r: Req, c: Choice): (m: Move)
    ensures m.stmt.Nothing? || m.stmt.InsertInvite? || m.stmt.RetireInvites? || m.stmt.RedeemInvite?
    ensures m.stmt.RedeemInvite? ==> CanRedeem(db, m.stmt.invite, m.stmt.user)
  {
    match r
    case MintInvite(email, ttl) =>
      var expires := c.now + ttl * DAY;
      if !InRange(expires) then Stay(Refuse(Internal(OutOfRange)))
      else if !CanInsertInvite(db, c.id, c.nonce) then Stay(Refuse(Db(c.detail)))
      else Move(InsertInvite(c.id, email, c.nonce, expires),
                Audit(AuditRow(EvInviteMinted, None, Some(c.id), None),
                      if e.bearerSecret == [] then Refuse(BearerSecretNotConfigured) else Done(Finished)))
    case RedeemRow(link, email) =>
      if Redeemable(e, db, link, email, c.now) then Stay(RedeemTx(ParseCapability(link).value.id, email))
      else Stay(Refuse(CredentialRefused))
    case RedeemTx(invite, email) =>
      if !IsPending(db, invite) then Stay(Refuse(CredentialRefused))
      else if !CanRedeem(db, invite, c.id) then Stay(Refuse(Db(c.detail)))
      else Move(Schema.RedeemInvite(invite, c.id),
                Audit(AuditRow(EvInviteRedeemed, Some(c.id), Some(invite), None),
                      MintInsert(c.id, DEFAULT_BEARER_TTL_HOURS, ByRedeem(invite))))
    case RevokeInviteOne(invite) =>
      if !IsPending(db, invite) then Stay(Refuse(NotFound(PendingInvite(invite))))
      else Move(RetireInvites({invite}, InviteRevoked),
                Audit(AuditRow(EvInviteRevoked, None, Some(invite), None), Done(Finished)))
    case SweepInvites(email, sweep) => Stay(SweepInvitesRows(email, PendingFor(db, email), sweep))
    case SweepInvitesRows(email, rows, sweep) =>
      Move(RetireInvites(rows, InviteRevoked),
           if sweep.OfAccess? then
             (if sweep.lifecycle then Note(EvAccessRevoked, Some(sweep.user), Done(Finished))
              else Done(Access(sweep.user, true)))
           else if exists i :: i in rows && IsPending(db, i) then Note(EvInviteRevoked, None, Done(Finished))
           else Done(Finished))
    case SweepExpired => Stay(SweepExpiredRows(PendingBefore(db, c.now)))
    case SweepExpiredRows(rows) => Move(RetireInvites(rows, InviteExpired), Done(Finished))
    case _ => Stay(r)
  }

  // access_service.rs and policy_service.rs. A lookup by email returns the
  // chosen row if it matches, and waits for a better choice while some other
  // row does.
  function AccessMove(db: Tables, r: Req, c: Choice, clock: nat): (m: Move)
    ensures m.stmt.Nothing? || m.stmt.InsertUser? || m.stmt.RevokeUser? || m.stmt.SetPolicyRow?
    ensures m.stmt.InsertUser? ==> r.SignupInsert? && CanInsertUser(db, m.stmt.id, m.stmt.email)
    ensures m.stmt.SetPolicyRow? ==> r == SetPolicy(m.stmt.enabled)
  {
    match r
    case LoginRow(email) =>
      if c.throttled.Some? then Stay(Refuse(TooManyAttempts(c.throttled.value)))
      else if LiveAt(db, c.pick, email) then
        if db.users[c.pick].status == Active then Stay(LoginCheck(c.pick, email))
        else Stay(Note(EvLoginRefused, Some(c.pick), Refuse(InvalidCredentials)))
      else if EmailFree(db, email) then Stay(Note(EvLoginRefused, None, Refuse(InvalidCredentials)))
      else Stay(r)
    case LoginCheck(user, email) =>
      (match c.answer
       case Verified => Stay(MintInsert(user, DEFAULT_BEARER_TTL_HOURS, ByLogin(email)))
       case Wrong => Stay(Note(EvLoginRefused, Some(user), Refuse(InvalidCredentials)))
       case Faulty(detail) => Stay(Refuse(Internal(VerifierFailed(detail))))
       case Unwired => Stay(Note(EvPortNotComposed, Some(user), Refuse(CredentialPortNotComposed))))
    case SignupPolicy(email) =>
      if SignupOpen(db) && !c.readFails then Stay(SignupRow(email, clock))
      else Stay(Note(EvSignupRefused, None, Refuse(SignupClosed)))
    case SignupRow(email, readAt) =>
      if LiveAt(db, c.pick, email) then
        if db.users[c.pick].status == Active then Stay(LoginRow(email)) else Stay(Refuse(InvalidCredentials))
      else if EmailFree(db, email) then Stay(SignupCheck(email, readAt))
      else Stay(r)
    case SignupCheck(email, readAt) =>
      if c.throttled.Some? then Stay(Refuse(TooManyAttempts(c.throttled.value)))
      else
        (match c.answer
         case Verified => Stay(SignupInsert(email, readAt))
         case Wrong => Stay(Refuse(InvalidCredentials))
         case Faulty(detail) => Stay(Refuse(Internal(VerifierFailed(detail))))
         case Unwired => Stay(Note(EvPortNotComposed, None, Refuse(CredentialPortNotComposed))))
    case SignupInsert(email, readAt) =>
      if |email| > MAX_EMAIL_CHARS then Stay(Refuse(Db(c.detail)))
      else if CanInsertUser(db, c.id, email) then
        Move(InsertUser(c.id, email),
             Note(EvSignupCreated, Some(c.id), MintInsert(c.id, DEFAULT_BEARER_TTL_HOURS, BySignup(email))))
      else Stay(SignupFallback(email))
    case SignupFallback(email) =>
      if LiveAt(db, c.pick, email) then
        Stay(Note(EvSignupCreated, Some(c.pick), MintInsert(c.pick, DEFAULT_BEARER_TTL_HOURS, BySignup(email))))
      else if EmailFree(db, email) then Stay(Refuse(Internal(SignupRaceLost)))
      else Stay(r)
    case RevokeAccess(user, lifecycle) =>
      if CanRevokeUser(db, user) then
        Move(RevokeUser(user), SweepTokens(user, OfAccess(user, db.users[user].email, lifecycle)))
      else Stay(Done(if lifecycle then Finished else Access(user, false)))
    case SetPolicy(enabled) => Move(SetPolicyRow(c.id, enabled), Note(EvPolicyChanged, None, Done(Finished)))
    case _ => Stay(r)
  }

  // lifecycle_handler.rs, and the audit step every verb shares.
  function LifecycleMove(db: Tables, r: Req, c: Choice): (m: Move)
    ensures m.stmt.Nothing? || m.stmt.StampUsers? || m.stmt.AppendAudit?
  {
    match r
    case Created(sapiens, email) =>
      if Unlinked(db, c.pick, email) then
        Move(StampUsers(email, sapiens), Note(EvOnboardingLinked, Some(c.pick), Done(Finished)))
      else if forall u :: u in db.users ==> !Unlinked(db, u, email) then
        Move(StampUsers(email, sapiens), Note(EvOnboardingNoInvitation, None, Done(Finished)))
      else Stay(r)
    case Gone(sapiens) =>
      if LinkedTo(db, c.pick, sapiens) then Stay(RevokeAccess(c.pick, true))
      else if forall u :: u in db.users ==> !LinkedTo(db, u, sapiens) then Stay(Done(Finished))
      else Stay(r)
    case Audit(row, next) => Move(AppendAudit(row), next)
    case _ => Stay(r)
  }

  predicate IsTokenReq(r: Req) {
    r.BearerRow? || r.BearerStatus? || r.RotateTx? || r.MintInsert? || r.RevokeOne?
    || r.SweepTokens? || r.SweepTokensRows?
  }

  predicate IsInviteReq(r: Req) {
    r.MintInvite? || r.RedeemRow? || r.RedeemTx? || r.RevokeInviteOne? || r.SweepInvites?
    || r.SweepInvitesRows? || r.SweepExpired? || r.SweepExpiredRows?
  }

  predicate IsLifecycleReq(r: Req) { r.Created? || r.Gone? || r.Audit? || r.Done? || r.Dead? }

  function MoveOf(e: Engine, db: Tables, r: Req, c: Choice, clock: nat): Move {
    if IsTokenReq(r) then TokenMove(e, db, r, c)
    else if IsInviteReq(r) then InviteMove(e, db, r, c)
    else if IsLifecycleReq(r) then LifecycleMove(db, r, c)
    else AccessMove(db, r, c, clock)
  }

  // ----- the whole system -------------------------------------------------

  // Where a principal row came from: a history variable.
  datatype Origin = FromInvite(invite: Uuid) | FromSignup(request: nat, readAt: nat)

  datatype State = State(db: Tables, reqs: map<nat, Req>, origins: map<Uuid, Origin>)

  datatype Act =
    | Begin(request: nat, call: Call)
    | Step(request: nat, choice: Choice)
    | Crash(request: nat)
    | Officer(stmt: Stmt)

  // Row changes made outside the verbs: soft deletion, and moves of a
  // principal between the states other than `revoked`.
  predicate ByOfficer(st: Stmt) {
    st.MoveUser? || st.DeleteUser? || st.DeleteToken? || st.DeleteInvite? || st.DeletePolicy?
  }

  function NewOrigins(s: State, q: nat, m: Move): map<Uuid, Origin>
    requires q in s.reqs
  {
    match m.stmt
    case RedeemInvite(invite, user) => s.origins[user := FromInvite(invite)]
    case InsertUser(id, _) =>
      if s.reqs[q].SignupInsert? then s.origins[id := FromSignup(q, s.reqs[q].readAt)] else s.origins
    case _ => s.origins
  }

  function Apply(e: Engine, s: State, a: Act, clock: nat): State {
    match a
    case Begin(q, call) => if q in s.reqs then s else s.(reqs := s.reqs[q := Enter(call)])
    case Step(q, c) =>
      if q !in s.reqs then s
      else
        var m := MoveOf(e, s.db, s.reqs[q], c, clock);
        State(Exec(s.db, m.stmt), s.reqs[q := m.next], NewOrigins(s, q, m))
    case Crash(q) =>
      if q !in s.reqs || s.reqs[q].Done? || s.reqs[q].Dead? then s else s.(reqs := s.reqs[q := Dead(s.reqs[q])])
    case Officer(stmt) => if ByOfficer(stmt) then s.(db := Exec(s.db, stmt)) else s
  }

  const INITIAL: State := State(EMPTY, map[], map[])

  function StepOf(e: Engine): (State, Act, nat) -> State {
    (s: State, a: Act, clock: nat) => Apply(e, s, a, clock)
  }

  // The state after the first n acts of a run that starts on empty tables.
  function After(e: Engine, acts: seq<Act>, n: nat): State
    requires n <= |acts|
  {
    Runs.Run(INITIAL, StepOf(e), acts, n)
  }

  // ----- what a request's locals stand for --------------------------------

  predicate OwnsToken(db: Tables, t: Uuid, user: Uuid) {
    t in db.tokens && db.tokens[t].user == user && user in db.users
  }

  predicate IsSuccessor(db: Tables, prior: Uuid, t: Uuid, user: Uuid) {
    OwnsToken(db, prior, user) && OwnsToken(db, t, user)
    && db.tokens[prior].status == TokenRotated && db.tokens[prior].rotatedTo == Some(t)
  }

  predicate ViaOk(db: Tables, user: Uuid, via: Via) {
    match via
    case ByLogin(email) => user in db.users && db.users[user].email == email
    case BySignup(email) => user in db.users && db.users[user].email == email
    case ByRedeem(invite) => invite in db.invites && db.invites[invite].redeemedBy == Some(user)
      && db.invites[invite].status == InviteRedeemed
    case _ => true
  }

  predicate SweepOk(db: Tables, user: Uuid, sweep: Sweep) {
    sweep.OfAccess? ==>
      sweep.user == user && user in db.users && db.users[user].status == Revoked
      && db.users[user].email == sweep.email
  }

  predicate OutcomeOk(db: Tables, o: Outcome) {
    match o
    case Accepted(t, user) => OwnsToken(db, t, user)
    case Superseded(prior, t, user) => IsSuccessor(db, prior, t, user)
    case Minted(user, t, via) => OwnsToken(db, t, user) && ViaOk(db, user, via)
    case Access(user, performed) => performed ==> user in db.users && db.users[user].status == Revoked
    case _ => true
  }

  predicate ReqOk(db: Tables, r: Req) {
    match r
    case BearerStatus(t, user, _) => OwnsToken(db, t, user)
    case RotateTx(t, user, _) => OwnsToken(db, t, user)
    case MintInsert(user, _, via) => ViaOk(db, user, via)
    case SweepTokens(user, sweep) => SweepOk(db, user, sweep)
    case SweepTokensRows(user, _, sweep) => SweepOk(db, user, sweep)
    case MintInvite(email, _) => NormalizeEmail(email) == email
    case RedeemTx(invite, email) => invite in db.invites && db.invites[invite].email == email
    case SweepInvites(_, sweep) => sweep.OfAccess? ==> SweepOk(db, sweep.user, sweep)
    case SweepInvitesRows(_, _, sweep) => sweep.OfAccess? ==> SweepOk(db, sweep.user, sweep)
    case LoginRow(email) => NormalizeEmail(email) == email
    case LoginCheck(user, email) => user in db.users && db.users[user].email == email
    case SignupPolicy(email) => NormalizeEmail(email) == email
    case SignupRow(email, _) => NormalizeEmail(email) == email
    case SignupCheck(email, _) => NormalizeEmail(email) == email
    case SignupInsert(email, _) => NormalizeEmail(email) == email
    case SignupFallback(email) => NormalizeEmail(email) == email
    case Audit(_, next) => ReqOk(db, next)
    case Done(outcome) => OutcomeOk(db, outcome)
    case Dead(last) => ReqOk(db, last)
    case _ => true
  }

  lemma ViaStable(a: Tables, b: Tables, user: Uuid, via: Via)
    requires Evolves(a, b) && ViaOk(a, user, via)
    ensures ViaOk(b, user, via)
  {
  }

  lemma OutcomeStable(a: Tables, b: Tables, o: Outcome)
    requires Evolves(a, b) && OutcomeOk(a, o)
    ensures OutcomeOk(b, o)
  {
    if o.Minted? {
      ViaStable(a, b, o.user, o.via);
    }
  }

  // What a request knows stays true whatever the others do.
  lemma {:induction false} ReqStable(a: Tables, b: Tables, r: Req)
    requires Evolves(a, b) && ReqOk(a, r)
    ensures ReqOk(b, r)
  {
    match r
    case MintInsert(user, _, via) => ViaStable(a, b, user, via);
    case Audit(_, next) => ReqStable(a, b, next);
    case Done(outcome) => OutcomeStable(a, b, outcome);
    case Dead(last) => ReqStable(a, b, last);
    case _ =>
  }

  lemma AddressEntriesOk(db: Tables, address: string, ttl: int)
    requires NormalizeEmail(address) == address
    ensures ReqOk(db, EnterMintInvite(address, ttl))
    ensures ReqOk(db, EnterLogin(address)) && ReqOk(db, EnterSignup(address))
  {
    hide NormalizeEmail, Utf8Length;
  }

  lemma BusEntriesOk(db: Tables, address: string, user: Option<Uuid>)
    ensures ReqOk(db, EnterCreated(user, address)) && ReqOk(db, EnterGone(user))
  {
  }

  lemma EnterOk(db: Tables, call: Call)
    ensures ReqOk(db, Enter(call))
  {
    hide NormalizeEmail, ParseUuid, ReqOk, EnterMintInvite, EnterLogin, EnterSignup, EnterCreated, EnterGone;
    if call.CallMintInvite? || call.CallLogin? || call.CallSignup? {
      NormalizeIdempotent(call.email);
      AddressEntriesOk(db, NormalizeEmail(call.email), if call.CallMintInvite? then call.ttl else 0);
    } else if call.CallCreated? {
      BusEntriesOk(db, NormalizeEmail(call.email), ParseUuid(call.userId));
    } else if call.CallGone? {
      BusEntriesOk(db, "", ParseUuid(call.userId));
    } else {
      VerbEntryOk(db, call);
    }
  }

  lemma VerbEntryOk(db: Tables, call: Call)
    requires !call.CallMintInvite? && !call.CallLogin? && !call.CallSignup? && !call.CallCreated? && !call.CallGone?
    ensures ReqOk(db, Enter(call))
  {
    hide NormalizeEmail, ParseUuid, EnterMintInvite, EnterLogin, EnterSignup, EnterCreated, EnterGone;
  }

  // The statement is one the tables tolerate, and the locals are true after it.
  predicate MoveFits(db: Tables, m: Move) {
    Issued(db, m.stmt) && ReqOk(Exec(db, m.stmt), m.next)
  }

  lemma BearerReadsFit(e: Engine, db: Tables, r: Req, c: Choice)
    requires ReqOk(db, r) && (r.BearerRow? || r.BearerStatus?)
    ensures MoveFits(db, TokenMove(e, db, r, c))
  {
  }

  lemma RotatedFits(db: Tables, x: Req, id: Uuid, nonce: Nonce, expires: Time)
    requires x.RotateTx? && ReqOk(db, x) && InRange(expires) && CanRotate(db, x.token, id, x.user, nonce)
    ensures var st := RotateToken(x.token, id, x.user, nonce, expires);
            && Issued(db, st)
            && ReqOk(Exec(db, st), Audit(AuditRow(EvBearerRotated, Some(x.user), None, Some(x.token)),
                                         Done(Superseded(x.token, id, x.user))))
  {
    NonceWellFormed(nonce);
    var db' := Exec(db, RotateToken(x.token, id, x.user, nonce, expires));
    assert OutcomeOk(db', Superseded(x.token, id, x.user));
    assert ReqOk(db', Done(Superseded(x.token, id, x.user)));
  }

  lemma RefusedFits(db: Tables, error: PortalError)
    ensures MoveFits(db, Stay(Refuse(error)))
  {
  }

  lemma RotateFits(e: Engine, db: Tables, r: Req, c: Choice)
    requires ReqOk(db, r) && r.RotateTx?
    ensures MoveFits(db, TokenMove(e, db, r, c))
  {
    hide ReqOk, Exec, Issued, InRange, CanInsertToken;
    var expires := Expiry(c.now, r.ttl);
    if InRange(expires) && IsActiveToken(db, r.token) && CanInsertToken(db, c.id, r.user, c.nonce) {
      RotatedFits(db, r, c.id, c.nonce, expires);
    } else {
      RefusedFits(db, TokenMove(e, db, r, c).next.outcome.error);
    }
  }

  lemma AuditFits(db: Tables, row: AuditRow, next: Req)
    requires ReqOk(db, next)
    ensures ReqOk(db, Audit(row, next))
  {
  }

  lemma MintedFits(db: Tables, user: Uuid, id: Uuid, via: Via)
    requires ViaOk(db, user, via) && OwnsToken(db, id, user)
    ensures var done := Done(Minted(user, id, via));
            ReqOk(db, done) && ReqOk(db, Note(EvLoginSucceeded, Some(user), done))
  {
    assert ReqOk(db, Done(Minted(user, id, via)));
  }

  lemma MintFits(e: Engine, db: Tables, r: Req, c: Choice)
    requires ReqOk(db, r) && r.MintInsert?
    ensures MoveFits(db, TokenMove(e, db, r, c))
  {
    var m := TokenMove(e, db, r, c);
    if m.next.Audit? {
      ExecEvolves(db, m.stmt);
      ViaStable(db, Exec(db, m.stmt), r.user, r.via);
      MintedFits(Exec(db, m.stmt), r.user, c.id, r.via);
      AuditFits(Exec(db, m.stmt), m.next.row, m.next.next);
    }
  }

  lemma RevokeOneFits(e: Engine, db: Tables, r: Req, c: Choice)
    requires ReqOk(db, r) && r.RevokeOne?
    ensures MoveFits(db, TokenMove(e, db, r, c))
  {
  }

  lemma SweepTokensFits(e: Engine, db: Tables, r: Req, c: Choice)
    requires ReqOk(db, r) && r.SweepTokens?
    ensures MoveFits(db, TokenMove(e, db, r, c))
  {
  }

  lemma SweepTokensRowsFits(e: Engine, db: Tables, r: Req, c: Choice)
    requires ReqOk(db, r) && r.SweepTokensRows?
    ensures MoveFits(db, TokenMove(e, db, r, c))
  {
  }

  lemma RedeemRowFits(e: Engine, db: Tables, r: Req, c: Choice)
    requires r.RedeemRow?
    ensures MoveFits(db, InviteMove(e, db, r, c))
  {
  }

  lemma RedeemTxFits(e: Engine, db: Tables, r: Req, c: Choice)
    requires ReqOk(db, r) && r.RedeemTx?
    ensures MoveFits(db, InviteMove(e, db, r, c))
  {
  }

  lemma IssuedInvite(db: Tables, email: string, id: Uuid, nonce: Nonce, expires: Time)
    requires NormalizeEmail(email) == email && InRange(expires)
    ensures Issued(db, InsertInvite(id, email, nonce, expires))
  {
    NonceWellFormed(nonce);
  }

  lemma ReportFits(db: Tables, row: AuditRow, error: PortalError)
    ensures ReqOk(db, Audit(row, Refuse(error))) && ReqOk(db, Audit(row, Done(Finished)))
  {
  }

  // The move of a minted invitation, for any expiry.
  function InviteStored(e: Engine, email: string, id: Uuid, nonce: Nonce, expires: Time): Move {
    Move(InsertInvite(id, email, nonce, expires),
         Audit(AuditRow(EvInviteMinted, None, Some(id), None),
               if e.bearerSecret == [] then Refuse(BearerSecretNotConfigured) else Done(Finished)))
  }

  lemma InviteStoredFits(e: Engine, db: Tables, email: string, id: Uuid, nonce: Nonce, expires: Time)
    requires NormalizeEmail(email) == email && InRange(expires)
    ensures MoveFits(db, InviteStored(e, email, id, nonce, expires))
  {
    IssuedInvite(db, email, id, nonce, expires);
    ReportFits(Exec(db, InsertInvite(id, email, nonce, expires)), AuditRow(EvInviteMinted, None, Some(id), None),
               BearerSecretNotConfigured);
    hide ReqOk, Exec, Issued, InRange, NormalizeEmail;
  }

  lemma MintInviteMove(e: Engine, db: Tables, r: Req, c: Choice)
    requires r.MintInvite?
    ensures var expires := c.now + r.ttl * DAY;
            InviteMove(e, db, r, c) ==
            if !InRange(expires) then Stay(Refuse(Internal(OutOfRange)))
            else if !CanInsertInvite(db, c.id, c.nonce) then Stay(Refuse(Db(c.detail)))
            else InviteStored(e, r.email, c.id, c.nonce, expires)
  {
    hide CanInsertInvite, InRange;
  }

  lemma MintInviteFits(e: Engine, db: Tables, r: Req, c: Choice)
    requires ReqOk(db, r) && r.MintInvite?
    ensures MoveFits(db, InviteMove(e, db, r, c))
  {
    assert NormalizeEmail(r.email) == r.email;
    hide ReqOk, Exec, Issued, InRange, CanInsertInvite, NormalizeEmail, InviteMove, MoveFits, InviteStored;
    MintInviteMove(e, db, r, c);
    var expires := c.now + r.ttl * DAY;
    if !InRange(expires) {
      RefusedFits(db, Internal(OutOfRange));
    } else if !CanInsertInvite(db, c.id, c.nonce) {
      RefusedFits(db, Db(c.detail));
    } else {
      InviteStoredFits(e, db, r.email, c.id, c.nonce, expires);
    }
  }

  lemma RevokeInviteFits(e: Engine, db: Tables, r: Req, c: Choice)
    requires r.RevokeInviteOne?
    ensures MoveFits(db, InviteMove(e, db, r, c))
  {
  }

  lemma SweepExpiredFits(e: Engine, db: Tables, r: Req, c: Choice)
    requires r.SweepExpired?
    ensures MoveFits(db, InviteMove(e, db, r, c))
  {
  }

  lemma SweepExpiredRowsFits(e: Engine, db: Tables, r: Req, c: Choice)
    requires r.SweepExpiredRows?
    ensures MoveFits(db, InviteMove(e, db, r, c))
  {
  }

  lemma SweepInvitesFits(e: Engine, db: Tables, r: Req, c: Choice)
    requires ReqOk(db, r) && r.SweepInvites?
    ensures MoveFits(db, InviteMove(e, db, r, c))
  {
  }

  lemma SweepInvitesRowsFits(e: Engine, db: Tables, r: Req, c: Choice)
    requires ReqOk(db, r) && r.SweepInvitesRows?
    ensures MoveFits(db, InviteMove(e, db, r, c))
  {
  }

  lemma SignupInsertFits(db: Tables, r: Req, c: Choice, clock: nat)
    requires ReqOk(db, r) && r.SignupInsert?
    ensures MoveFits(db, AccessMove(db, r, c, clock))
  {
  }

  lemma SignupFallbackFits(db: Tables, r: Req, c: Choice, clock: nat)
    requires ReqOk(db, r) && r.SignupFallback?
    ensures MoveFits(db, AccessMove(db, r, c, clock))
  {
  }

  lemma LoginRowFits(db: Tables, r: Req, c: Choice, clock: nat)
    requires ReqOk(db, r) && r.LoginRow?
    ensures MoveFits(db, AccessMove(db, r, c, clock))
  {
  }

  lemma LoginCheckFits(db: Tables, r: Req, c: Choice, clock: nat)
    requires ReqOk(db, r) && r.LoginCheck?
    ensures MoveFits(db, AccessMove(db, r, c, clock))
  {
  }

  lemma SignupRowFits(db: Tables, r: Req, c: Choice, clock: nat)
    requires ReqOk(db, r) && r.SignupRow?
    ensures MoveFits(db, AccessMove(db, r, c, clock))
  {
  }

  lemma SignupCheckFits(db: Tables, r: Req, c: Choice, clock: nat)
    requires ReqOk(db, r) && r.SignupCheck?
    ensures MoveFits(db, AccessMove(db, r, c, clock))
  {
  }

  lemma SignupPolicyFits(db: Tables, r: Req, c: Choice, clock: nat)
    requires ReqOk(db, r) && r.SignupPolicy?
    ensures MoveFits(db, AccessMove(db, r, c, clock))
  {
  }

  lemma RevokeAccessFits(db: Tables, r: Req, c: Choice, clock: nat)
    requires r.RevokeAccess?
    ensures MoveFits(db, AccessMove(db, r, c, clock))
  {
  }

  lemma SetPolicyFits(db: Tables, r: Req, c: Choice, clock: nat)
    requires r.SetPolicy?
    ensures MoveFits(db, AccessMove(db, r, c, clock))
  {
  }

  lemma CreatedFits(db: Tables, r: Req, c: Choice)
    requires r.Created?
    ensures MoveFits(db, LifecycleMove(db, r, c))
  {
  }

  lemma GoneFits(db: Tables, r: Req, c: Choice)
    requires r.Gone?
    ensures MoveFits(db, LifecycleMove(db, r, c))
  {
  }

  lemma RestFits(db: Tables, r: Req, c: Choice)
    requires ReqOk(db, r) && (r.Done? || r.Dead?)
    ensures MoveFits(db, LifecycleMove(db, r, c))
  {
  }

  lemma RecordFits(db: Tables, r: Req, c: Choice)
    requires ReqOk(db, r) && r.Audit?
    ensures MoveFits(db, LifecycleMove(db, r, c))
  {
    assert ReqOk(db, r.next);
    ExecEvolves(db, AppendAudit(r.row));
    ReqStable(db, Exec(db, AppendAudit(r.row)), r.next);
  }

  lemma TokenFits(e: Engine, db: Tables, r: Req, c: Choice)
    requires ReqOk(db, r) && IsTokenReq(r)
    ensures MoveFits(db, TokenMove(e, db, r, c))
  {
    hide MoveFits, ReqOk, TokenMove;
    if r.BearerRow? || r.BearerStatus? {
      BearerReadsFit(e, db, r, c);
    } else if r.RotateTx? {
      RotateFits(e, db, r, c);
    } else if r.MintInsert? {
      MintFits(e, db, r, c);
    } else if r.RevokeOne? {
      RevokeOneFits(e, db, r, c);
    } else if r.SweepTokens? {
      SweepTokensFits(e, db, r, c);
    } else {
      SweepTokensRowsFits(e, db, r, c);
    }
  }

  lemma InviteFits(e: Engine, db: Tables, r: Req, c: Choice)
    requires ReqOk(db, r) && IsInviteReq(r)
    ensures MoveFits(db, InviteMove(e, db, r, c))
  {
    hide MoveFits, ReqOk, InviteMove;
    match r
    case MintInvite(_, _) => MintInviteFits(e, db, r, c);
    case RedeemRow(_, _) => RedeemRowFits(e, db, r, c);
    case RedeemTx(_, _) => RedeemTxFits(e, db, r, c);
    case RevokeInviteOne(_) => RevokeInviteFits(e, db, r, c);
    case SweepInvites(_, _) => SweepInvitesFits(e, db, r, c);
    case SweepInvitesRows(_, _, _) => SweepInvitesRowsFits(e, db, r, c);
    case SweepExpired => SweepExpiredFits(e, db, r, c);
    case SweepExpiredRows(_) => SweepExpiredRowsFits(e, db, r, c);
    case _ =>
  }

  lemma AccessFits(db: Tables, r: Req, c: Choice, clock: nat)
    requires ReqOk(db, r) && !IsTokenReq(r) && !IsInviteReq(r) && !IsLifecycleReq(r)
    ensures MoveFits(db, AccessMove(db, r, c, clock))
  {
    hide MoveFits, ReqOk, AccessMove;
    match r
    case LoginRow(_) => LoginRowFits(db, r, c, clock);
    case LoginCheck(_, _) => LoginCheckFits(db, r, c, clock);
    case SignupPolicy(_) => SignupPolicyFits(db, r, c, clock);
    case SignupRow(_, _) => SignupRowFits(db, r, c, clock);
    case SignupCheck(_, _) => SignupCheckFits(db, r, c, clock);
    case SignupInsert(_, _) => SignupInsertFits(db, r, c, clock);
    case SignupFallback(_) => SignupFallbackFits(db, r, c, clock);
    case RevokeAccess(_, _) => RevokeAccessFits(db, r, c, clock);
    case SetPolicy(_) => SetPolicyFits(db, r, c, clock);
    case _ =>
  }

  lemma LifecycleFits(db: Tables, r: Req, c: Choice)
    requires ReqOk(db, r) && IsLifecycleReq(r)
    ensures MoveFits(db, LifecycleMove(db, r, c))
  {
    hide MoveFits, ReqOk, LifecycleMove;
    if r.Audit? {
      RecordFits(db, r, c);
    } else if r.Created? {
      CreatedFits(db, r, c);
    } else if r.Gone? {
      GoneFits(db, r, c);
    } else {
      RestFits(db, r, c);
    }
  }

  // A request only issues statements that keep the tables, and arrives where
  // its locals are again true.
  lemma MoveOk(e: Engine, db: Tables, r: Req, c: Choice, clock: nat)
    requires ReqOk(db, r)
    ensures MoveFits(db, MoveOf(e, db, r, c, clock))
  {
    hide MoveFits, ReqOk, TokenMove, InviteMove, AccessMove, LifecycleMove;
    if IsTokenReq(r) {
      TokenFits(e, db, r, c);
    } else if IsInviteReq(r) {
      InviteFits(e, db, r, c);
    } else if IsLifecycleReq(r) {
      LifecycleFits(db, r, c);
    } else {
      AccessFits(db, r, c, clock);
    }
  }

  // ----- the invariant ----------------------------------------------------

  predicate Inv(s: State) {
    TablesOk(s.db) && ReqsOk(s.db, s.reqs)
  }

  lemma ApplyEvolves(e: Engine, s: State, a: Act, clock: nat)
    ensures Evolves(s.db, Apply(e, s, a, clock).db)
  {
    EvolvesRefl(s.db);
    match a
    case Step(q, c) =>
      if q in s.reqs {
        ExecEvolves(s.db, MoveOf(e, s.db, s.reqs[q], c, clock).stmt);
      }
    case Officer(stmt) => ExecEvolves(s.db, stmt);
    case _ =>
  }

  predicate ReqsOk(db: Tables, reqs: map<nat, Req>) {
    forall q :: q in reqs ==> ReqOk(db, reqs[q])
  }

  lemma ReqsStable(a: Tables, b: Tables, reqs: map<nat, Req>)
    requires Evolves(a, b) && ReqsOk(a, reqs)
    ensures ReqsOk(b, reqs)
  {
    forall q | q in reqs ensures ReqOk(b, reqs[q]) {
      ReqStable(a, b, reqs[q]);
    }
  }

  lemma StepKeepsInv(e: Engine, s: State, q: nat, c: Choice, clock: nat)
    requires Inv(s) && q in s.reqs
    ensures Inv(Apply(e, s, Step(q, c), clock))
  {
    var m := MoveOf(e, s.db, s.reqs[q], c, clock);
    MoveOk(e, s.db, s.reqs[q], c, clock);
    ExecKeepsTables(s.db, m.stmt);
    ExecEvolves(s.db, m.stmt);
    ReqsStable(s.db, Exec(s.db, m.stmt), s.reqs);
  }

  lemma OfficerKeepsInv(e: Engine, s: State, st: Stmt, clock: nat)
    requires Inv(s) && ByOfficer(st)
    ensures Inv(Apply(e, s, Officer(st), clock))
  {
    ExecKeepsTables(s.db, st);
    ExecEvolves(s.db, st);
    ReqsStable(s.db, Exec(s.db, st), s.reqs);
  }

  lemma BeginKeepsInv(e: Engine, s: State, q: nat, call: Call, clock: nat)
    requires Inv(s)
    ensures Inv(Apply(e, s, Begin(q, call), clock))
  {
    EnterOk(s.db, call);
  }

  lemma ApplyKeepsInv(e: Engine, s: State, a: Act, clock: nat)
    requires Inv(s)
    ensures Inv(Apply(e, s, a, clock))
  {
    if a.Crash? && a.request in s.reqs {
      assert ReqOk(s.db, Dead(s.reqs[a.request]));
    }
    hide ReqOk, MoveOf, Exec, Enter, TablesOk;
    match a
    case Begin(q, call) => BeginKeepsInv(e, s, q, call, clock);
    case Step(q, c) =>
      if q in s.reqs {
        StepKeepsInv(e, s, q, c, clock);
      }
    case Officer(stmt) =>
      if ByOfficer(stmt) {
        OfficerKeepsInv(e, s, stmt, clock);
      }
    case Crash(q) =>
  }

  lemma OneMoreAct(e: Engine, acts: seq<Act>, n: nat)
    requires n < |acts|
    ensures After(e, acts, n + 1) == Apply(e, After(e, acts, n), acts[n], n)
  {
  }

  lemma InitialInv()
    ensures Inv(INITIAL)
  {
  }

  // The invariant holds after every number of acts of every run.
  lemma RunInv(e: Engine, acts: seq<Act>, n: nat)
    requires n <= |acts|
    ensures Inv(After(e, acts, n))
  {
    var inv := (k: nat, s: State) => Inv(s);
    InitialInv();
    forall k: nat, s | k < |acts| && inv(k, s) ensures inv(k + 1, StepOf(e)(s, acts[k], k)) {
      ApplyKeepsInv(e, s, acts[k], k);
    }
    Runs.Always(INITIAL, StepOf(e), acts, n, inv);
  }

  // Between any two moments of a run every row only moves forward.
  lemma RunEvolves(e: Engine, acts: seq<Act>, m: nat, n: nat)
    requires m <= n <= |acts|
    ensures Evolves(After(e, acts, m).db, After(e, acts, n).db)
  {
    var base := After(e, acts, m).db;
    var inv := (k: nat, s: State) => Evolves(base, s.db);
    EvolvesRefl(base);
    forall k: nat, s | m <= k < n && inv(k, s) ensures inv(k + 1, StepOf(e)(s, acts[k], k)) {
      ApplyEvolves(e, s, acts[k], k);
      EvolvesTrans(base, s.db, Apply(e, s, acts[k], k).db);
    }
    Runs.From(INITIAL, StepOf(e), acts, m, n, inv);
  }

  lemma {:induction false} PrefixRun(e: Engine, acts: seq<Act>, more: seq<Act>, n: nat)
    requires n <= |acts|
    ensures After(e, acts + more, n) == After(e, acts, n)
  {
    if n > 0 {
      PrefixRun(e, acts, more, n - 1);
      OneMoreAct(e, acts, n - 1);
      OneMoreAct(e, acts + more, n - 1);
      assert (acts + more)[n - 1] == acts[n - 1];
    }
  }

  // One more act at the end of a run.
  lemma Extended(e: Engine, acts: seq<Act>, a: Act)
    ensures After(e, acts + [a], |acts| + 1) == Apply(e, After(e, acts, |acts|), a, |acts|)
  {
    OneMoreAct(e, acts + [a], |acts|);
    PrefixRun(e, acts, [a], |acts|);
  }
}
