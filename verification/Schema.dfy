// The portal tables, the SQL statements the services issue on them, and what
// every statement keeps. A statement outside a transaction and a committed
// transaction are each one atomic change of the tables.
module Schema {
  import opened Prelude
  import opened Text
  import opened Links

  // ----- rows -------------------------------------------------------------

  datatype UserStatus = Invited | Active | Revoked | Archived

  datatype User = User(email: string, status: UserStatus, deleted: bool, sapiens: Option<Uuid>)

  datatype TokenStatus = TokenActive | TokenRotated | TokenRevoked

  // `birth` is the row's place in the order of insertion; the table has no
  // such column.
  datatype Token = Token(
    user: Uuid, nonce: string, expires: Time, status: TokenStatus,
    rotatedTo: Option<Uuid>, deleted: bool, birth: nat)

  datatype InviteStatus = InvitePending | InviteRedeemed | InviteRevoked | InviteExpired

  datatype Invite = Invite(
    email: string, nonce: string, expires: Time, status: InviteStatus,
    redeemedBy: Option<Uuid>, deleted: bool)

  datatype Policy = Policy(enabled: bool, deleted: bool)

  datatype AuditEvent =
    | EvInviteMinted | EvInviteRevoked | EvInviteRedeemed
    | EvSignupRefused | EvSignupCreated | EvPolicyChanged
    | EvBearerMinted | EvBearerRotated | EvBearerRevoked
    | EvLoginSucceeded | EvLoginRefused | EvPortNotComposed
    | EvAccessRevoked | EvOnboardingLinked | EvOnboardingNoInvitation

  datatype AuditRow = AuditRow(
    event: AuditEvent, user: Option<Uuid>, invite: Option<Uuid>, token: Option<Uuid>)

  datatype Tables = Tables(
    users: map<Uuid, User>,
    tokens: map<Uuid, Token>,
    invites: map<Uuid, Invite>,
    policies: map<Uuid, Policy>,
    trail: seq<AuditRow>,
    births: nat)

  const EMPTY: Tables := Tables(map[], map[], map[], map[], [], 0)

  // ----- queries ----------------------------------------------------------

  predicate LiveUser(db: Tables, u: Uuid) { u in db.users && !db.users[u].deleted }

  predicate ActiveUser(db: Tables, u: Uuid) { LiveUser(db, u) && db.users[u].status == Active }

  predicate LiveAt(db: Tables, u: Uuid, email: string) { LiveUser(db, u) && db.users[u].email == email }

  predicate EmailFree(db: Tables, email: string) { forall u :: u in db.users ==> !LiveAt(db, u, email) }

  predicate LinkedTo(db: Tables, u: Uuid, sapiens: Uuid) {
    LiveUser(db, u) && db.users[u].sapiens == Some(sapiens)
  }

  predicate Unlinked(db: Tables, u: Uuid, email: string) {
    LiveAt(db, u, email) && db.users[u].sapiens == None
  }

  predicate IsActiveToken(db: Tables, t: Uuid) { t in db.tokens && db.tokens[t].status == TokenActive }

  predicate IsPending(db: Tables, i: Uuid) { i in db.invites && db.invites[i].status == InvitePending }

  // Fail-closed: no row, a soft-deleted row and a row that is off read as
  // closed.
  predicate SignupOpen(db: Tables) {
    exists p :: p in db.policies && !db.policies[p].deleted && db.policies[p].enabled
  }

  function ActiveTokensOf(db: Tables, user: Uuid): set<Uuid> {
    set t | t in db.tokens && IsActiveToken(db, t) && db.tokens[t].user == user
  }

  function PendingFor(db: Tables, email: string): set<Uuid> {
    set i | i in db.invites && IsPending(db, i) && db.invites[i].email == email
  }

  function PendingBefore(db: Tables, now: Time): set<Uuid> {
    set i | i in db.invites && IsPending(db, i) && db.invites[i].expires < now
  }

  // ----- statements -------------------------------------------------------

  datatype Stmt =
    | Nothing
    | InsertToken(id: Uuid, user: Uuid, nonce: string, expires: Time)
    | RotateToken(prior: Uuid, id: Uuid, user: Uuid, nonce: string, expires: Time)
    | RevokeTokens(rows: set<Uuid>)
    | InsertInvite(id: Uuid, email: string, nonce: string, expires: Time)
    | RedeemInvite(invite: Uuid, user: Uuid)
    | RetireInvites(rows: set<Uuid>, to: InviteStatus)
    | InsertUser(id: Uuid, email: string)
    | RevokeUser(user: Uuid)
    | StampUsers(email: string, sapiens: Uuid)
    | SetPolicyRow(id: Uuid, enabled: bool)
    | AppendAudit(row: AuditRow)
    | MoveUser(user: Uuid, status: UserStatus)
    | DeleteUser(user: Uuid)
    | DeleteToken(token: Uuid)
    | DeleteInvite(invite: Uuid)
    | DeletePolicy(policy: Uuid)

  // The primary key, the nonce index and the foreign key on token rows.
  predicate CanInsertToken(db: Tables, id: Uuid, user: Uuid, nonce: string) {
    id !in db.tokens && user in db.users && forall t :: t in db.tokens ==> db.tokens[t].nonce != nonce
  }

  predicate CanRotate(db: Tables, prior: Uuid, id: Uuid, user: Uuid, nonce: string) {
    IsActiveToken(db, prior) && CanInsertToken(db, id, user, nonce)
  }

  predicate CanInsertInvite(db: Tables, id: Uuid, nonce: string) {
    id !in db.invites && forall i :: i in db.invites ==> db.invites[i].nonce != nonce
  }

  // The primary key and the partial unique index on live emails.
  predicate CanInsertUser(db: Tables, id: Uuid, email: string) {
    id !in db.users && EmailFree(db, email)
  }

  predicate CanRedeem(db: Tables, invite: Uuid, user: Uuid) {
    IsPending(db, invite) && CanInsertUser(db, user, db.invites[invite].email)
  }

  predicate CanRevokeUser(db: Tables, u: Uuid) { LiveUser(db, u) && db.users[u].status != Revoked }

  function FreshUser(email: string): User { User(email, Active, false, None) }

  function FreshToken(db: Tables, user: Uuid, nonce: string, expires: Time): Token {
    Token(user, nonce, expires, TokenActive, None, false, db.births)
  }

  function FreshInvite(email: string, nonce: string, expires: Time): Invite {
    Invite(email, nonce, expires, InvitePending, None, false)
  }

  function WithToken(db: Tables, id: Uuid, user: Uuid, nonce: string, expires: Time): Tables {
    db.(tokens := db.tokens[id := FreshToken(db, user, nonce, expires)], births := db.births + 1)
  }

  function Rotated(db: Tables, prior: Uuid, id: Uuid): Tables
    requires prior in db.tokens
  {
    db.(tokens := db.tokens[prior := db.tokens[prior].(status := TokenRotated, rotatedTo := Some(id))])
  }

  // `UPDATE ... WHERE status = 'active'` over a set of rows.
  function TokensRevoked(tokens: map<Uuid, Token>, rows: set<Uuid>): map<Uuid, Token> {
    map t | t in tokens ::
      if t in rows && tokens[t].status == TokenActive then tokens[t].(status := TokenRevoked) else tokens[t]
  }

  // `UPDATE ... WHERE status = 'pending'` over a set of rows.
  function InvitesRetired(invites: map<Uuid, Invite>, rows: set<Uuid>, to: InviteStatus): map<Uuid, Invite> {
    map i | i in invites ::
      if i in rows && invites[i].status == InvitePending then invites[i].(status := to) else invites[i]
  }

  function UsersStamped(users: map<Uuid, User>, email: string, sapiens: Uuid): map<Uuid, User> {
    map u | u in users ::
      if users[u].email == email && users[u].sapiens == None && !users[u].deleted
      then users[u].(sapiens := Some(sapiens)) else users[u]
  }

  // Statements on the user table.
  function ExecUser(db: Tables, st: Stmt): (r: Tables)
    ensures r == db.(users := r.users)
    ensures !st.InsertUser? ==> r.users.Keys == db.users.Keys
  {
    match st
    case InsertUser(id, email) =>
      if CanInsertUser(db, id, email) then db.(users := db.users[id := FreshUser(email)]) else db
    case RevokeUser(user) =>
      if CanRevokeUser(db, user) then db.(users := db.users[user := db.users[user].(status := Revoked)]) else db
    case StampUsers(email, sapiens) => db.(users := UsersStamped(db.users, email, sapiens))
    case MoveUser(user, status) =>
      if user in db.users && db.users[user].status != Revoked then
        db.(users := db.users[user := db.users[user].(status := status)])
      else db
    case DeleteUser(user) =>
      if user in db.users then db.(users := db.users[user := db.users[user].(deleted := true)]) else db
    case _ => db
  }

  // Statements on the token table. A rotation is one transaction.
  function ExecToken(db: Tables, st: Stmt): (r: Tables)
    ensures r == db.(tokens := r.tokens, births := r.births)
  {
    match st
    case InsertToken(id, user, nonce, expires) =>
      if CanInsertToken(db, id, user, nonce) then WithToken(db, id, user, nonce, expires) else db
    case RotateToken(prior, id, user, nonce, expires) =>
      if CanRotate(db, prior, id, user, nonce) then WithToken(Rotated(db, prior, id), id, user, nonce, expires) else db
    case RevokeTokens(rows) => db.(tokens := TokensRevoked(db.tokens, rows))
    case DeleteToken(token) =>
      if token in db.tokens then db.(tokens := db.tokens[token := db.tokens[token].(deleted := true)]) else db
    case _ => db
  }

  // Statements on the invitation table.
  function ExecInvite(db: Tables, st: Stmt): (r: Tables)
    ensures r == db.(invites := r.invites)
  {
    match st
    case InsertInvite(id, email, nonce, expires) =>
      if CanInsertInvite(db, id, nonce) then
        db.(invites := db.invites[id := FreshInvite(email, nonce, expires)])
      else db
    case RetireInvites(rows, to) => db.(invites := InvitesRetired(db.invites, rows, to))
    case DeleteInvite(invite) =>
      if invite in db.invites then db.(invites := db.invites[invite := db.invites[invite].(deleted := true)]) else db
    case _ => db
  }

  // The redemption transaction: both writes or neither.
  function ExecRedeem(db: Tables, invite: Uuid, user: Uuid): (r: Tables)
    ensures r == db.(invites := r.invites, users := r.users)
  {
    if CanRedeem(db, invite, user) then
      db.(invites := db.invites[invite := db.invites[invite].(status := InviteRedeemed, redeemedBy := Some(user))],
          users := db.users[user := FreshUser(db.invites[invite].email)])
    else db
  }

  // The tables after a statement. A statement whose guard fails, or whose
  // constraint is violated, leaves them as they were. The policy row is
  // deleted and inserted anew in one transaction.
  function Exec(db: Tables, st: Stmt): (r: Tables)
    ensures !st.SetPolicyRow? && !st.DeletePolicy? ==> r.policies == db.policies
    ensures st.SetPolicyRow? || st.DeletePolicy? ==> r == db.(policies := r.policies)
    ensures !st.RedeemInvite? && !st.InsertUser? ==> r.users.Keys == db.users.Keys
  {
    match st
    case Nothing => db
    case RedeemInvite(invite, user) => ExecRedeem(db, invite, user)
    case SetPolicyRow(id, enabled) => db.(policies := map[id := Policy(enabled, false)])
    case DeletePolicy(policy) =>
      if policy in db.policies then
        db.(policies := db.policies[policy := db.policies[policy].(deleted := true)])
      else db
    case AppendAudit(row) => db.(trail := db.trail + [row])
    case _ =>
      if OnUsers(st) then ExecUser(db, st) else if OnTokens(st) then ExecToken(db, st) else ExecInvite(db, st)
  }

  predicate OnUsers(st: Stmt) {
    st.InsertUser? || st.RevokeUser? || st.StampUsers? || st.MoveUser? || st.DeleteUser?
  }

  predicate OnTokens(st: Stmt) {
    st.InsertToken? || st.RotateToken? || st.RevokeTokens? || st.DeleteToken?
  }

  // What the issuing code guarantees about a statement beyond the guards the
  // database enforces.
  predicate Issued(db: Tables, st: Stmt) {
    match st
    case InsertToken(_, _, nonce, expires) => WellFormedNonce(nonce) && InRange(expires)
    case RotateToken(prior, _, user, nonce, expires) =>
      prior in db.tokens && db.tokens[prior].user == user && WellFormedNonce(nonce) && InRange(expires)
    case InsertInvite(_, email, nonce, expires) =>
      NormalizeEmail(email) == email && WellFormedNonce(nonce) && InRange(expires)
    case RetireInvites(_, to) => to == InviteRevoked || to == InviteExpired
    case InsertUser(_, email) => NormalizeEmail(email) == email
    case _ => true
  }

  // ----- invariants of the tables -----------------------------------------

  predicate LiveRow(users: map<Uuid, User>, u: Uuid) { u in users && !users[u].deleted }

  // Emails are stored in normal form, and at most one live principal has any
  // one email.
  predicate UsersOk(users: map<Uuid, User>) {
    && (forall u :: u in users ==> NormalizeEmail(users[u].email) == users[u].email)
    && (forall u, v :: LiveRow(users, u) && LiveRow(users, v) && users[u].email == users[v].email ==> u == v)
  }

  predicate TokenRowOk(users: set<Uuid>, tokens: map<Uuid, Token>, births: nat, row: Token) {
    && row.user in users
    && WellFormedNonce(row.nonce) && InRange(row.expires)
    && row.birth < births
    && (row.status == TokenRotated <==> row.rotatedTo.Some?)
    && (row.rotatedTo.Some? ==>
          && row.rotatedTo.value in tokens
          && tokens[row.rotatedTo.value].user == row.user
          && row.birth < tokens[row.rotatedTo.value].birth)
  }

  predicate OnePredecessor(tokens: map<Uuid, Token>) {
    forall t, t' | t in tokens && t' in tokens && tokens[t].rotatedTo.Some? ::
      tokens[t].rotatedTo == tokens[t'].rotatedTo ==> t == t'
  }

  // Rotation links stay within one owner, lead to later rows, and no two
  // rows have the same successor.
  predicate TokensOk(users: set<Uuid>, tokens: map<Uuid, Token>, births: nat) {
    (forall t :: t in tokens ==> TokenRowOk(users, tokens, births, tokens[t])) && OnePredecessor(tokens)
  }

  predicate InviteRowOk(users: map<Uuid, User>, row: Invite) {
    && NormalizeEmail(row.email) == row.email
    && WellFormedNonce(row.nonce) && InRange(row.expires)
    && (row.status == InviteRedeemed <==> row.redeemedBy.Some?)
    && (row.redeemedBy.Some? ==>
          row.redeemedBy.value in users && users[row.redeemedBy.value].email == row.email)
  }

  predicate OneInvitePerPrincipal(invites: map<Uuid, Invite>) {
    forall i, j | i in invites && j in invites && invites[i].redeemedBy.Some? ::
      invites[i].redeemedBy == invites[j].redeemedBy ==> i == j
  }

  // Redemption is an injection from redeemed invitations to principals with
  // the same email.
  predicate InvitesOk(users: map<Uuid, User>, invites: map<Uuid, Invite>) {
    (forall i :: i in invites ==> InviteRowOk(users, invites[i])) && OneInvitePerPrincipal(invites)
  }

  predicate TablesOk(db: Tables) {
    UsersOk(db.users) && TokensOk(db.users.Keys, db.tokens, db.births)
    && InvitesOk(db.users, db.invites) && |db.policies| <= 1
  }

  // ----- what can ever happen to a row ------------------------------------

  // `revoked` is terminal, the account link is written once, the email and
  // the deletion mark are for good.
  predicate UserMoves(a: User, b: User) {
    && b.email == a.email
    && (a.deleted ==> b.deleted)
    && (a.status == Revoked ==> b.status == Revoked)
    && (a.sapiens.Some? ==> b.sapiens == a.sapiens)
  }

  // A token leaves `active` once and for all; its arms never change.
  predicate TokenMoves(a: Token, b: Token) {
    && b.user == a.user && b.nonce == a.nonce && b.expires == a.expires && b.birth == a.birth
    && (a.deleted ==> b.deleted)
    && (a.status != TokenActive ==> b.status == a.status && b.rotatedTo == a.rotatedTo)
  }

  // An invitation leaves `pending` once and for all.
  predicate InviteMoves(a: Invite, b: Invite) {
    && b.email == a.email && b.nonce == a.nonce && b.expires == a.expires
    && (a.deleted ==> b.deleted)
    && (a.status != InvitePending ==> b.status == a.status && b.redeemedBy == a.redeemedBy)
  }

  predicate UsersMove(a: map<Uuid, User>, b: map<Uuid, User>) {
    forall u :: u in a ==> u in b && UserMoves(a[u], b[u])
  }

  predicate TokensMove(a: map<Uuid, Token>, b: map<Uuid, Token>) {
    forall t :: t in a ==> t in b && TokenMoves(a[t], b[t])
  }

  predicate InvitesMove(a: map<Uuid, Invite>, b: map<Uuid, Invite>) {
    forall i :: i in a ==> i in b && InviteMoves(a[i], b[i])
  }

  predicate Evolves(a: Tables, b: Tables) {
    UsersMove(a.users, b.users) && TokensMove(a.tokens, b.tokens) && InvitesMove(a.invites, b.invites)
    && a.trail <= b.trail && a.births <= b.births
  }

  lemma EvolvesRefl(a: Tables)
    ensures Evolves(a, a)
  {
  }

  lemma EvolvesTrans(a: Tables, b: Tables, c: Tables)
    requires Evolves(a, b) && Evolves(b, c)
    ensures Evolves(a, c)
  {
  }

  // ----- every statement keeps them ---------------------------------------

  lemma TokensGrow(users: set<Uuid>, users': set<Uuid>, tokens: map<Uuid, Token>, births: nat)
    requires TokensOk(users, tokens, births) && users <= users'
    ensures TokensOk(users', tokens, births)
  {
  }

  lemma TokenInserted(users: set<Uuid>, tokens: map<Uuid, Token>, births: nat, id: Uuid, row: Token)
    requires TokensOk(users, tokens, births) && id !in tokens
    requires row.user in users && WellFormedNonce(row.nonce) && InRange(row.expires)
    requires row.birth == births && row.status == TokenActive && row.rotatedTo == None
    ensures TokensOk(users, tokens[id := row], births + 1)
  {
  }

  lemma TokenSuperseded(
      users: set<Uuid>, tokens: map<Uuid, Token>, births: nat, prior: Uuid, id: Uuid, row: Token)
    requires TokensOk(users, tokens, births) && id !in tokens
    requires prior in tokens && tokens[prior].status == TokenActive && row.user == tokens[prior].user
    requires WellFormedNonce(row.nonce) && InRange(row.expires)
    requires row.birth == births && row.status == TokenActive && row.rotatedTo == None
    ensures TokensOk(
              users, tokens[prior := tokens[prior].(status := TokenRotated, rotatedTo := Some(id))][id := row],
              births + 1)
  {
    TokenInserted(users, tokens, births, id, row);
    var with := tokens[id := row];
    var after := with[prior := tokens[prior].(status := TokenRotated, rotatedTo := Some(id))];
    assert after == tokens[prior := tokens[prior].(status := TokenRotated, rotatedTo := Some(id))][id := row];
    forall t | t in after ensures TokenRowOk(users, after, births + 1, after[t]) {
      assert TokenRowOk(users, with, births + 1, with[t]);
    }
  }

  lemma RevokedMove(tokens: map<Uuid, Token>, rows: set<Uuid>)
    ensures TokensMove(tokens, TokensRevoked(tokens, rows))
    ensures forall t :: t in tokens ==> TokensRevoked(tokens, rows)[t].rotatedTo == tokens[t].rotatedTo
  {
  }

  lemma RevokedKeepTokens(users: set<Uuid>, tokens: map<Uuid, Token>, births: nat, rows: set<Uuid>)
    requires TokensOk(users, tokens, births)
    ensures TokensOk(users, TokensRevoked(tokens, rows), births)
    ensures TokensMove(tokens, TokensRevoked(tokens, rows))
  {
    var after := TokensRevoked(tokens, rows);
    RevokedMove(tokens, rows);
    forall t | t in after ensures TokenRowOk(users, after, births, after[t]) {
      assert TokenRowOk(users, tokens, births, tokens[t]);
    }
    assert OnePredecessor(after) by {
      hide TokensRevoked, TokenRowOk;
    }
  }

  lemma TokenDeleted(users: set<Uuid>, tokens: map<Uuid, Token>, births: nat, t: Uuid)
    requires TokensOk(users, tokens, births) && t in tokens
    ensures TokensOk(users, tokens[t := tokens[t].(deleted := true)], births)
  {
    var after := tokens[t := tokens[t].(deleted := true)];
    forall x | x in after ensures TokenRowOk(users, after, births, after[x]) {
      assert TokenRowOk(users, tokens, births, tokens[x]);
    }
  }

  lemma InvitesGrow(users: map<Uuid, User>, users': map<Uuid, User>, invites: map<Uuid, Invite>)
    requires InvitesOk(users, invites) && UsersMove(users, users')
    ensures InvitesOk(users', invites)
  {
    hide NormalizeEmail;
    forall i | i in invites ensures InviteRowOk(users', invites[i]) {
      assert InviteRowOk(users, invites[i]);
    }
  }

  lemma InviteRedeemedBy(users: map<Uuid, User>, invites: map<Uuid, Invite>, invite: Uuid, user: Uuid)
    requires InvitesOk(users, invites) && user !in users
    requires invite in invites && invites[invite].status == InvitePending
    ensures InvitesOk(users[user := FreshUser(invites[invite].email)],
                      invites[invite := invites[invite].(status := InviteRedeemed, redeemedBy := Some(user))])
  {
    hide NormalizeEmail;
    var users' := users[user := FreshUser(invites[invite].email)];
    var after := invites[invite := invites[invite].(status := InviteRedeemed, redeemedBy := Some(user))];
    forall i | i in after ensures InviteRowOk(users', after[i]) {
      assert InviteRowOk(users, invites[i]);
    }
  }

  lemma InviteInserted(users: map<Uuid, User>, invites: map<Uuid, Invite>, id: Uuid, row: Invite)
    requires InvitesOk(users, invites) && id !in invites
    requires InviteRowOk(users, row) && row.redeemedBy == None
    ensures InvitesOk(users, invites[id := row])
  {
  }

  lemma InviteDeleted(users: map<Uuid, User>, invites: map<Uuid, Invite>, invite: Uuid)
    requires InvitesOk(users, invites) && invite in invites
    ensures InvitesOk(users, invites[invite := invites[invite].(deleted := true)])
  {
    assert InviteRowOk(users, invites[invite]);
  }

  lemma RetiredKeepInvites(users: map<Uuid, User>, invites: map<Uuid, Invite>, rows: set<Uuid>, to: InviteStatus)
    requires InvitesOk(users, invites) && (to == InviteRevoked || to == InviteExpired)
    ensures InvitesOk(users, InvitesRetired(invites, rows, to))
  {
    hide NormalizeEmail;
    var after := InvitesRetired(invites, rows, to);
    forall i | i in after ensures InviteRowOk(users, after[i]) {
      assert InviteRowOk(users, invites[i]);
    }
  }

  lemma StampKeepsUsers(users: map<Uuid, User>, email: string, sapiens: Uuid)
    requires UsersOk(users)
    ensures UsersOk(UsersStamped(users, email, sapiens))
  {
    hide NormalizeEmail;
    var after := UsersStamped(users, email, sapiens);
    assert forall u :: u in users ==> after[u].email == users[u].email && after[u].deleted == users[u].deleted;
    assert forall u :: LiveRow(after, u) <==> LiveRow(users, u);
  }

  lemma UserInserted(users: map<Uuid, User>, id: Uuid, email: string)
    requires UsersOk(users) && id !in users && NormalizeEmail(email) == email
    requires forall u :: LiveRow(users, u) ==> users[u].email != email
    ensures UsersOk(users[id := FreshUser(email)])
  {
    hide NormalizeEmail;
    var after := users[id := FreshUser(email)];
    assert forall u :: LiveRow(after, u) <==> LiveRow(users, u) || u == id;
  }

  lemma UserTouched(users: map<Uuid, User>, u: Uuid, row: User)
    requires UsersOk(users) && u in users && UserMoves(users[u], row)
    ensures UsersOk(users[u := row])
  {
    hide NormalizeEmail;
    var after := users[u := row];
    assert forall v :: LiveRow(after, v) ==> LiveRow(users, v);
  }

  lemma UserStmtMoves(db: Tables, st: Stmt)
    ensures UsersMove(db.users, ExecUser(db, st).users)
  {
  }

  lemma InsertUserKeeps(db: Tables, id: Uuid, email: string)
    requires UsersOk(db.users) && NormalizeEmail(email) == email
    ensures UsersOk(ExecUser(db, InsertUser(id, email)).users)
  {
    hide NormalizeEmail;
    if CanInsertUser(db, id, email) {
      UserInserted(db.users, id, email);
    }
  }

  lemma TouchedRow(db: Tables, st: Stmt)
    requires (st.RevokeUser? || st.MoveUser? || st.DeleteUser?) && st.user in db.users
    ensures var users := ExecUser(db, st).users;
            st.user in users && users == db.users[st.user := users[st.user]]
            && UserMoves(db.users[st.user], users[st.user])
  {
  }

  lemma UntouchedRow(db: Tables, st: Stmt)
    requires (st.RevokeUser? || st.MoveUser? || st.DeleteUser?) && st.user !in db.users
    ensures ExecUser(db, st).users == db.users
  {
  }

  lemma TouchUserKeeps(db: Tables, st: Stmt)
    requires UsersOk(db.users) && (st.RevokeUser? || st.MoveUser? || st.DeleteUser?)
    ensures UsersOk(ExecUser(db, st).users)
  {
    hide UsersOk, ExecUser, UserMoves;
    if st.user in db.users {
      TouchedRow(db, st);
      UserTouched(db.users, st.user, ExecUser(db, st).users[st.user]);
    } else {
      UntouchedRow(db, st);
    }
  }

  lemma UserStmtKeeps(db: Tables, st: Stmt)
    requires UsersOk(db.users) && Issued(db, st) && OnUsers(st)
    ensures UsersOk(ExecUser(db, st).users)
  {
    hide NormalizeEmail, UsersOk;
    if st.InsertUser? {
      InsertUserKeeps(db, st.id, st.email);
    } else if st.StampUsers? {
      StampKeepsUsers(db.users, st.email, st.sapiens);
    } else {
      TouchUserKeeps(db, st);
    }
  }

  lemma TokenStmtMoves(db: Tables, st: Stmt)
    ensures TokensMove(db.tokens, ExecToken(db, st).tokens) && db.births <= ExecToken(db, st).births
  {
  }

  lemma TokenStmtKeeps(db: Tables, st: Stmt)
    requires TokensOk(db.users.Keys, db.tokens, db.births) && Issued(db, st)
    ensures TokensOk(db.users.Keys, ExecToken(db, st).tokens, ExecToken(db, st).births)
  {
    match st
    case InsertToken(id, user, nonce, expires) =>
      if CanInsertToken(db, id, user, nonce) {
        TokenInserted(db.users.Keys, db.tokens, db.births, id, FreshToken(db, user, nonce, expires));
      }
    case RotateToken(prior, id, user, nonce, expires) =>
      if CanRotate(db, prior, id, user, nonce) {
        TokenSuperseded(db.users.Keys, db.tokens, db.births, prior, id, FreshToken(db, user, nonce, expires));
      }
    case RevokeTokens(rows) => RevokedKeepTokens(db.users.Keys, db.tokens, db.births, rows);
    case DeleteToken(token) =>
      if token in db.tokens {
        TokenDeleted(db.users.Keys, db.tokens, db.births, token);
      }
    case _ =>
  }

  lemma InviteStmtMoves(db: Tables, st: Stmt)
    ensures InvitesMove(db.invites, ExecInvite(db, st).invites)
  {
  }

  lemma InviteStmtKeeps(db: Tables, st: Stmt)
    requires InvitesOk(db.users, db.invites) && Issued(db, st)
    ensures InvitesOk(db.users, ExecInvite(db, st).invites)
  {
    match st
    case InsertInvite(id, email, nonce, expires) =>
      if CanInsertInvite(db, id, nonce) {
        InviteInserted(db.users, db.invites, id, FreshInvite(email, nonce, expires));
      }
    case RetireInvites(rows, to) => RetiredKeepInvites(db.users, db.invites, rows, to);
    case DeleteInvite(invite) =>
      if invite in db.invites {
        InviteDeleted(db.users, db.invites, invite);
      }
    case _ =>
  }

  lemma RedeemMoves(db: Tables, invite: Uuid, user: Uuid)
    ensures var r := ExecRedeem(db, invite, user);
            UsersMove(db.users, r.users) && InvitesMove(db.invites, r.invites)
  {
  }

  lemma RedeemKeeps(db: Tables, invite: Uuid, user: Uuid)
    requires UsersOk(db.users) && InvitesOk(db.users, db.invites)
    ensures var r := ExecRedeem(db, invite, user); UsersOk(r.users) && InvitesOk(r.users, r.invites)
  {
    if CanRedeem(db, invite, user) {
      assert InviteRowOk(db.users, db.invites[invite]);
      UserInserted(db.users, user, db.invites[invite].email);
      InviteRedeemedBy(db.users, db.invites, invite, user);
    }
  }

  lemma RowsEvolve(a: Tables, b: Tables)
    requires UsersMove(a.users, b.users) && TokensMove(a.tokens, b.tokens) && InvitesMove(a.invites, b.invites)
    requires a.trail <= b.trail && a.births <= b.births
    ensures Evolves(a, b)
  {
  }

  // Every statement moves every row forward.
  lemma ExecEvolves(db: Tables, st: Stmt)
    ensures Evolves(db, Exec(db, st))
  {
    hide UsersMove, TokensMove, InvitesMove;
    EvolvesRefl(db);
    if OnUsers(st) {
      UserStmtMoves(db, st);
      RowsEvolve(db, ExecUser(db, st));
    } else if OnTokens(st) {
      TokenStmtMoves(db, st);
      RowsEvolve(db, ExecToken(db, st));
    } else if st.RedeemInvite? {
      RedeemMoves(db, st.invite, st.user);
      RowsEvolve(db, ExecRedeem(db, st.invite, st.user));
    } else {
      InviteStmtMoves(db, st);
      RowsEvolve(db, Exec(db, st));
    }
  }

  lemma TablesFrom(db: Tables)
    requires UsersOk(db.users) && TokensOk(db.users.Keys, db.tokens, db.births)
    requires InvitesOk(db.users, db.invites) && |db.policies| <= 1
    ensures TablesOk(db)
  {
  }

  lemma UserStmtKeepsTables(db: Tables, st: Stmt)
    requires TablesOk(db) && Issued(db, st) && OnUsers(st)
    ensures TablesOk(ExecUser(db, st))
  {
    UserStmtMoves(db, st);
    UserStmtKeeps(db, st);
    var users' := ExecUser(db, st).users;
    TokensGrow(db.users.Keys, users'.Keys, db.tokens, db.births);
    InvitesGrow(db.users, users', db.invites);
    hide UsersOk, TokensOk, InvitesOk, Issued;
    TablesFrom(ExecUser(db, st));
  }

  lemma RedeemKeepsTables(db: Tables, invite: Uuid, user: Uuid)
    requires TablesOk(db)
    ensures TablesOk(ExecRedeem(db, invite, user))
  {
    RedeemMoves(db, invite, user);
    RedeemKeeps(db, invite, user);
    var users' := ExecRedeem(db, invite, user).users;
    TokensGrow(db.users.Keys, users'.Keys, db.tokens, db.births);
    hide UsersOk, TokensOk, InvitesOk, ExecRedeem;
    TablesFrom(ExecRedeem(db, invite, user));
  }

  lemma PolicyStmtKeeps(db: Tables, st: Stmt)
    requires TablesOk(db) && (st.SetPolicyRow? || st.DeletePolicy?)
    ensures TablesOk(Exec(db, st))
  {
    var db' := Exec(db, st);
    assert st.DeletePolicy? ==> db'.policies.Keys == db.policies.Keys;
    assert |db'.policies| <= 1 by {
      if st.DeletePolicy? {
        assert |db'.policies.Keys| == |db.policies.Keys|;
      }
    }
    hide UsersOk, TokensOk, InvitesOk;
    TablesFrom(db');
  }

  // Every statement keeps every invariant of the tables.
  lemma ExecKeepsTables(db: Tables, st: Stmt)
    requires TablesOk(db) && Issued(db, st)
    ensures TablesOk(Exec(db, st))
  {
    hide UsersOk, TokensOk, InvitesOk, Issued, ExecUser, ExecToken, ExecInvite, ExecRedeem;
    if OnUsers(st) {
      UserStmtKeepsTables(db, st);
    } else if OnTokens(st) {
      TokenStmtKeeps(db, st);
    } else if st.RedeemInvite? {
      RedeemKeepsTables(db, st.invite, st.user);
    } else if st.SetPolicyRow? || st.DeletePolicy? {
      PolicyStmtKeeps(db, st);
    } else {
      InviteStmtKeeps(db, st);
    }
  }
}
