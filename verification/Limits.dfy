// Where a promise of the verbs stops, and exactly when it is kept.
module Limits {
  import opened Prelude
  import opened Text
  import opened Links
  import opened Schema
  import opened Verify
  import opened Protocol
  import opened Rows
  import opened Safety

  // ----- the sweeps -------------------------------------------------------

  // A sweep leaves exactly the bearers and invitations that came in after it
  // took its rows; so it leaves none if and only if none came in.
  lemma SweepsLeaveLatecomers(db: Tables, user: Uuid, email: string, rows: set<Uuid>)
    ensures ActiveTokensOf(Exec(db, RevokeTokens(rows)), user) == ActiveTokensOf(db, user) - rows
    ensures ActiveTokensOf(Exec(db, RevokeTokens(rows)), user) == {} <==> ActiveTokensOf(db, user) <= rows
    ensures PendingFor(Exec(db, RetireInvites(rows, InviteRevoked)), email) == PendingFor(db, email) - rows
    ensures PendingFor(Exec(db, RetireInvites(rows, InviteRevoked)), email) == {} <==> PendingFor(db, email) <= rows
  {
    TokenLatecomers(db, user, rows);
    InviteLatecomers(db, email, rows);
    NothingOver(ActiveTokensOf(db, user), rows);
    NothingOver(PendingFor(db, email), rows);
    hide Exec, ActiveTokensOf, PendingFor;
  }

  lemma NothingOver(a: set<Uuid>, b: set<Uuid>)
    ensures a - b == {} <==> a <= b
  {
    if a - b == {} {
      forall x | x in a ensures x in b {
        assert x !in a - b;
      }
    }
  }

  lemma TokenLatecomers(db: Tables, user: Uuid, rows: set<Uuid>)
    ensures ActiveTokensOf(Exec(db, RevokeTokens(rows)), user) == ActiveTokensOf(db, user) - rows
  {
    var db' := Exec(db, RevokeTokens(rows));
    assert db' == db.(tokens := TokensRevoked(db.tokens, rows));
    hide Exec;
    assert forall t :: IsActiveToken(db', t) <==> IsActiveToken(db, t) && t !in rows;
  }

  lemma InviteLatecomers(db: Tables, email: string, rows: set<Uuid>)
    ensures PendingFor(Exec(db, RetireInvites(rows, InviteRevoked)), email) == PendingFor(db, email) - rows
  {
    var db' := Exec(db, RetireInvites(rows, InviteRevoked));
    assert db' == db.(invites := InvitesRetired(db.invites, rows, InviteRevoked));
    hide Exec;
    assert forall i :: IsPending(db', i) <==> IsPending(db, i) && i !in rows;
  }

  // A mint still in flight when its principal is revoked does store an
  // active bearer; its link is refused all the same.
  lemma LateMint(e: Engine, db: Tables, user: Uuid, ttl: int, via: Via, c: Choice, clock: nat)
    requires IsRevoked(db, user) && TablesOk(db) && e.bearerSecret != [] && InRange(Expiry(c.now, ttl))
    requires CanInsertToken(db, c.id, user, c.nonce)
    ensures var db' := Exec(db, MoveOf(e, db, MintInsert(user, ttl, via), c, clock).stmt);
            && c.id in ActiveTokensOf(db', user)
            && Refuses(e, db', LinkOf(e, db', c.id).value)
  {
    hide MoveOf, Exec, VerifyBearer, LinkOf, TablesOk, CanInsertToken, ActiveTokensOf, IsRevoked, InRange;
    NonceWellFormed(c.nonce);
    var st := InsertToken(c.id, user, c.nonce, Expiry(c.now, ttl));
    var db' := Exec(db, st);
    MintStatement(e, db, user, ttl, via, c, clock);
    MintStores(db, user, c, Expiry(c.now, ttl));
    ExecKeepsTables(db, st);
    DeadOwner(e, db', c.id, user);
  }

  lemma MintStatement(e: Engine, db: Tables, user: Uuid, ttl: int, via: Via, c: Choice, clock: nat)
    requires e.bearerSecret != [] && InRange(Expiry(c.now, ttl)) && CanInsertToken(db, c.id, user, c.nonce)
    ensures MoveOf(e, db, MintInsert(user, ttl, via), c, clock).stmt
            == InsertToken(c.id, user, c.nonce, Expiry(c.now, ttl))
  {
  }

  lemma MintStores(db: Tables, user: Uuid, c: Choice, expires: Time)
    requires IsRevoked(db, user) && CanInsertToken(db, c.id, user, c.nonce)
    ensures var db' := Exec(db, InsertToken(c.id, user, c.nonce, expires));
            && c.id in ActiveTokensOf(db', user) && c.id in db'.tokens && db'.tokens[c.id].user == user
            && IsRevoked(db', user)
  {
  }

  lemma DeadOwner(e: Engine, db: Tables, t: Uuid, user: Uuid)
    requires TablesOk(db) && e.bearerSecret != [] && t in db.tokens && db.tokens[t].user == user && IsRevoked(db, user)
    ensures Refuses(e, db, LinkOf(e, db, t).value)
  {
    StoredLink(e, db, t);
    hide VerifyBearer, LinkOf, TablesOk;
    forall now, u: Uuid ensures VerifyBearer(e, db, LinkOf(e, db, t).value, now) != Ok(u) {
      assert !GoodBearer(db, t, u, now);
    }
  }

  // ----- the revocation of access -----------------------------------------

  // Once a principal is revoked, no later call performs anything.
  lemma ReplayPerformsNothing(
      e: Engine, acts: seq<Act>, m: nat, n: nat, user: Uuid, lifecycle: bool, c: Choice, clock: nat)
    requires m <= n <= |acts| && IsRevoked(After(e, acts, m).db, user)
    ensures MoveOf(e, After(e, acts, n).db, RevokeAccess(user, lifecycle), c, clock) ==
            Stay(Done(if lifecycle then Finished else Access(user, false)))
  {
    RunEvolves(e, acts, m, n);
    var a, b := After(e, acts, m).db, After(e, acts, n).db;
    assert UserMoves(a.users[user], b.users[user]);
    hide After, Evolves;
  }

  lemma CutOnly(e: Engine, db: Tables, user: Uuid, c: Choice, clock: nat)
    requires CanRevokeUser(db, user)
    ensures var m := MoveOf(e, db, RevokeAccess(user, false), c, clock);
            && IsRevoked(Exec(db, m.stmt), user)
            && Exec(db, m.stmt).tokens == db.tokens && Exec(db, m.stmt).invites == db.invites
            && m.next.SweepTokens?
  {
  }

  lemma CutStep(e: Engine, s: State, q: nat, user: Uuid, c: Choice, clock: nat)
    requires q in s.reqs && s.reqs[q] == RevokeAccess(user, false) && CanRevokeUser(s.db, user)
    ensures var cut := Apply(e, s, Step(q, c), clock);
            && IsRevoked(cut.db, user) && cut.db.tokens == s.db.tokens && cut.db.invites == s.db.invites
            && q in cut.reqs && cut.reqs[q].SweepTokens?
  {
    CutOnly(e, s.db, user, c, clock);
    hide MoveOf, Exec, IsRevoked, CanRevokeUser;
  }

  // The three acts of a revocation that crashes after its first statement.
  lemma CutThenCrash(e: Engine, s: State, q: nat, user: Uuid, c: Choice, clock: nat)
    requires q !in s.reqs && CanRevokeUser(s.db, user)
    ensures var begun := Apply(e, s, Begin(q, CallRevokeAccess(user)), clock);
            var cut := Apply(e, begun, Step(q, c), clock + 1);
            var end := Apply(e, cut, Crash(q), clock + 2);
            && IsRevoked(end.db, user) && end.db.tokens == s.db.tokens && end.db.invites == s.db.invites
            && q in end.reqs && end.reqs[q].Dead?
  {
    assert Enter(CallRevokeAccess(user)) == RevokeAccess(user, false);
    hide MoveOf, Exec, IsRevoked, CanRevokeUser, Enter;
    CutStep(e, Apply(e, s, Begin(q, CallRevokeAccess(user)), clock), q, user, c, clock + 1);
  }

  // A crash after the first statement of `revoke_access`: from any reachable
  // state the principal is revoked, and every bearer and invitation that was
  // open still is.
  lemma CrashSkipsSweeps(e: Engine, acts: seq<Act>, q: nat, user: Uuid, c: Choice)
    requires q !in After(e, acts, |acts|).reqs && CanRevokeUser(After(e, acts, |acts|).db, user)
    ensures var a := After(e, acts, |acts|).db;
            var all := acts + [Begin(q, CallRevokeAccess(user))] + [Step(q, c)] + [Crash(q)];
            var s := After(e, all, |all|);
            && IsRevoked(s.db, user) && s.db.tokens == a.tokens && s.db.invites == a.invites
            && q in s.reqs && s.reqs[q].Dead?
  {
    hide After, Apply, IsRevoked, CanRevokeUser;
    var begun := acts + [Begin(q, CallRevokeAccess(user))];
    var cut := begun + [Step(q, c)];
    Extended(e, acts, Begin(q, CallRevokeAccess(user)));
    Extended(e, begun, Step(q, c));
    Extended(e, cut, Crash(q));
    CutThenCrash(e, After(e, acts, |acts|), q, user, c, |acts|);
    assert |begun| == |acts| + 1 && |cut| == |acts| + 2 && |cut + [Crash(q)]| == |acts| + 3;
  }

  // The acts that retire an active bearer, and those that retire a pending
  // invitation: never a step of `revoke_access` that has not found the row
  // itself.
  predicate RetiresToken(e: Engine, acts: seq<Act>, k: nat, t: Uuid) {
    && k < |acts| && acts[k].Step? && acts[k].request in After(e, acts, k).reqs
    && (match After(e, acts, k).reqs[acts[k].request]
        case RevokeOne(token) => token == t
        case RotateTx(token, _, _) => token == t
        case SweepTokensRows(_, rows, _) => t in rows
        case _ => false)
  }

  predicate RetiresInvite(e: Engine, acts: seq<Act>, k: nat, i: Uuid) {
    && k < |acts| && acts[k].Step? && acts[k].request in After(e, acts, k).reqs
    && (match After(e, acts, k).reqs[acts[k].request]
        case RevokeInviteOne(invite) => invite == i
        case RedeemTx(invite, _) => invite == i
        case SweepInvitesRows(_, rows, _) => i in rows
        case SweepExpiredRows(rows) => i in rows
        case _ => false)
  }

  lemma TokenRetiredBy(db: Tables, st: Stmt, t: Uuid)
    requires IsActiveToken(db, t) && !IsActiveToken(Exec(db, st), t)
    ensures (st.RevokeTokens? && t in st.rows) || (st.RotateToken? && st.prior == t)
  {
  }

  lemma InviteRetiredBy(db: Tables, st: Stmt, i: Uuid)
    requires IsPending(db, i) && !IsPending(Exec(db, st), i)
    ensures (st.RetireInvites? && i in st.rows) || (st.RedeemInvite? && st.invite == i)
  {
  }

  lemma TokenStepRetires(e: Engine, acts: seq<Act>, k: nat, t: Uuid)
    requires k < |acts| && acts[k].Step? && acts[k].request in After(e, acts, k).reqs
    requires var s := After(e, acts, k);
             var st := MoveOf(e, s.db, s.reqs[acts[k].request], acts[k].choice, k).stmt;
             (st.RevokeTokens? && t in st.rows) || (st.RotateToken? && st.prior == t)
    ensures RetiresToken(e, acts, k, t)
  {
    hide After, Exec, VerifyRow;
  }

  lemma InviteStepRetires(e: Engine, acts: seq<Act>, k: nat, i: Uuid)
    requires k < |acts| && acts[k].Step? && acts[k].request in After(e, acts, k).reqs
    requires var s := After(e, acts, k);
             var st := MoveOf(e, s.db, s.reqs[acts[k].request], acts[k].choice, k).stmt;
             (st.RetireInvites? && i in st.rows) || (st.RedeemInvite? && st.invite == i)
    ensures RetiresInvite(e, acts, k, i)
  {
    hide After, Exec, VerifyRow, Redeemable;
  }

  lemma ActRetires(e: Engine, acts: seq<Act>, k: nat, t: Uuid, i: Uuid)
    requires k < |acts|
    ensures IsActiveToken(After(e, acts, k).db, t) && !IsActiveToken(After(e, acts, k + 1).db, t) ==>
              RetiresToken(e, acts, k, t)
    ensures IsPending(After(e, acts, k).db, i) && !IsPending(After(e, acts, k + 1).db, i) ==>
              RetiresInvite(e, acts, k, i)
  {
    OneMoreAct(e, acts, k);
    var s, a := After(e, acts, k), acts[k];
    hide After, MoveOf, Exec, IsActiveToken, IsPending, RetiresToken, RetiresInvite, Enter;
    if a.Step? && a.request in s.reqs {
      var st := MoveOf(e, s.db, s.reqs[a.request], a.choice, k).stmt;
      if IsActiveToken(s.db, t) && !IsActiveToken(Exec(s.db, st), t) {
        TokenRetiredBy(s.db, st, t);
        TokenStepRetires(e, acts, k, t);
      }
      if IsPending(s.db, i) && !IsPending(Exec(s.db, st), i) {
        InviteRetiredBy(s.db, st, i);
        InviteStepRetires(e, acts, k, i);
      }
    } else if a.Officer? && ByOfficer(a.stmt) {
      if IsActiveToken(s.db, t) && !IsActiveToken(Exec(s.db, a.stmt), t) {
        TokenRetiredBy(s.db, a.stmt, t);
      }
      if IsPending(s.db, i) && !IsPending(Exec(s.db, a.stmt), i) {
        InviteRetiredBy(s.db, a.stmt, i);
      }
    }
  }

  // What a skipped sweep left open stays open until a later act retires that
  // very row.
  lemma {:induction false} OpenUntilRetired(e: Engine, acts: seq<Act>, m: nat, n: nat, t: Uuid, i: Uuid)
    requires m <= n <= |acts|
    ensures IsActiveToken(After(e, acts, m).db, t) ==>
              IsActiveToken(After(e, acts, n).db, t) || exists k :: m <= k < n && RetiresToken(e, acts, k, t)
    ensures IsPending(After(e, acts, m).db, i) ==>
              IsPending(After(e, acts, n).db, i) || exists k :: m <= k < n && RetiresInvite(e, acts, k, i)
  {
    hide After, RetiresToken, RetiresInvite, IsActiveToken, IsPending;
    if m < n {
      OpenUntilRetired(e, acts, m, n - 1, t, i);
      ActRetires(e, acts, n - 1, t, i);
    }
  }

  // An account event cuts the one principal it happens to find. It reaches
  // every principal of the account if and only if no other was left to cut.
  lemma GoneReachesAll(db: Tables, sapiens: Uuid, user: Uuid)
    requires LinkedTo(db, user, sapiens)
    ensures var db' := Exec(db, RevokeUser(user));
            (forall v :: LinkedTo(db', v, sapiens) ==> IsRevoked(db', v)) <==>
            (forall v :: LinkedTo(db, v, sapiens) && v != user ==> IsRevoked(db, v))
  {
    var db' := Exec(db, RevokeUser(user));
    assert forall v :: LinkedTo(db', v, sapiens) <==> LinkedTo(db, v, sapiens);
    assert forall v :: v != user ==> (IsRevoked(db', v) <==> IsRevoked(db, v));
    assert IsRevoked(db', user);
  }

  // Two principals of one account: the account link is not unique, so two
  // `created` events for two addresses link them both.
  lemma TwoLinks(db: Tables, sapiens: Uuid, u: Uuid, v: Uuid)
    requires u in db.users && v in db.users && UsersOk(db.users)
    requires Unlinked(db, u, db.users[u].email) && Unlinked(db, v, db.users[v].email)
    requires u != v
    ensures var first := Exec(db, StampUsers(db.users[u].email, sapiens));
            var second := Exec(first, StampUsers(db.users[v].email, sapiens));
            LinkedTo(second, u, sapiens) && LinkedTo(second, v, sapiens)
  {
    hide NormalizeEmail;
    assert LiveRow(db.users, u) && LiveRow(db.users, v);
    var first := Exec(db, StampUsers(db.users[u].email, sapiens));
    var second := Exec(first, StampUsers(db.users[v].email, sapiens));
    assert first == db.(users := UsersStamped(db.users, db.users[u].email, sapiens));
    assert second == first.(users := UsersStamped(first.users, db.users[v].email, sapiens));
    hide Exec;
    assert first.users[v] == db.users[v];
  }

  // ----- addresses --------------------------------------------------------

  lemma TakenBlocks(e: Engine, db: Tables, u: Uuid, email: string, invite: Uuid, at: nat, c: Choice, clock: nat)
    requires LiveAt(db, u, email) && (invite in db.invites ==> db.invites[invite].email == email)
    ensures MoveOf(e, db, RedeemTx(invite, email), c, clock).stmt == Nothing
    ensures MoveOf(e, db, SignupInsert(email, at), c, clock).stmt == Nothing
  {
  }

  // A revoked principal still holds its address: as long as the row is not
  // soft-deleted, no redemption and no signup creates another one for it.
  lemma AddressStaysTaken(
      e: Engine, acts: seq<Act>, m: nat, n: nat, u: Uuid, invite: Uuid, at: nat, c: Choice, clock: nat)
    requires m <= n <= |acts| && u in After(e, acts, m).db.users && LiveUser(After(e, acts, n).db, u)
    requires invite in After(e, acts, n).db.invites ==>
               After(e, acts, n).db.invites[invite].email == After(e, acts, m).db.users[u].email
    ensures var email := After(e, acts, m).db.users[u].email;
            && MoveOf(e, After(e, acts, n).db, RedeemTx(invite, email), c, clock).stmt == Nothing
            && MoveOf(e, After(e, acts, n).db, SignupInsert(email, at), c, clock).stmt == Nothing
  {
    RunEvolves(e, acts, m, n);
    var a, b := After(e, acts, m).db, After(e, acts, n).db;
    assert UserMoves(a.users[u], b.users[u]);
    hide After, Evolves, MoveOf;
    TakenBlocks(e, b, u, a.users[u].email, invite, at, c, clock);
  }

  // The redemption and the signup insert go through exactly where no live row
  // is left at the address, deleted ones notwithstanding.
  lemma FreeAdmits(e: Engine, db: Tables, invite: Uuid, email: string, at: nat, c: Choice, clock: nat)
    requires invite in db.invites ==> db.invites[invite].email == email
    ensures MoveOf(e, db, RedeemTx(invite, email), c, clock).stmt == RedeemInvite(invite, c.id) <==>
            OpenInvite(db, invite) && NewUser(db, c.id, email)
    ensures MoveOf(e, db, SignupInsert(email, at), c, clock).stmt == InsertUser(c.id, email) <==>
            |email| <= 320 && NewUser(db, c.id, email)
  {
    NewUserIff(db, c.id, email);
    hide CanInsertUser, NewUser;
  }

  lemma HolderDeleted(db: Tables, u: Uuid)
    requires TablesOk(db) && u in db.users && !db.users[u].deleted
    ensures var db' := Exec(db, DeleteUser(u));
            && db'.invites == db.invites && db'.users.Keys == db.users.Keys
            && forall v :: v in db'.users && db'.users[v].email == db.users[u].email ==> db'.users[v].deleted
  {
    hide NormalizeEmail, TokensOk, InvitesOk;
    var db' := Exec(db, DeleteUser(u));
    assert db' == db.(users := db.users[u := db.users[u].(deleted := true)]);
    assert LiveRow(db.users, u);
    forall v | v in db'.users && db'.users[v].email == db.users[u].email ensures db'.users[v].deleted {
      assert v == u || !LiveRow(db.users, v);
    }
  }

  lemma FreedByDeletion(e: Engine, a: Tables, u: Uuid, invite: Uuid, at: nat, c: Choice, clock: nat)
    requires TablesOk(a) && u in a.users && !a.users[u].deleted && c.id !in a.users
    requires OpenInvite(a, invite) && a.invites[invite].email == a.users[u].email
    ensures var email := a.users[u].email;
            var db := Exec(a, DeleteUser(u));
            && db.invites == a.invites && NewUser(db, c.id, email)
            && MoveOf(e, db, RedeemTx(invite, email), c, clock).stmt == RedeemInvite(invite, c.id)
            && (|email| <= 320 ==> MoveOf(e, db, SignupInsert(email, at), c, clock).stmt == InsertUser(c.id, email))
  {
    HolderDeleted(a, u);
    hide MoveOf, Exec, TablesOk;
    FreeAdmits(e, Exec(a, DeleteUser(u)), invite, a.users[u].email, at, c, clock);
  }

  // The address is free again once an officer deletes its holder: from every
  // reachable state the redemption of a pending invitation for it, with a new
  // id, then creates the principal it was refused before; and so does the
  // insert of a signup.
  lemma DeletionFreesAddress(
      e: Engine, acts: seq<Act>, u: Uuid, invite: Uuid, at: nat, c: Choice, clock: nat)
    requires var db := After(e, acts, |acts|).db;
             && u in db.users && !db.users[u].deleted && c.id !in db.users
             && OpenInvite(db, invite) && db.invites[invite].email == db.users[u].email
    ensures var email := After(e, acts, |acts|).db.users[u].email;
            var db := After(e, acts + [Officer(DeleteUser(u))], |acts| + 1).db;
            && MoveOf(e, db, RedeemTx(invite, email), c, clock).stmt == RedeemInvite(invite, c.id)
            && (var redeemed := Exec(db, RedeemInvite(invite, c.id));
                && redeemed.users == db.users[c.id := User(email, Active, false, None)]
                && redeemed.invites ==
                   db.invites[invite := db.invites[invite].(status := InviteRedeemed, redeemedBy := Some(c.id))])
            && (|email| <= 320 ==> MoveOf(e, db, SignupInsert(email, at), c, clock).stmt == InsertUser(c.id, email))
  {
    hide After, MoveOf, Exec, TablesOk, NewUser;
    Extended(e, acts, Officer(DeleteUser(u)));
    RunTables(e, acts, |acts|);
    var a := After(e, acts, |acts|).db;
    FreedByDeletion(e, a, u, invite, at, c, clock);
    RedeemedRows(Exec(a, DeleteUser(u)), invite, c.id);
  }

  lemma RunTables(e: Engine, acts: seq<Act>, n: nat)
    requires n <= |acts|
    ensures TablesOk(After(e, acts, n).db)
  {
    RunInv(e, acts, n);
    hide After, TablesOk, ReqsOk;
  }

  lemma RedeemedRows(db: Tables, invite: Uuid, user: Uuid)
    requires OpenInvite(db, invite) && NewUser(db, user, db.invites[invite].email)
    ensures var redeemed := Exec(db, RedeemInvite(invite, user));
            && redeemed.users == db.users[user := User(db.invites[invite].email, Active, false, None)]
            && redeemed.invites ==
               db.invites[invite := db.invites[invite].(status := InviteRedeemed, redeemedBy := Some(user))]
  {
    NewUserIff(db, user, db.invites[invite].email);
  }
}
