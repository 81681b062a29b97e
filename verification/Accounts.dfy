// No one-time edge goes unaudited: its row is in the trail, or the request
// that performed it is still about to write it, or a crash took that request.
module Accounts {
  import opened Prelude
  import opened Links
  import opened Schema
  import opened Verify
  import opened Protocol
  import opened Edges
  import Runs

  // A token nobody was rotated into: it came from a mint.
  predicate Root(db: Tables, t: Uuid) {
    t in db.tokens && forall p :: p in db.tokens ==> db.tokens[p].rotatedTo != Some(t)
  }

  // The edges that owe the trail a row. Sweeps, and revocations by an
  // officer, are audited by count or not at all.
  predicate Owes(db: Tables, k: Edge) {
    match k
    case TokenMinted(t) => Root(db, t)
    case TokenRotatedOut(_) => Performed(db, k)
    case InviteIssued(_) => Performed(db, k)
    case InviteUsed(_) => Performed(db, k)
    case UserLinked(_) => Performed(db, k)
    case _ => false
  }

  predicate Recorded(trail: seq<AuditRow>, k: Edge) {
    exists i :: 0 <= i < |trail| && EdgeOf(trail[i]) == Some(k)
  }

  predicate AccountedFor(s: State, k: Edge) {
    Recorded(s.db.trail, k) || exists q :: q in s.reqs && Holds(s.reqs[q]) == Some(k)
  }

  ghost predicate AllAccounted(s: State) { forall k :: Owes(s.db, k) ==> AccountedFor(s, k) }

  // A step takes on every edge it performs, and gives up an edge only by
  // writing its row.
  ghost predicate StepAccounts(db: Tables, r: Req, m: Move) {
    && (forall k :: Owes(Exec(db, m.stmt), k) ==> Owes(db, k) || Holds(m.next) == Some(k))
    && (Holds(r).Some? ==> Holds(m.next) == Holds(r) || (r.Audit? && EdgeOf(r.row) == Holds(r)))
  }

  // Statements on other tables, and changes that add no edge.
  lemma SameEdges(a: Tables, b: Tables)
    requires TokensOk(a.users.Keys, a.tokens, a.births)
    requires a.tokens.Keys == b.tokens.Keys && TokensMove(a.tokens, b.tokens)
    requires forall t :: t in b.tokens && b.tokens[t].status == TokenRotated ==> a.tokens[t].status == TokenRotated
    requires a.invites.Keys == b.invites.Keys
    requires forall i :: i in b.invites && b.invites[i].status == InviteRedeemed ==>
                         a.invites[i].status == InviteRedeemed
    requires forall u :: u in b.users && b.users[u].sapiens.Some? ==> u in a.users && a.users[u].sapiens.Some?
    ensures forall k :: Owes(b, k) ==> Owes(a, k)
  {
    forall k | Owes(b, k) ensures Owes(a, k) {
      if k.TokenMinted? {
        forall p | p in a.tokens ensures a.tokens[p].rotatedTo != Some(k.id) {
          assert TokenRowOk(a.users.Keys, a.tokens, a.births, a.tokens[p]);
        }
      }
    }
  }

  // What one statement owes beyond what was owed before.
  ghost predicate OwesOnly(db: Tables, st: Stmt, more: Option<Edge>) {
    forall k :: Owes(Exec(db, st), k) ==> Owes(db, k) || more == Some(k)
  }

  lemma RevokingOwesNothing(db: Tables, rows: set<Uuid>)
    requires TokensOk(db.users.Keys, db.tokens, db.births)
    ensures OwesOnly(db, RevokeTokens(rows), None)
  {
    var db' := Exec(db, RevokeTokens(rows));
    assert db' == db.(tokens := TokensRevoked(db.tokens, rows));
    assert TokensMove(db.tokens, db'.tokens);
    hide Owes, TokensOk;
    SameEdges(db, db');
  }

  lemma RetiringOwesNothing(db: Tables, rows: set<Uuid>, to: InviteStatus)
    requires TokensOk(db.users.Keys, db.tokens, db.births) && (to == InviteRevoked || to == InviteExpired)
    ensures OwesOnly(db, RetireInvites(rows, to), None)
  {
    var db' := Exec(db, RetireInvites(rows, to));
    assert db' == db.(invites := InvitesRetired(db.invites, rows, to));
    hide Owes, TokensOk;
    SameEdges(db, db');
  }

  lemma RotatingOwesItself(db: Tables, prior: Uuid, id: Uuid, user: Uuid, nonce: string, expires: Time)
    requires TokensOk(db.users.Keys, db.tokens, db.births)
    ensures OwesOnly(db, RotateToken(prior, id, user, nonce, expires), Some(TokenRotatedOut(prior)))
  {
    var db' := Exec(db, RotateToken(prior, id, user, nonce, expires));
    forall k | Owes(db', k) ensures Owes(db, k) || k == TokenRotatedOut(prior) {
      if k.TokenMinted? && CanRotate(db, prior, id, user, nonce) {
        assert db'.tokens[prior].rotatedTo == Some(id);
        forall p | p in db.tokens ensures db.tokens[p].rotatedTo != Some(k.id) {
          assert TokenRowOk(db.users.Keys, db.tokens, db.births, db.tokens[p]);
          assert db'.tokens[p].rotatedTo != Some(k.id);
        }
      }
    }
  }

  // The stamp reaches the one live principal of that email, and it alone.
  lemma StampIsOne(db: Tables, email: string, sapiens: Uuid, pick: Uuid, u: Uuid)
    requires UsersOk(db.users) && Unlinked(db, pick, email)
    requires u in db.users && UsersStamped(db.users, email, sapiens)[u].sapiens.Some?
    ensures u == pick || db.users[u].sapiens.Some?
  {
    if db.users[u].sapiens.None? {
      assert LiveRow(db.users, u) && LiveRow(db.users, pick);
    }
  }

  lemma StampingOwes(db: Tables, email: string, sapiens: Uuid, pick: Uuid)
    requires UsersOk(db.users) && Unlinked(db, pick, email)
    ensures OwesOnly(db, StampUsers(email, sapiens), Some(UserLinked(pick)))
  {
    var db' := Exec(db, StampUsers(email, sapiens));
    forall k | Owes(db', k) ensures Owes(db, k) || k == UserLinked(pick) {
      if k.UserLinked? {
        StampIsOne(db, email, sapiens, pick, k.id);
      }
    }
  }

  lemma StampingNobodyOwesNothing(db: Tables, email: string, sapiens: Uuid)
    requires forall u :: u in db.users ==> !Unlinked(db, u, email)
    ensures OwesOnly(db, StampUsers(email, sapiens), None)
  {
    assert UsersStamped(db.users, email, sapiens) == db.users;
  }

  lemma RotationAccounts(e: Engine, db: Tables, r: Req, c: Choice)
    requires r.RotateTx? && TokensOk(db.users.Keys, db.tokens, db.births)
    ensures StepAccounts(db, r, TokenMove(e, db, r, c))
  {
    hide Owes, TokensOk, Exec;
    RotatingOwesItself(db, r.token, c.id, r.user, c.nonce, Expiry(c.now, r.ttl));
    assert Exec(db, Nothing) == db by { NothingDone(db); }
  }

  lemma NothingDone(db: Tables)
    ensures Exec(db, Nothing) == db
  {
  }

  lemma MintAccounts(e: Engine, db: Tables, r: Req, c: Choice)
    requires r.MintInsert?
    ensures StepAccounts(db, r, TokenMove(e, db, r, c))
  {
    var m := TokenMove(e, db, r, c);
    var db' := Exec(db, m.stmt);
    forall k | Owes(db', k) ensures Owes(db, k) || Holds(m.next) == Some(k) {
      if k.TokenMinted? && k.id != c.id {
        forall p | p in db.tokens ensures db.tokens[p].rotatedTo != Some(k.id) {
          assert db'.tokens[p] == db.tokens[p];
        }
      }
    }
  }

  lemma RevocationsAccount(e: Engine, db: Tables, r: Req, c: Choice)
    requires r.RevokeOne? || r.SweepTokensRows?
    requires TokensOk(db.users.Keys, db.tokens, db.births)
    ensures StepAccounts(db, r, TokenMove(e, db, r, c))
  {
    assert Holds(r).Some? ==> Holds(TokenMove(e, db, r, c).next) == Holds(r);
    hide Owes, TokensOk, Exec, Holds, EdgeOf;
    NothingDone(db);
    RevokingOwesNothing(db, if r.RevokeOne? then {r.token} else r.rows);
  }

  lemma TokenReadsAccount(e: Engine, db: Tables, r: Req, c: Choice)
    requires r.BearerRow? || r.BearerStatus? || r.SweepTokens?
    ensures StepAccounts(db, r, TokenMove(e, db, r, c))
  {
  }

  lemma InviteIssueAccounts(e: Engine, db: Tables, r: Req, c: Choice)
    requires r.MintInvite?
    ensures StepAccounts(db, r, InviteMove(e, db, r, c))
  {
  }

  lemma RedeemingOwesItself(db: Tables, invite: Uuid, user: Uuid)
    ensures OwesOnly(db, RedeemInvite(invite, user), Some(InviteUsed(invite)))
  {
    assert Exec(db, RedeemInvite(invite, user)) == ExecRedeem(db, invite, user);
    hide Exec;
  }

  lemma RedeemRowAccounts(e: Engine, db: Tables, r: Req, c: Choice)
    requires r.RedeemRow?
    ensures StepAccounts(db, r, InviteMove(e, db, r, c))
  {
    NothingDone(db);
    hide Owes, Exec, Redeemable;
  }

  lemma RedemptionAccounts(e: Engine, db: Tables, r: Req, c: Choice)
    requires r.RedeemTx?
    ensures StepAccounts(db, r, InviteMove(e, db, r, c))
  {
    hide Owes, Exec, CanRedeem;
    NothingDone(db);
    RedeemingOwesItself(db, r.invite, c.id);
  }

  lemma InviteCutsAccount(e: Engine, db: Tables, r: Req, c: Choice)
    requires r.RevokeInviteOne? || r.SweepInvites? || r.SweepInvitesRows? || r.SweepExpired? || r.SweepExpiredRows?
    requires TokensOk(db.users.Keys, db.tokens, db.births)
    ensures StepAccounts(db, r, InviteMove(e, db, r, c))
  {
    hide Owes, TokensOk, Exec;
    NothingDone(db);
    RetiringOwesNothing(
      db, if r.RevokeInviteOne? then {r.invite} else if r.SweepInvitesRows? || r.SweepExpiredRows? then r.rows else {},
      if r.SweepExpiredRows? then InviteExpired else InviteRevoked);
  }

  // Statements of the access and policy verbs add no edge.
  lemma AccessOwesNothing(db: Tables, st: Stmt)
    requires st.Nothing? || st.InsertUser? || st.RevokeUser? || st.SetPolicyRow?
    requires TokensOk(db.users.Keys, db.tokens, db.births)
    ensures OwesOnly(db, st, None)
  {
    hide TokensOk, Owes;
    var db' := Exec(db, st);
    assert db'.tokens == db.tokens && db'.invites == db.invites;
    SameEdges(db, db');
  }

  lemma AccessHoldsNothing(db: Tables, r: Req, c: Choice, clock: nat)
    requires !IsTokenReq(r) && !IsInviteReq(r) && !IsLifecycleReq(r)
    ensures Holds(r) == None
  {
  }

  lemma AccessAccounts(db: Tables, r: Req, c: Choice, clock: nat)
    requires !IsTokenReq(r) && !IsInviteReq(r) && !IsLifecycleReq(r)
    requires TokensOk(db.users.Keys, db.tokens, db.births)
    ensures StepAccounts(db, r, AccessMove(db, r, c, clock))
  {
    AccessOwesNothing(db, AccessMove(db, r, c, clock).stmt);
    AccessHoldsNothing(db, r, c, clock);
    hide Owes, Exec, Holds, TokensOk, AccessMove;
  }

  lemma LinkAccounts(db: Tables, r: Req, c: Choice)
    requires r.Created? && UsersOk(db.users)
    ensures StepAccounts(db, r, LifecycleMove(db, r, c))
  {
    hide Owes, UsersOk, Exec;
    NothingDone(db);
    if Unlinked(db, c.pick, r.email) {
      StampingOwes(db, r.email, r.sapiens, c.pick);
    } else if forall u :: u in db.users ==> !Unlinked(db, u, r.email) {
      StampingNobodyOwesNothing(db, r.email, r.sapiens);
    }
  }

  lemma RecordAccounts(db: Tables, r: Req, c: Choice)
    requires r.Audit? || r.Gone? || r.Done? || r.Dead?
    ensures StepAccounts(db, r, LifecycleMove(db, r, c))
  {
  }

  lemma MoveAccounts(e: Engine, db: Tables, r: Req, c: Choice, clock: nat)
    requires TablesOk(db)
    ensures StepAccounts(db, r, MoveOf(e, db, r, c, clock))
  {
    hide StepAccounts, TokenMove, InviteMove, AccessMove, LifecycleMove;
    if r.RotateTx? {
      RotationAccounts(e, db, r, c);
    } else if r.MintInsert? {
      MintAccounts(e, db, r, c);
    } else if r.RevokeOne? || r.SweepTokensRows? {
      RevocationsAccount(e, db, r, c);
    } else if IsTokenReq(r) {
      TokenReadsAccount(e, db, r, c);
    } else if r.MintInvite? {
      InviteIssueAccounts(e, db, r, c);
    } else if r.RedeemRow? {
      RedeemRowAccounts(e, db, r, c);
    } else if r.RedeemTx? {
      RedemptionAccounts(e, db, r, c);
    } else if IsInviteReq(r) {
      InviteCutsAccount(e, db, r, c);
    } else if r.Created? {
      LinkAccounts(db, r, c);
    } else if IsLifecycleReq(r) {
      RecordAccounts(db, r, c);
    } else {
      AccessAccounts(db, r, c, clock);
    }
  }

  lemma RecordedStays(a: seq<AuditRow>, b: seq<AuditRow>, k: Edge)
    requires a <= b && Recorded(a, k)
    ensures Recorded(b, k)
  {
    var i :| 0 <= i < |a| && EdgeOf(a[i]) == Some(k);
    assert b[i] == a[i];
  }

  // An edge already accounted for stays so over a step of request q.
  lemma StillAccounted(s: State, q: nat, m: Move, s': State, k: Edge)
    requires q in s.reqs && AccountedFor(s, k) && StepAccounts(s.db, s.reqs[q], m)
    requires s'.reqs == s.reqs[q := m.next] && s.db.trail <= s'.db.trail
    requires s.reqs[q].Audit? ==> s'.db.trail == s.db.trail + [s.reqs[q].row]
    ensures AccountedFor(s', k)
  {
    hide Holds, EdgeOf, Owes;
    if Recorded(s.db.trail, k) {
      RecordedStays(s.db.trail, s'.db.trail, k);
    } else {
      var x :| x in s.reqs && Holds(s.reqs[x]) == Some(k);
      if x == q && Holds(m.next) != Some(k) {
        assert s'.db.trail[|s.db.trail|] == s.reqs[q].row;
        assert Recorded(s'.db.trail, k);
      } else {
        assert x in s'.reqs && Holds(s'.reqs[x]) == Some(k);
      }
    }
  }

  lemma StepKeepsAccounts(e: Engine, s: State, q: nat, c: Choice, clock: nat)
    requires Inv(s) && AllAccounted(s) && q in s.reqs
    ensures AllAccounted(Apply(e, s, Step(q, c), clock))
  {
    var m := MoveOf(e, s.db, s.reqs[q], c, clock);
    var s' := Apply(e, s, Step(q, c), clock);
    MoveOk(e, s.db, s.reqs[q], c, clock);
    MoveAccounts(e, s.db, s.reqs[q], c, clock);
    ExecEvolves(s.db, m.stmt);
    if s.reqs[q].Audit? {
      AuditMove(e, s.db, s.reqs[q], c, clock);
      assert s'.db.trail == s.db.trail + [s.reqs[q].row];
    }
    assert s.db.trail <= s'.db.trail;
    hide MoveOf, Owes, Holds, Exec, EdgeOf, Evolves, Inv, Recorded;
    forall k | Owes(s'.db, k) ensures AccountedFor(s', k) {
      if Holds(m.next) == Some(k) {
        assert q in s'.reqs && s'.reqs[q] == m.next;
      } else {
        assert Owes(s.db, k);
        StillAccounted(s, q, m, s', k);
      }
    }
  }

  lemma OfficersMoveRows(db: Tables, st: Stmt)
    requires ByOfficer(st)
    ensures var db' := Exec(db, st);
            && TokensMove(db.tokens, db'.tokens) && db.tokens.Keys == db'.tokens.Keys
            && (forall t :: t in db.tokens ==> db'.tokens[t].status == db.tokens[t].status)
            && db.invites.Keys == db'.invites.Keys
            && (forall i :: i in db.invites ==> db'.invites[i].status == db.invites[i].status)
            && db.users.Keys == db'.users.Keys
            && (forall u :: u in db.users ==> db'.users[u].sapiens == db.users[u].sapiens)
            && db'.trail == db.trail
  {
  }

  lemma OfficersOweNothing(db: Tables, st: Stmt)
    requires ByOfficer(st) && TokensOk(db.users.Keys, db.tokens, db.births)
    ensures forall k :: Owes(Exec(db, st), k) ==> Owes(db, k)
    ensures Exec(db, st).trail == db.trail
  {
    hide Owes, TokensOk;
    OfficersMoveRows(db, st);
    SameEdges(db, Exec(db, st));
  }

  lemma CrashKeepsAccounts(e: Engine, s: State, q: nat, clock: nat)
    requires AllAccounted(s)
    ensures AllAccounted(Apply(e, s, Crash(q), clock))
  {
    var s' := Apply(e, s, Crash(q), clock);
    if q in s.reqs {
      assert Holds(Dead(s.reqs[q])) == Holds(s.reqs[q]);
    }
    hide Owes, Holds, Recorded;
    forall k | Owes(s'.db, k) ensures AccountedFor(s', k) {
      assert AccountedFor(s, k);
      if !Recorded(s.db.trail, k) {
        var x :| x in s.reqs && Holds(s.reqs[x]) == Some(k);
        assert x in s'.reqs && Holds(s'.reqs[x]) == Some(k);
      }
    }
  }

  lemma BeginKeepsAccounts(e: Engine, s: State, q: nat, call: Call, clock: nat)
    requires AllAccounted(s)
    ensures AllAccounted(Apply(e, s, Begin(q, call), clock))
  {
    var s' := Apply(e, s, Begin(q, call), clock);
    hide Owes, Holds, Recorded, Enter;
    forall k | Owes(s'.db, k) ensures AccountedFor(s', k) {
      assert AccountedFor(s, k);
      if !Recorded(s.db.trail, k) {
        var x :| x in s.reqs && Holds(s.reqs[x]) == Some(k);
        assert x in s'.reqs && Holds(s'.reqs[x]) == Some(k);
      }
    }
  }

  lemma ApplyKeepsAccounts(e: Engine, s: State, a: Act, clock: nat)
    requires Inv(s) && AllAccounted(s)
    ensures AllAccounted(Apply(e, s, a, clock))
  {
    assert TokensOk(s.db.users.Keys, s.db.tokens, s.db.births);
    hide Inv, MoveOf, Exec, Enter, Owes, Holds, Recorded, TokensOk;
    match a
    case Begin(q, call) => BeginKeepsAccounts(e, s, q, call, clock);
    case Step(q, c) =>
      if q in s.reqs {
        StepKeepsAccounts(e, s, q, c, clock);
      }
    case Crash(q) => CrashKeepsAccounts(e, s, q, clock);
    case Officer(stmt) =>
      if ByOfficer(stmt) {
        OfficersOweNothing(s.db, stmt);
      }
  }

  lemma NothingOwedAtFirst()
    ensures AllAccounted(INITIAL)
  {
  }

  // After every number of acts of every run: each mint, rotation,
  // redemption, invitation and account link has its audit row, or the
  // request that performed it still holds it, running or crashed.
  lemma EveryEdgeAccounted(e: Engine, acts: seq<Act>, n: nat, k: Edge)
    requires n <= |acts| && Owes(After(e, acts, n).db, k)
    ensures Recorded(After(e, acts, n).db.trail, k)
            || exists q :: q in After(e, acts, n).reqs && Holds(After(e, acts, n).reqs[q]) == Some(k)
  {
    var inv := (k: nat, s: State) => Inv(s) && AllAccounted(s);
    InitialInv();
    NothingOwedAtFirst();
    hide Inv, AllAccounted, Apply;
    forall k: nat, s | k < |acts| && inv(k, s) ensures inv(k + 1, StepOf(e)(s, acts[k], k)) {
      ApplyKeepsInv(e, s, acts[k], k);
      ApplyKeepsAccounts(e, s, acts[k], k);
    }
    Runs.Always(INITIAL, StepOf(e), acts, n, inv);
    Accounted(After(e, acts, n), k);
  }

  lemma Accounted(s: State, k: Edge)
    requires AllAccounted(s) && Owes(s.db, k)
    ensures AccountedFor(s, k)
  {
  }
}
