// The database as the services see it: the statements they issue, each one
// atomic, and what other sessions may commit in between.
module Database {
  import opened Prelude
  import opened Text
  import opened Links
  import opened Schema

  // How a transaction of several statements ended. Dropped without a commit,
  // it leaves no trace.
  datatype Commit = Committed | NoRow | Violated

  // What may have happened between two statements of one session: anything
  // the other sessions are able to do, or nothing where there are none.
  predicate Passes(shared: bool, a: Tables, b: Tables) {
    Evolves(a, b) && TablesOk(b) && (!shared ==> a == b)
  }

  // The rotation transaction, one write after the other.
  lemma RotationInTwo(db: Tables, prior: Uuid, id: Uuid, user: Uuid, nonce: string, expires: Time)
    requires IsActiveToken(db, prior)
    ensures var flipped := Rotated(db, prior, id);
            && CanInsertToken(flipped, id, user, nonce) == CanInsertToken(db, id, user, nonce)
            && Exec(db, Schema.RotateToken(prior, id, user, nonce, expires)) ==
               if CanInsertToken(db, id, user, nonce) then WithToken(flipped, id, user, nonce, expires) else db
  {
    var flipped := Rotated(db, prior, id);
    assert forall t :: t in flipped.tokens ==> flipped.tokens[t].nonce == db.tokens[t].nonce;
    if CanInsertToken(flipped, id, user, nonce) {
      forall t | t in db.tokens ensures db.tokens[t].nonce != nonce {
        assert flipped.tokens[t].nonce != nonce;
      }
    }
  }

  lemma NoRotation(db: Tables, prior: Uuid, id: Uuid, user: Uuid, nonce: string, expires: Time)
    requires !CanRotate(db, prior, id, user, nonce)
    ensures Exec(db, Schema.RotateToken(prior, id, user, nonce, expires)) == db
  {
  }

  function ActiveAmong(db: Tables, rows: set<Uuid>): set<Uuid> {
    set t | t in rows && IsActiveToken(db, t)
  }

  function PendingAmong(db: Tables, rows: set<Uuid>): set<Uuid> {
    set i | i in rows && IsPending(db, i)
  }

  class Database {
    var users: map<Uuid, User>
    var tokens: map<Uuid, Token>
    var invites: map<Uuid, Invite>
    var policies: map<Uuid, Policy>
    var trail: seq<AuditRow>
    var births: nat
    const shared: bool

    function Snapshot(): Tables
      reads this
    {
      Tables(users, tokens, invites, policies, trail, births)
    }

    ghost predicate Valid()
      reads this
    {
      TablesOk(Snapshot())
    }

    constructor (shared: bool)
      ensures Valid() && Snapshot() == EMPTY && this.shared == shared
    {
      users, tokens, invites, policies, trail, births := map[], map[], map[], map[], [], 0;
      this.shared := shared;
    }

    // The other sessions run.
    method Others()
      requires Valid()
      modifies this
      ensures Valid() && Passes(shared, old(Snapshot()), Snapshot())
    {
      EvolvesRefl(Snapshot());
      var t: Tables := *;
      if shared && TablesOk(t) && Evolves(Snapshot(), t) {
        users, tokens, invites, policies, trail, births :=
          t.users, t.tokens, t.invites, t.policies, t.trail, t.births;
      }
    }

    // ----- tokens ---------------------------------------------------------

    method InsertToken(id: Uuid, user: Uuid, nonce: string, expires: Time) returns (inserted: bool)
      requires Valid() && WellFormedNonce(nonce) && InRange(expires)
      modifies this
      ensures Valid() && Snapshot() == Exec(old(Snapshot()), Schema.InsertToken(id, user, nonce, expires))
      ensures inserted == CanInsertToken(old(Snapshot()), id, user, nonce)
    {
      hide TablesOk, UsersOk, TokensOk, InvitesOk, WellFormedNonce, NormalizeEmail, InRange;
      ExecKeepsTables(Snapshot(), Schema.InsertToken(id, user, nonce, expires));
      assert Exec(Snapshot(), Schema.InsertToken(id, user, nonce, expires))
          == if CanInsertToken(Snapshot(), id, user, nonce) then WithToken(Snapshot(), id, user, nonce, expires)
             else Snapshot();
      hide Exec, CanInsertToken;
      inserted := CanInsertToken(Snapshot(), id, user, nonce);
      if inserted {
        tokens := tokens[id := FreshToken(Snapshot(), user, nonce, expires)];
        births := births + 1;
      }
    }

    // The rotation transaction: the prior row is flipped first, and a failed
    // insert rolls the flip back.
    method RotateToken(prior: Uuid, id: Uuid, user: Uuid, nonce: string, expires: Time) returns (done: Commit)
      requires Valid() && WellFormedNonce(nonce) && InRange(expires)
      requires prior in tokens && tokens[prior].user == user
      modifies this
      ensures Valid() && Snapshot() == Exec(old(Snapshot()), Schema.RotateToken(prior, id, user, nonce, expires))
      ensures done == if !IsActiveToken(old(Snapshot()), prior) then NoRow
                      else if CanInsertToken(old(Snapshot()), id, user, nonce) then Committed else Violated
    {
      hide TablesOk, UsersOk, TokensOk, InvitesOk, WellFormedNonce, NormalizeEmail, InRange;
      ExecKeepsTables(Snapshot(), Schema.RotateToken(prior, id, user, nonce, expires));
      if IsActiveToken(Snapshot(), prior) {
        RotationInTwo(Snapshot(), prior, id, user, nonce, expires);
      } else {
        NoRotation(Snapshot(), prior, id, user, nonce, expires);
      }
      hide Exec, CanInsertToken, FreshToken;
      var saved := tokens;
      if tokens[prior].status != TokenActive {
        return NoRow;
      }
      tokens := tokens[prior := tokens[prior].(status := TokenRotated, rotatedTo := Some(id))];
      if !CanInsertToken(Snapshot(), id, user, nonce) {
        tokens := saved;
        return Violated;
      }
      tokens := tokens[id := FreshToken(Snapshot(), user, nonce, expires)];
      births := births + 1;
      return Committed;
    }

    // `UPDATE ... SET status = 'revoked' WHERE ... AND status = 'active'`,
    // over the rows the statement found.
    method RevokeTokens(rows: set<Uuid>) returns (n: nat)
      requires Valid()
      modifies this
      ensures Valid() && Snapshot() == Exec(old(Snapshot()), Schema.RevokeTokens(rows))
      ensures n == |ActiveAmong(old(Snapshot()), rows)|
    {
      hide TablesOk, UsersOk, TokensOk, InvitesOk, WellFormedNonce, NormalizeEmail, InRange;
      ExecKeepsTables(Snapshot(), Schema.RevokeTokens(rows));
      assert Exec(Snapshot(), Schema.RevokeTokens(rows)) == Snapshot().(tokens := TokensRevoked(tokens, rows));
      hide Exec, TokensRevoked;
      n := |ActiveAmong(Snapshot(), rows)|;
      tokens := TokensRevoked(tokens, rows);
    }

    // ----- invitations ----------------------------------------------------

    method InsertInvite(id: Uuid, email: string, nonce: string, expires: Time) returns (inserted: bool)
      requires Valid() && NormalizeEmail(email) == email && WellFormedNonce(nonce) && InRange(expires)
      modifies this
      ensures Valid() && Snapshot() == Exec(old(Snapshot()), Schema.InsertInvite(id, email, nonce, expires))
      ensures inserted == CanInsertInvite(old(Snapshot()), id, nonce)
    {
      hide TablesOk, UsersOk, TokensOk, InvitesOk, WellFormedNonce, NormalizeEmail, InRange;
      ExecKeepsTables(Snapshot(), Schema.InsertInvite(id, email, nonce, expires));
      inserted := CanInsertInvite(Snapshot(), id, nonce);
      if inserted {
        invites := invites[id := FreshInvite(email, nonce, expires)];
      }
    }

    // The one-shot transaction: the invitation is flipped first, and a failed
    // insert of the principal rolls the flip back.
    method RedeemInvite(invite: Uuid, user: Uuid, email: string) returns (done: Commit)
      requires Valid() && invite in invites && invites[invite].email == email
      modifies this
      ensures Valid() && Snapshot() == Exec(old(Snapshot()), Schema.RedeemInvite(invite, user))
      ensures done == if !IsPending(old(Snapshot()), invite) then NoRow
                      else if CanInsertUser(old(Snapshot()), user, email) then Committed else Violated
    {
      hide TablesOk, UsersOk, TokensOk, InvitesOk, WellFormedNonce, NormalizeEmail, InRange;
      ExecKeepsTables(Snapshot(), Schema.RedeemInvite(invite, user));
      var saved := invites;
      if invites[invite].status != InvitePending {
        return NoRow;
      }
      invites := invites[invite := invites[invite].(status := InviteRedeemed, redeemedBy := Some(user))];
      if !CanInsertUser(Snapshot(), user, email) {
        invites := saved;
        return Violated;
      }
      users := users[user := FreshUser(email)];
      return Committed;
    }

    method RetireInvites(rows: set<Uuid>, to: InviteStatus) returns (n: nat)
      requires Valid() && (to == InviteRevoked || to == InviteExpired)
      modifies this
      ensures Valid() && Snapshot() == Exec(old(Snapshot()), Schema.RetireInvites(rows, to))
      ensures n == |PendingAmong(old(Snapshot()), rows)|
    {
      hide TablesOk, UsersOk, TokensOk, InvitesOk, WellFormedNonce, NormalizeEmail, InRange;
      ExecKeepsTables(Snapshot(), Schema.RetireInvites(rows, to));
      assert Exec(Snapshot(), Schema.RetireInvites(rows, to))
          == Snapshot().(invites := InvitesRetired(invites, rows, to));
      hide Exec, InvitesRetired;
      n := |PendingAmong(Snapshot(), rows)|;
      invites := InvitesRetired(invites, rows, to);
    }

    // ----- principals -----------------------------------------------------

    // `INSERT ... ON CONFLICT DO NOTHING RETURNING id`
    method InsertUser(id: Uuid, email: string) returns (inserted: Option<Uuid>)
      requires Valid() && NormalizeEmail(email) == email
      modifies this
      ensures Valid() && Snapshot() == Exec(old(Snapshot()), Schema.InsertUser(id, email))
      ensures inserted == if CanInsertUser(old(Snapshot()), id, email) then Some(id) else None
    {
      hide TablesOk, UsersOk, TokensOk, InvitesOk, WellFormedNonce, NormalizeEmail, InRange;
      ExecKeepsTables(Snapshot(), Schema.InsertUser(id, email));
      if !CanInsertUser(Snapshot(), id, email) {
        return None;
      }
      users := users[id := FreshUser(email)];
      return Some(id);
    }

    // `UPDATE ... SET status = 'revoked' WHERE id = $1 AND status <> 'revoked' RETURNING email`
    method RevokeUser(user: Uuid) returns (email: Option<string>)
      requires Valid()
      modifies this
      ensures Valid() && Snapshot() == Exec(old(Snapshot()), Schema.RevokeUser(user))
      ensures email == if CanRevokeUser(old(Snapshot()), user) then Some(old(users)[user].email) else None
    {
      hide TablesOk, UsersOk, TokensOk, InvitesOk, WellFormedNonce, NormalizeEmail, InRange;
      ExecKeepsTables(Snapshot(), Schema.RevokeUser(user));
      if !CanRevokeUser(Snapshot(), user) {
        return None;
      }
      users := users[user := users[user].(status := Revoked)];
      return Some(users[user].email);
    }

    // `UPDATE ... SET sapiens_user_id = $1 WHERE email = $2 AND sapiens_user_id IS NULL RETURNING id`
    method StampUsers(email: string, sapiens: Uuid) returns (linked: Option<Uuid>)
      requires Valid()
      modifies this
      ensures Valid() && Snapshot() == Exec(old(Snapshot()), Schema.StampUsers(email, sapiens))
      ensures match linked
              case Some(u) => Unlinked(old(Snapshot()), u, email)
              case None => forall u :: u in old(users) ==> !Unlinked(old(Snapshot()), u, email)
    {
      hide TablesOk, UsersOk, TokensOk, InvitesOk, WellFormedNonce, NormalizeEmail, InRange;
      ExecKeepsTables(Snapshot(), Schema.StampUsers(email, sapiens));
      assert Exec(Snapshot(), Schema.StampUsers(email, sapiens))
          == Snapshot().(users := UsersStamped(users, email, sapiens));
      hide Exec, UsersStamped;
      var hit := set u | u in users && Unlinked(Snapshot(), u, email);
      assert forall u :: u in users && Unlinked(Snapshot(), u, email) ==> u in hit;
      linked := AnyOf(hit);
      users := UsersStamped(users, email, sapiens);
    }

    // The live principal of an email, if there is one.
    method LiveUserByEmail(email: string) returns (found: Option<Uuid>)
      ensures match found
              case Some(u) => LiveAt(Snapshot(), u, email)
              case None => EmailFree(Snapshot(), email)
    {
      var hit := set u | u in users && LiveAt(Snapshot(), u, email);
      assert forall u :: u in users && LiveAt(Snapshot(), u, email) ==> u in hit;
      found := AnyOf(hit);
    }

    // The live principal linked to an account, if there is one.
    method LiveUserByAccount(sapiens: Uuid) returns (found: Option<Uuid>)
      ensures match found
              case Some(u) => LinkedTo(Snapshot(), u, sapiens)
              case None => forall u :: u in users ==> !LinkedTo(Snapshot(), u, sapiens)
    {
      var hit := set u | u in users && LinkedTo(Snapshot(), u, sapiens);
      assert forall u :: u in users && LinkedTo(Snapshot(), u, sapiens) ==> u in hit;
      found := AnyOf(hit);
    }

    // ----- policy and trail -----------------------------------------------

    // Delete and insert in one transaction: the singleton index never sees
    // two rows.
    method SetPolicy(id: Uuid, enabled: bool)
      requires Valid()
      modifies this
      ensures Valid() && Snapshot() == Exec(old(Snapshot()), SetPolicyRow(id, enabled))
    {
      hide TablesOk, UsersOk, TokensOk, InvitesOk, WellFormedNonce, NormalizeEmail, InRange;
      ExecKeepsTables(Snapshot(), SetPolicyRow(id, enabled));
      policies := map[];
      policies := policies[id := Policy(enabled, false)];
    }

    method AppendAudit(row: AuditRow)
      requires Valid()
      modifies this
      ensures Valid() && Snapshot() == Exec(old(Snapshot()), Schema.AppendAudit(row))
    {
      hide TablesOk, UsersOk, TokensOk, InvitesOk, WellFormedNonce, NormalizeEmail, InRange;
      ExecKeepsTables(Snapshot(), Schema.AppendAudit(row));
      trail := trail + [row];
    }
  }

  // The row an unordered query returns first.
  method AnyOf(rows: set<Uuid>) returns (found: Option<Uuid>)
    ensures if rows == {} then found == None else found.Some? && found.value in rows
  {
    if rows == {} {
      return None;
    }
    var u :| u in rows;
    return Some(u);
  }
}
