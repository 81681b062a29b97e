// The invitation verbs, statement by statement, on the shared tables.
module InviteService {
  import opened Prelude
  import opened Text
  import opened Links
  import opened Schema
  import opened Verify
  import opened Protocol
  import opened Database
  import opened Conduct
  import opened Rows
  import TokenService

  // ----- minting ----------------------------------------------------------

  function InviteMinted(e: Engine): Req {
    if e.bearerSecret == [] then Refuse(BearerSecretNotConfigured) else Done(Finished)
  }

  lemma MintInviteStep(e: Engine, db: Tables, email: string, ttl: int, c: Choice)
    requires InRange(c.now + ttl * DAY)
    ensures var m := MoveOf(e, db, Protocol.MintInvite(email, ttl), c, 0);
            && m.next == (if CanInsertInvite(db, c.id, c.nonce)
                          then Audit(AuditRow(EvInviteMinted, None, Some(c.id), None), InviteMinted(e))
                              else Refuse(Db(c.detail)))
            && Exec(db, m.stmt) == Exec(db, InsertInvite(c.id, email, c.nonce, c.now + ttl * DAY))
  {
  }

  lemma MintInviteOutOfRange(e: Engine, db: Tables, email: string, ttl: int, c: Choice)
    requires !InRange(c.now + ttl * DAY)
    ensures MoveOf(e, db, Protocol.MintInvite(email, ttl), c, 0) == Stay(Refuse(Internal(OutOfRange)))
  {
  }

  lemma InviteLeaves(e: Engine, db: Tables, email: string, days: int, c: Choice)
    ensures var expires := c.now + days * DAY;
            var db' := Exec(db, InsertInvite(c.id, email, c.nonce, expires));
            if CanInsertInvite(db, c.id, c.nonce) then
              && c.id in db'.invites && db'.invites[c.id].email == email && db'.invites[c.id].expires == expires
              && InviteLinkOf(e, db', c.id) == InviteLink(e, c.id, c.nonce, email, Timestamp(expires))
              && db'.(trail := db'.trail + [AuditRow(EvInviteMinted, None, Some(c.id), None)])
                 == InviteAdded(db, email, days, c)
            else db' == db
  {
  }

  // The one verdict on storing an invitation, in the terms of the rows.
  lemma StoreVerdict(db: Tables, days: int, c: Choice)
    ensures InviteUntil(c.now, days) == c.now + days * DAY
    ensures InviteFault(db, days, c) ==
            if !InRange(c.now + days * DAY) then Some(Internal(OutOfRange))
            else if !CanInsertInvite(db, c.id, c.nonce) then Some(Db(c.detail))
            else None
  {
    InTimeIff(c.now + days * DAY);
    NewInviteIff(db, c.id, c.nonce);
  }

  lemma MintedInvite(e: Engine, a: Tables, b: Tables, i: Uuid)
    requires Evolves(a, b) && TablesOk(b) && i in a.invites
    ensures i in b.invites && b.invites[i].email == a.invites[i].email && b.invites[i].expires == a.invites[i].expires
    ensures InviteLinkOf(e, b, i) == InviteLinkOf(e, a, i)
    ensures e.bearerSecret != [] ==> InvitesAs(e, b, InviteLinkOf(e, b, i).value, i)
  {
    InviteLinkIsStable(e, a, b, i);
    assert InviteMoves(a.invites[i], b.invites[i]);
    if e.bearerSecret != [] {
      StoredInvite(e, b, i);
    }
  }

  function LinkOrRefuse(e: Engine, c: Choice, email: string, expires: Time): (r: Result<string>)
    ensures InviteMinted(e) == match r case Ok(_) => Done(Finished) case Err(error) => Refuse(error)
    ensures e.bearerSecret == [] ==> r == Err(BearerSecretNotConfigured)
    ensures e.bearerSecret != [] ==> r.Ok?
    ensures r.Ok? ==> InviteLink(e, c.id, c.nonce, email, Timestamp(expires)) == Some(r.value)
  {
    match InviteLink(e, c.id, c.nonce, email, Timestamp(expires))
    case None => Err(BearerSecretNotConfigured)
    case Some(link) => Ok(link)
  }

  // What storing an invitation answers on the rows it finds.
  predicate StoreSays(e: Engine, found: Tables, days: int, c: Choice, r: Result<string>) {
    match InviteFault(found, days, c)
    case Some(error) => r == Err(error)
    case None => if e.bearerSecret == [] then r == Err(BearerSecretNotConfigured) else r.Ok?
  }

  // The verb after the address has been checked.
  method StoreInvite(e: Engine, db: Database, email: string, days: int)
    returns (r: Result<string>, ghost path: Path, ghost id: Uuid)
    requires db.Valid() && NormalizeEmail(email) == email
    modifies db
    ensures db.Valid() && Evolves(old(db.Snapshot()), db.Snapshot())
    ensures Conducted(e, db.shared, old(db.Snapshot()), Protocol.MintInvite(email, days), path, db.Snapshot(),
                      match r case Ok(_) => Done(Finished) case Err(error) => Refuse(error))
    ensures r.Ok? ==> id in db.invites && InviteLinkOf(e, db.Snapshot(), id) == Some(r.value)
                      && InvitesAs(e, db.Snapshot(), r.value, id)
    ensures path != [] && id == path[0].choice.id && StoreSays(e, path[0].found, days, path[0].choice, r)
    ensures r.Ok? || r == Err(BearerSecretNotConfigured) ==>
              && id in db.invites && db.invites[id].email == email
              && db.invites[id].expires == InviteUntil(path[0].choice.now, days)
    ensures !db.shared ==>
              && path[0].found == old(db.Snapshot())
              && db.Snapshot() ==
                 if InviteFault(old(db.Snapshot()), days, path[0].choice).Some? then old(db.Snapshot())
                 else InviteAdded(old(db.Snapshot()), email, days, path[0].choice)
  {
    hide MoveOf, Exec, Evolves, TablesOk, Conducted, NormalizeEmail, InviteLinkOf, InvitesAs, InviteMinted, InRange;
    hide InviteFault, InviteAdded, CanInsertInvite;
    ghost var from := db.Snapshot();
    ghost var q := Protocol.MintInvite(email, days);
    Start(e, db.shared, from, q);
    var c: Choice := *;
    id := c.id;
    var expires := c.now + days * DAY;
    db.Others();
    ghost var found := db.Snapshot();
    path := [Moment(q, from, found, c)];
    assert [] + path == path;
    StoreVerdict(found, days, c);
    if !InRange(expires) {
      MintInviteOutOfRange(e, found, email, days, c);
      OneRead(e, db.shared, from, q, [], from, found, q, c, Refuse(Internal(OutOfRange)));
      return Err(Internal(OutOfRange)), path, id;
    }
    NonceWellFormed(c.nonce);
    var inserted := db.InsertInvite(c.id, email, c.nonce, expires);
    MintInviteStep(e, found, email, days, c);
    OneMore(e, db.shared, from, q, [], from, found, q, c, MoveOf(e, found, q, c, 0));
    InviteLeaves(e, found, email, days, c);
    if !inserted {
      return Err(Db(c.detail)), path, id;
    }
    ExecEvolves(found, InsertInvite(c.id, email, c.nonce, expires));
    ghost var minted := db.Snapshot();
    EvolvesTrans(from, found, minted);
    path := TokenService.Record(e, db, AuditRow(EvInviteMinted, None, Some(c.id), None), from, q, path,
        InviteMinted(e));
    EvolvesTrans(from, minted, db.Snapshot());
    MintedInvite(e, minted, db.Snapshot(), c.id);
    r := LinkOrRefuse(e, c, email, expires);
  }

  lemma MintInviteEntry(recipient: string, ttl: int)
    ensures NormalizeEmail(NormalizeEmail(recipient)) == NormalizeEmail(recipient)
    ensures Enter(CallMintInvite(recipient, ttl)) ==
            var email := NormalizeEmail(recipient);
            if '@' !in email || Utf8Length(email) > 320 then Refuse(InvalidInput(RecipientRequired))
            else Protocol.MintInvite(email, if ttl >= 1 then ttl else DEFAULT_INVITE_TTL_DAYS)
  {
    NormalizeIdempotent(recipient);
    hide NormalizeEmail, ParseUuid, Utf8Length;
  }

  // `mint_invite`. With the secret unset the verb fails only after it has
  // stored and audited the invitation.
  method MintInvite(e: Engine, db: Database, recipient: string, ttl: int)
    returns (r: Result<string>, ghost path: Path, ghost id: Uuid)
    requires db.Valid()
    modifies db
    ensures db.Valid() && Evolves(old(db.Snapshot()), db.Snapshot())
    ensures Conducted(e, db.shared, old(db.Snapshot()), Enter(CallMintInvite(recipient, ttl)), path, db.Snapshot(),
                      match r case Ok(_) => Done(Finished) case Err(error) => Refuse(error))
    ensures r.Ok? ==> id in db.invites && InviteLinkOf(e, db.Snapshot(), id) == Some(r.value)
                      && InvitesAs(e, db.Snapshot(), r.value, id)
    ensures '@' !in NormalizeEmail(recipient) || Utf8Length(NormalizeEmail(recipient)) > 320 ==>
              r == Err(InvalidInput(RecipientRequired)) && path == [] && db.Snapshot() == old(db.Snapshot())
    ensures '@' in NormalizeEmail(recipient) && Utf8Length(NormalizeEmail(recipient)) <= 320 ==>
              && path != [] && id == path[0].choice.id
              && StoreSays(e, path[0].found, if ttl >= 1 then ttl else 14, path[0].choice, r)
    ensures r.Ok? || r == Err(BearerSecretNotConfigured) ==>
              && id in db.invites && db.invites[id].email == NormalizeEmail(recipient) && path != []
              && db.invites[id].expires == InviteUntil(path[0].choice.now, if ttl >= 1 then ttl else 14)
    ensures !db.shared && path != [] ==>
              && path[0].found == old(db.Snapshot())
              && var days := if ttl >= 1 then ttl else 14;
              db.Snapshot() ==
                if InviteFault(old(db.Snapshot()), days, path[0].choice).Some? then old(db.Snapshot())
                else InviteAdded(old(db.Snapshot()), NormalizeEmail(recipient), days, path[0].choice)
  {
    MintInviteEntry(recipient, ttl);
    Start(e, db.shared, db.Snapshot(), Enter(CallMintInvite(recipient, ttl)));
    EvolvesRefl(db.Snapshot());
    hide MoveOf, Exec, Evolves, TablesOk, Conducted, NormalizeEmail, InviteLinkOf, InvitesAs, Utf8Length, Enter;
    hide StoreSays, InviteFault, InviteAdded;
    var email := NormalizeEmail(recipient);
    if '@' !in email || Utf8Length(email) > 320 {
      id := 0;
      return Err(InvalidInput(RecipientRequired)), [], id;
    }
    r, path, id := StoreInvite(e, db, email, if ttl >= 1 then ttl else DEFAULT_INVITE_TTL_DAYS);
  }

  // ----- redemption -------------------------------------------------------

  function AfterLookup(r: Result<Uuid>, email: string): Req {
    match r case Ok(i) => Protocol.RedeemTx(i, email) case Err(error) => Refuse(error)
  }

  // The tests on the selected row, in the order they are made.
  method InviteRowOf(e: Engine, db: Database, link: string, presenting: string, now: Time) returns (r: Result<Uuid>)
    ensures r == if Redeemable(e, db.Snapshot(), link, presenting, now) then Ok(ParseCapability(link).value.id)
                 else Err(CredentialRefused)
  {
    var parts := ParseCapability(link);
    if parts.None? {
      return Err(CredentialRefused);
    }
    if parts.value.id !in db.invites || db.invites[parts.value.id].deleted {
      return Err(CredentialRefused);
    }
    var row := db.invites[parts.value.id];
    var exp := Timestamp(row.expires);
    if e.bearerSecret == []
       || !VerifyMac(e, e.bearerSecret, PreImage(InviteClaim(parts.value.id, row.nonce, row.email, exp)),
           parts.value.mac)
       || parts.value.nonce != row.nonce || parts.value.exp != exp || presenting != row.email
       || row.status != InvitePending || now > row.expires {
      return Err(CredentialRefused);
    }
    return Ok(parts.value.id);
  }

  predicate Names(link: string, invite: Uuid) {
    ParseCapability(link).Some? && ParseCapability(link).value.id == invite
  }

  lemma LookupStep(e: Engine, db: Tables, link: string, email: string, c: Choice)
    ensures var r := if Redeemable(e, db, link, email, c.now) then Ok(ParseCapability(link).value.id)
                     else Err(CredentialRefused);
            && MoveOf(e, db, RedeemRow(link, email), c, 0) == Stay(AfterLookup(r, email))
            && (r.Ok? ==> Names(link, r.value) && r.value in db.invites && db.invites[r.value].email == email)
  {
  }

  function AfterRedeem(done: Commit, invite: Uuid, user: Uuid, detail: string): Req {
    match done
    case Committed =>
      Audit(AuditRow(EvInviteRedeemed, Some(user), Some(invite), None),
            MintInsert(user, DEFAULT_BEARER_TTL_HOURS, ByRedeem(invite)))
    case NoRow => Refuse(CredentialRefused)
    case Violated => Refuse(Db(detail))
  }

  lemma RedeemStep(e: Engine, db: Tables, invite: Uuid, email: string, c: Choice, done: Commit)
    requires invite in db.invites && db.invites[invite].email == email
    requires done == if !IsPending(db, invite) then NoRow else if CanInsertUser(db, c.id, email) then Committed
              else Violated
    ensures var m := MoveOf(e, db, Protocol.RedeemTx(invite, email), c, 0);
            && m.next == AfterRedeem(done, invite, c.id, c.detail)
            && Exec(db, m.stmt) == Exec(db, Schema.RedeemInvite(invite, c.id))
  {
  }

  // The invitation is redeemed, by that principal, of the same email.
  predicate RedeemedBy(db: Tables, invite: Uuid, user: Uuid, email: string) {
    && invite in db.invites && db.invites[invite].status == InviteRedeemed
    && db.invites[invite].redeemedBy == Some(user) && db.invites[invite].email == email
    && user in db.users && db.users[user].email == email
  }

  lemma RedemptionLeaves(db: Tables, invite: Uuid, user: Uuid, email: string)
    requires invite in db.invites && db.invites[invite].email == email
    ensures var db' := Exec(db, Schema.RedeemInvite(invite, user));
            if IsPending(db, invite) && CanInsertUser(db, user, email) then RedeemedBy(db', invite, user, email)
            else db' == db
  {
  }

  lemma RedeemedStays(e: Engine, a: Tables, b: Tables, invite: Uuid, user: Uuid, email: string, link: string)
    requires Evolves(a, b) && RedeemedBy(a, invite, user, email) && Names(link, invite)
    ensures RedeemedBy(b, invite, user, email) && Closed(e, b, link)
  {
    assert InviteMoves(a.invites[invite], b.invites[invite]) && UserMoves(a.users[user], b.users[user]);
    SpentInvite(e, b, link);
  }

  lemma SameEmail(a: Tables, b: Tables, invite: Uuid)
    requires Evolves(a, b) && invite in a.invites
    ensures invite in b.invites && b.invites[invite].email == a.invites[invite].email
  {
  }

  // The tests before the transaction, and its constraint, in the terms of
  // the rows.
  lemma ClaimVerdict(e: Engine, db: Tables, link: string, email: string, c: Choice, row: Result<Uuid>)
    requires TablesOk(db)
    requires row == if Redeemable(e, db, link, email, c.now) then Ok(ParseCapability(link).value.id)
                    else Err(CredentialRefused)
    ensures row.Err? <==> NoInvite(e, db, link, email, c.now)
    ensures row.Ok? ==> Invites(e, db, link, email, c.now, row.value) && IsPending(db, row.value)
    ensures CanInsertUser(db, c.id, email) <==>
            c.id !in db.users && forall u :: u in db.users && db.users[u].email == email ==> db.users[u].deleted
  {
    NewUserIff(db, c.id, email);
    assert Redeemable(e, db, link, email, c.now) ==> ParseCapability(link).Some?;
    hide TablesOk, Redeemable, CanInsertUser, Invites;
    forall i: Uuid
      ensures Invites(e, db, link, email, c.now, i) <==>
              Redeemable(e, db, link, email, c.now) && ParseCapability(link).Some?
              && ParseCapability(link).value.id == i
    {
      InvitesIff(e, db, link, email, c.now, i);
    }
    if row.Ok? {
      OpenToRedeem(e, db, link, email, c.now, row.value);
    }
  }

  lemma OpenToRedeem(e: Engine, db: Tables, link: string, email: string, now: Time, i: Uuid)
    requires Invites(e, db, link, email, now, i)
    ensures IsPending(db, i)
  {
  }

  lemma ClaimRows(db: Tables, invite: Uuid, user: Uuid)
    requires invite in db.invites
    ensures var db' := Exec(db, Schema.RedeemInvite(invite, user));
            IsPending(db, invite) && CanInsertUser(db, user, db.invites[invite].email) ==>
              var row := AuditRow(EvInviteRedeemed, Some(user), Some(invite), None);
              InviteClaimed(db, db'.(trail := db'.trail + [row]), invite, user)
  {
  }

  // `redeem`, up to its transaction and the row that records it. The
  // transaction commits both writes or none.
  method Claim(e: Engine, db: Database, link: string, email: string)
    returns (r: Result<(Uuid, Uuid)>, ghost path: Path)
    requires db.Valid()
    modifies db
    ensures db.Valid() && Evolves(old(db.Snapshot()), db.Snapshot())
    ensures Conducted(e, db.shared, old(db.Snapshot()), RedeemRow(link, email), path, db.Snapshot(),
                      match r
                      case Ok(x) => MintInsert(x.1, DEFAULT_BEARER_TTL_HOURS, ByRedeem(x.0))
                      case Err(error) => Refuse(error))
    ensures r.Ok? ==> RedeemedBy(db.Snapshot(), r.value.0, r.value.1, email) && Names(link, r.value.0)
    ensures r.Err? ==> r.error == CredentialRefused || r.error.Db?
    ensures path != [] && (r.Ok? ==> r.value.1 == path[0].choice.id && |path| == 3)
    ensures !db.shared ==>
              var c := path[0].choice;
              && (r.Ok? <==>
                    && (exists i: Uuid :: Invites(e, old(db.Snapshot()), link, email, c.now, i))
                    && c.id !in old(db.users)
                    && forall u :: u in old(db.users) && old(db.users)[u].email == email ==> old(db.users)[u].deleted)
              && (r.Err? ==> r.error == if NoInvite(e, old(db.Snapshot()), link, email, c.now) then CredentialRefused
                                        else Db(c.detail))
              && (if r.Err? then db.Snapshot() == old(db.Snapshot())
                  else Invites(e, old(db.Snapshot()), link, email, c.now, r.value.0)
                       && InviteClaimed(old(db.Snapshot()), db.Snapshot(), r.value.0, c.id))
  {
    hide MoveOf, Exec, Evolves, TablesOk, Conducted, ParseCapability, Redeemable, RedeemedBy, Closed, Names;
    hide Invites, InviteClaimed, CanInsertUser;
    ghost var from := db.Snapshot();
    ghost var start := RedeemRow(link, email);
    Start(e, db.shared, from, start);
    var c: Choice := *;
    db.Others();
    ghost var seen := db.Snapshot();
    var row := InviteRowOf(e, db, link, email, c.now);
    ghost var q := AfterLookup(row, email);
    LookupStep(e, seen, link, email, c);
    OneRead(e, db.shared, from, start, [], from, seen, start, c, q);
    path := [] + [Moment(start, from, seen, c)];
    ClaimVerdict(e, seen, link, email, c, row);
    if row.Err? {
      return Err(row.error), path;
    }
    db.Others();
    ghost var found := db.Snapshot();
    EvolvesTrans(from, seen, found);
    SameEmail(seen, found, row.value);
    var done := db.RedeemInvite(row.value, c.id, email);
    RedeemStep(e, found, row.value, email, c, done);
    RedemptionLeaves(found, row.value, c.id, email);
    ClaimRows(found, row.value, c.id);
    OneMore(e, db.shared, from, start, path, seen, found, q, c, MoveOf(e, found, q, c, 0));
    path := path + [Moment(q, seen, found, c)];
    if done != Committed {
      return Err(if done.NoRow? then CredentialRefused else Db(c.detail)), path;
    }
    ExecEvolves(found, Schema.RedeemInvite(row.value, c.id));
    ghost var redeemed := db.Snapshot();
    EvolvesTrans(from, found, redeemed);
    path := TokenService.Record(e, db, AuditRow(EvInviteRedeemed, Some(c.id), Some(row.value), None), from, start, path,
                                MintInsert(c.id, DEFAULT_BEARER_TTL_HOURS, ByRedeem(row.value)));
    EvolvesTrans(from, redeemed, db.Snapshot());
    RedeemedStays(e, redeemed, db.Snapshot(), row.value, c.id, email, link);
    r := Ok((row.value, c.id));
  }

  // `redeem`. A refused redemption of an uninterrupted verb leaves nothing
  // behind, unless the transaction had committed and only the first bearer
  // could not be minted.
  method Redeem(e: Engine, db: Database, link: string, presentingEmail: string)
    returns (r: Result<(Uuid, string)>, ghost path: Path, ghost claimed: Option<(Uuid, Uuid)>, ghost token: Uuid)
    requires db.Valid()
    modifies db
    ensures db.Valid() && Evolves(old(db.Snapshot()), db.Snapshot())
    ensures r.Ok? ==> claimed.Some? && claimed.value.1 == r.value.0
    ensures Conducted(e, db.shared, old(db.Snapshot()), Enter(CallRedeem(link, presentingEmail)), path, db.Snapshot(),
                      match r
                      case Ok(x) => Done(Minted(x.0, token, ByRedeem(claimed.value.0)))
                      case Err(error) => Refuse(error))
    ensures claimed.Some? ==>
              && RedeemedBy(db.Snapshot(), claimed.value.0, claimed.value.1, NormalizeEmail(presentingEmail))
              && Closed(e, db.Snapshot(), link)
    ensures r.Ok? ==> OwnsToken(db.Snapshot(), token, r.value.0) && OpensAs(e, db.Snapshot(), r.value.1, token)
    ensures path != [] && (claimed.Some? ==> |path| > 3 && claimed.value.1 == path[0].choice.id)
    ensures claimed.Some? ==>
              match MintFault(e, path[3].found, claimed.value.1, 24, path[3].choice)
              case None => r.Ok?
              case Some(error) => r == Err(error)
    ensures !db.shared ==>
              var c := path[0].choice;
              && (claimed.Some? <==>
                    && (exists i: Uuid ::
                          Invites(e, old(db.Snapshot()), link, NormalizeEmail(presentingEmail), c.now, i))
                    && NewUser(old(db.Snapshot()), c.id, NormalizeEmail(presentingEmail)))
              && (if claimed.None? then
                    && db.Snapshot() == old(db.Snapshot())
                    && r == Err(if NoInvite(e, old(db.Snapshot()), link, NormalizeEmail(presentingEmail), c.now)
                                then CredentialRefused else Db(c.detail))
                  else
                    && InviteClaimed(old(db.Snapshot()), path[3].found, claimed.value.0, c.id)
                    && db.Snapshot() == if r.Ok? then BearerAdded(path[3].found, c.id, 24, path[3].choice)
                                        else path[3].found)
    ensures r.Err? ==> if claimed.None? then r.error == CredentialRefused || r.error.Db? else ServerSide(r.error)
  {
    hide MoveOf, Exec, Evolves, TablesOk, Conducted, RedeemedBy, Closed, Names, OpensAs, NormalizeEmail;
    hide OwnsToken, LinkOf, Invites, InviteClaimed, MintFault, BearerAdded;
    ghost var from := db.Snapshot();
    token := 0;
    var email := NormalizeEmail(presentingEmail);
    ghost var start := RedeemRow(link, email);
    var x: Result<(Uuid, Uuid)>;
    x, path := Claim(e, db, link, email);
    if x.Err? {
      return Err(x.error), path, None, token;
    }
    claimed := Some(x.value);
    ghost var redeemed := db.Snapshot();
    ghost var q := MintInsert(x.value.1, DEFAULT_BEARER_TTL_HOURS, ByRedeem(x.value.0));
    var bearer: Result<string>;
    ghost var path';
    bearer, path', token := TokenService.MintBearer(e, db, x.value.1, DEFAULT_BEARER_TTL_HOURS, ByRedeem(x.value.0));
    ghost var end := match bearer
      case Ok(_) => Done(Minted(x.value.1, token, ByRedeem(x.value.0)))
      case Err(error) => Refuse(error);
    Joined(e, db.shared, from, start, path, redeemed, q, path', db.Snapshot(), end);
    path := path + path';
    EvolvesTrans(from, redeemed, db.Snapshot());
    RedeemedStays(e, redeemed, db.Snapshot(), x.value.0, x.value.1, email, link);
    r := match bearer case Ok(b) => Ok((x.value.1, b)) case Err(error) => Err(error);
  }

  // ----- revocation and sweeps --------------------------------------------

  lemma RevokeInviteStep(e: Engine, db: Tables, invite: Uuid, c: Choice)
    ensures var m := MoveOf(e, db, RevokeInviteOne(invite), c, 0);
            && Exec(db, m.stmt) == Exec(db, RetireInvites({invite}, InviteRevoked))
            && m.next == if !IsPending(db, invite) then Refuse(NotFound(PendingInvite(invite)))
                         else Audit(AuditRow(EvInviteRevoked, None, Some(invite), None), Done(Finished))
  {
    if !IsPending(db, invite) {
      assert InvitesRetired(db.invites, {invite}, InviteRevoked) == db.invites;
    }
  }

  lemma RetiredOne(db: Tables, invite: Uuid)
    ensures var db' := Exec(db, RetireInvites({invite}, InviteRevoked));
            if IsPending(db, invite) then
              && PendingAmong(db, {invite}) == {invite}
              && invite in db'.invites && db'.invites[invite].status == InviteRevoked
              && InviteRevokedAlone(
                   db, db'.(trail := db'.trail + [AuditRow(EvInviteRevoked, None, Some(invite), None)]), invite)
            else PendingAmong(db, {invite}) == {} && db' == db
  {
    var retired := InvitesRetired(db.invites, {invite}, InviteRevoked);
    if !IsPending(db, invite) {
      assert retired == db.invites;
    } else {
      assert retired == db.invites[invite := db.invites[invite].(status := InviteRevoked)];
    }
  }

  lemma RevokedStays(e: Engine, a: Tables, b: Tables, invite: Uuid, link: string)
    requires Evolves(a, b) && invite in a.invites && a.invites[invite].status == InviteRevoked && Names(link, invite)
    ensures Closed(e, b, link)
  {
    assert InviteMoves(a.invites[invite], b.invites[invite]);
    SpentInvite(e, b, link);
  }

  // `revoke_invite`
  method RevokeInvite(e: Engine, db: Database, invite: Uuid) returns (r: Result<()>, ghost path: Path)
    requires db.Valid()
    modifies db
    ensures db.Valid() && Evolves(old(db.Snapshot()), db.Snapshot())
    ensures Conducted(e, db.shared, old(db.Snapshot()), RevokeInviteOne(invite), path, db.Snapshot(),
                      match r case Ok(_) => Done(Finished) case Err(error) => Refuse(error))
    ensures r.Ok? ==> forall link :: Names(link, invite) ==> Closed(e, db.Snapshot(), link)
    ensures path != [] && (r.Ok? <==> OpenInvite(path[0].found, invite))
            && (r.Err? ==> r.error == NotFound(PendingInvite(invite)))
    ensures !db.shared ==>
              && path[0].found == old(db.Snapshot())
              && if r.Ok? then InviteRevokedAlone(old(db.Snapshot()), db.Snapshot(), invite)
                 else db.Snapshot() == old(db.Snapshot())
  {
    hide MoveOf, Exec, Evolves, TablesOk, Conducted, Names, Closed, PendingAmong, InviteRevokedAlone;
    ghost var from := db.Snapshot();
    ghost var q := RevokeInviteOne(invite);
    Start(e, db.shared, from, q);
    ghost var c: Choice := *;
    db.Others();
    ghost var found := db.Snapshot();
    var n := db.RetireInvites({invite}, InviteRevoked);
    RevokeInviteStep(e, found, invite, c);
    RetiredOne(found, invite);
    OneMore(e, db.shared, from, q, [], from, found, q, c, MoveOf(e, found, q, c, 0));
    path := [Moment(q, from, found, c)];
    assert [] + path == path;
    ExecEvolves(found, RetireInvites({invite}, InviteRevoked));
    ghost var revoked := db.Snapshot();
    EvolvesTrans(from, found, revoked);
    if n != 1 {
      return Err(NotFound(PendingInvite(invite))), path;
    }
    path := TokenService.Record(e, db, AuditRow(EvInviteRevoked, None, Some(invite), None), from, q, path,
        Done(Finished));
    EvolvesTrans(from, revoked, db.Snapshot());
    forall link | Names(link, invite) ensures Closed(e, db.Snapshot(), link) {
      RevokedStays(e, revoked, db.Snapshot(), invite, link);
    }
    r := Ok(());
  }

  // What follows the sweep of the pending invitations of one address.
  function AfterPending(sweep: Sweep, swept: bool): Req {
    match sweep
    case OfAccess(user, _, lifecycle) =>
      if lifecycle then Note(EvAccessRevoked, Some(user), Done(Finished)) else Done(Access(user, true))
    case Alone => if swept then Note(EvInviteRevoked, None, Done(Finished)) else Done(Finished)
  }

  lemma PendingSteps(e: Engine, db: Tables, email: string, rows: set<Uuid>, sweep: Sweep, c: Choice)
    ensures MoveOf(e, db, SweepInvites(email, sweep), c, 0)
              == Stay(SweepInvitesRows(email, PendingFor(db, email), sweep))
    ensures var m := MoveOf(e, db, SweepInvitesRows(email, rows, sweep), c, 0);
            m.stmt == RetireInvites(rows, InviteRevoked) && m.next == AfterPending(sweep, PendingAmong(db, rows) != {})
  {
    assert (exists i :: i in rows && IsPending(db, i)) <==> PendingAmong(db, rows) != {} by {
      if i :| i in rows && IsPending(db, i) {
        assert i in PendingAmong(db, rows);
      }
    }
  }

  lemma SweptPending(db: Tables, email: string)
    ensures var rows := PendingFor(db, email);
            var db' := Exec(db, RetireInvites(rows, InviteRevoked));
            && PendingAmong(db, rows) == rows && PendingFor(db', email) == {}
            && db' == db.(invites := InvitesRetired(db.invites, rows, InviteRevoked))
  {
  }

  // `UPDATE ... WHERE recipient_email = $1 AND status = 'pending'`, the
  // statement two verbs share.
  method SweepPending(
      e: Engine, db: Database, email: string, ghost sweep: Sweep, ghost from: Tables, ghost start: Req,
          ghost path: Path)
    returns (n: nat, ghost longer: Path)
    requires db.Valid() && Conducted(e, db.shared, from, start, path, db.Snapshot(), SweepInvites(email, sweep))
    modifies db
    ensures db.Valid() && Evolves(old(db.Snapshot()), db.Snapshot())
    ensures Conducted(e, db.shared, from, start, longer, db.Snapshot(), AfterPending(sweep, n > 0))
    ensures !db.shared ==>
              && n == |OpenInvitesFor(old(db.Snapshot()), email)| && OpenInvitesFor(db.Snapshot(), email) == {}
              && db.Snapshot() == old(db.Snapshot()).(invites := InvitesCut(old(db.invites), email))
  {
    hide OpenInvitesFor, InvitesCut;
    hide MoveOf, Exec, Evolves, TablesOk, Conducted, PendingAmong, PendingFor, InvitesRetired, AfterPending;
    ghost var left := db.Snapshot();
    ghost var q := SweepInvites(email, sweep);
    ghost var c: Choice := *;
    db.Others();
    ghost var seen := db.Snapshot();
    var rows := PendingFor(db.Snapshot(), email);
    PendingSteps(e, seen, email, {}, sweep, c);
    OneRead(e, db.shared, from, start, path, left, seen, q, c, SweepInvitesRows(email, rows, sweep));
    longer := path + [Moment(q, left, seen, c)];
    db.Others();
    ghost var found := db.Snapshot();
    EvolvesTrans(left, seen, found);
    n := db.RetireInvites(rows, InviteRevoked);
    PendingSteps(e, found, email, rows, sweep, c);
    SweptPending(seen, email);
    OneMore(e, db.shared, from, start, longer, seen, found, SweepInvitesRows(email, rows, sweep), c,
            MoveOf(e, found, SweepInvitesRows(email, rows, sweep), c, 0));
    longer := longer + [Moment(SweepInvitesRows(email, rows, sweep), seen, found, c)];
    ExecEvolves(found, RetireInvites(rows, InviteRevoked));
    EvolvesTrans(left, found, db.Snapshot());
    TokenService.NobodyLeft(PendingAmong(found, rows));
    OpenInvitesIff(seen, email, 0);
    OpenInvitesIff(db.Snapshot(), email, 0);
  }

  // `revoke_pending_for_email`
  method RevokePendingForEmail(e: Engine, db: Database, address: string) returns (n: nat, ghost path: Path)
    requires db.Valid()
    modifies db
    ensures db.Valid() && Evolves(old(db.Snapshot()), db.Snapshot())
    ensures Conducted(e, db.shared, old(db.Snapshot()), Enter(CallRevokePending(address)), path, db.Snapshot(),
              Done(Finished))
    ensures !db.shared ==>
              var email := NormalizeEmail(address);
              && n == |OpenInvitesFor(old(db.Snapshot()), email)|
              && (forall i :: OpenInvite(db.Snapshot(), i) ==> db.invites[i].email != email)
              && db.Snapshot() == old(db.Snapshot()).(
                   invites := InvitesCut(old(db.invites), email),
                   trail := if n == 0 then old(db.trail)
                            else old(db.trail) + [AuditRow(EvInviteRevoked, None, None, None)])
  {
    hide MoveOf, Exec, Evolves, TablesOk, Conducted, NormalizeEmail, InvitesRetired, InvitesCut;
    ghost var from := db.Snapshot();
    var email := NormalizeEmail(address);
    ghost var start := SweepInvites(email, Alone);
    Start(e, db.shared, from, start);
    n, path := SweepPending(e, db, email, Alone, from, start, []);
    ghost var swept := db.Snapshot();
    ghost var empty := OpenInvitesFor(swept, email);
    if n > 0 {
      path := TokenService.Record(e, db, AuditRow(EvInviteRevoked, None, None, None), from, start, path,
          Done(Finished));
      EvolvesTrans(from, swept, db.Snapshot());
    }
    if !db.shared {
      forall i | OpenInvite(db.Snapshot(), i) ensures db.invites[i].email != email {
        assert i in empty || swept.invites[i].email != email;
      }
    }
  }

  lemma ExpiredSteps(e: Engine, db: Tables, rows: set<Uuid>, c: Choice)
    ensures MoveOf(e, db, SweepExpired, c, 0) == Stay(SweepExpiredRows(PendingBefore(db, c.now)))
    ensures MoveOf(e, db, SweepExpiredRows(rows), c, 0) == Move(RetireInvites(rows, InviteExpired), Done(Finished))
  {
  }

  lemma SweptExpired(db: Tables, now: Time)
    ensures var rows := PendingBefore(db, now);
            var db' := Exec(db, RetireInvites(rows, InviteExpired));
            && PendingAmong(db, rows) == rows && PendingBefore(db', now) == {}
            && db' == db.(invites := InvitesRetired(db.invites, rows, InviteExpired))
  {
  }

  // `sweep_expired`
  method SweepExpiredInvites(e: Engine, db: Database) returns (n: nat, ghost path: Path, ghost now: Time)
    requires db.Valid()
    modifies db
    ensures db.Valid() && Evolves(old(db.Snapshot()), db.Snapshot())
    ensures Conducted(e, db.shared, old(db.Snapshot()), Enter(CallSweepExpired), path, db.Snapshot(), Done(Finished))
    ensures path != [] && now == path[0].choice.now
    ensures !db.shared ==>
              && n == |OverdueInvites(old(db.Snapshot()), now)| && OverdueInvites(db.Snapshot(), now) == {}
              && db.Snapshot() == old(db.Snapshot()).(invites := InvitesLapsed(old(db.invites), now))
  {
    hide OverdueInvites, InvitesLapsed;
    hide MoveOf, Exec, Evolves, TablesOk, Conducted, PendingAmong, PendingBefore, InvitesRetired;
    ghost var from := db.Snapshot();
    Start(e, db.shared, from, SweepExpired);
    var c: Choice := *;
    now := c.now;
    db.Others();
    ghost var seen := db.Snapshot();
    var rows := PendingBefore(db.Snapshot(), c.now);
    ExpiredSteps(e, seen, rows, c);
    OneRead(e, db.shared, from, SweepExpired, [], from, seen, SweepExpired, c, SweepExpiredRows(rows));
    path := [] + [Moment(SweepExpired, from, seen, c)];
    db.Others();
    ghost var found := db.Snapshot();
    EvolvesTrans(from, seen, found);
    n := db.RetireInvites(rows, InviteExpired);
    ExpiredSteps(e, found, rows, c);
    SweptExpired(seen, c.now);
    OneMore(e, db.shared, from, SweepExpired, path, seen, found, SweepExpiredRows(rows), c,
            MoveOf(e, found, SweepExpiredRows(rows), c, 0));
    path := path + [Moment(SweepExpiredRows(rows), seen, found, c)];
    ExecEvolves(found, RetireInvites(rows, InviteExpired));
    EvolvesTrans(from, found, db.Snapshot());
    OpenInvitesIff(seen, "", c.now);
    OpenInvitesIff(db.Snapshot(), "", c.now);
  }
}
