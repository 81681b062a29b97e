// What a presented link is checked against, and exactly which links pass.
module Verify {
  import opened Prelude
  import opened Links
  import opened Schema

  datatype Claimant = Claimant(token: Uuid, user: Uuid)

  // The row `verify_bearer` selects: a token and its principal, neither of
  // them soft-deleted.
  predicate JoinedRow(db: Tables, t: Uuid) {
    t in db.tokens && !db.tokens[t].deleted && LiveUser(db, db.tokens[t].user)
  }

  // `verify_bearer` up to and including its test of the token status.
  function VerifyRow(e: Engine, db: Tables, link: string, now: Time): (r: Result<Claimant>)
    ensures r.Ok? ==> IsActiveToken(db, r.value.token) && db.tokens[r.value.token].user == r.value.user
                      && r.value.user in db.users
  {
    hide ParseCapability, BearerArmsMatch;
    if e.bearerSecret == [] then Err(BearerSecretNotConfigured)
    else
      var parsed := ParseCapability(link);
      if parsed.None? || !JoinedRow(db, parsed.value.id) then Err(CredentialRefused)
      else
        var row := db.tokens[parsed.value.id];
        if !BearerArmsMatch(e, parsed.value, row.nonce, row.user, row.expires) then Err(CredentialRefused)
        else if now > row.expires then Err(CredentialRefused)
        else if row.status != TokenActive then Err(CredentialRefused)
        else Ok(Claimant(parsed.value.id, row.user))
  }

  // The whole of `verify_bearer`, both reads against the same tables.
  function VerifyBearer(e: Engine, db: Tables, link: string, now: Time): Result<Uuid> {
    match VerifyRow(e, db, link, now)
    case Err(error) => Err(error)
    case Ok(c) => if ActiveUser(db, c.user) then Ok(c.user) else Err(CredentialRefused)
  }

  // A stored bearer of `user` that is good at `now`.
  predicate GoodBearer(db: Tables, t: Uuid, user: Uuid, now: Time) {
    && t in db.tokens && !db.tokens[t].deleted
    && db.tokens[t].status == TokenActive && now <= db.tokens[t].expires
    && db.tokens[t].user == user && ActiveUser(db, user)
  }

  // The link printed for a stored row.
  function LinkOf(e: Engine, db: Tables, t: Uuid): (link: Option<string>)
    requires t in db.tokens
    ensures e.bearerSecret != [] ==> link.Some?
  {
    BearerLink(e, t, db.tokens[t].nonce, db.tokens[t].user, db.tokens[t].expires)
  }

  lemma AcceptanceOfRow(e: Engine, db: Tables, link: string, now: Time, t: Uuid, user: Uuid)
    requires TokensOk(db.users.Keys, db.tokens, db.births) && e.bearerSecret != [] && t in db.tokens
    ensures GoodBearer(db, t, user, now) && SameReading(link, LinkOf(e, db, t).value) <==>
            VerifyRow(e, db, link, now) == Ok(Claimant(t, user)) && ActiveUser(db, user)
  {
    var row := db.tokens[t];
    assert TokenRowOk(db.users.Keys, db.tokens, db.births, row);
    BearerArmsIffReading(e, link, t, row.nonce, row.user, row.expires);
  }

  // Exact acceptance: a link is accepted for a principal if and only if it
  // reads as the link of some good bearer of that principal, up to the
  // letter case of the MAC.
  lemma AcceptedIffGoodBearer(e: Engine, db: Tables, link: string, now: Time, user: Uuid)
    requires TokensOk(db.users.Keys, db.tokens, db.births) && e.bearerSecret != []
    ensures VerifyBearer(e, db, link, now) == Ok(user) <==>
            exists t :: t in db.tokens && GoodBearer(db, t, user, now) && SameReading(link, LinkOf(e, db, t).value)
  {
    if VerifyBearer(e, db, link, now) == Ok(user) {
      AcceptanceOfRow(e, db, link, now, VerifyRow(e, db, link, now).value.token, user);
    }
    forall t | t in db.tokens && GoodBearer(db, t, user, now) && SameReading(link, LinkOf(e, db, t).value)
      ensures VerifyBearer(e, db, link, now) == Ok(user)
    {
      AcceptanceOfRow(e, db, link, now, t, user);
    }
  }

  // A row's own link is accepted for its owner for exactly as long as the
  // row is good, and never for anyone else.
  lemma OwnLink(e: Engine, db: Tables, t: Uuid, now: Time, user: Uuid)
    requires TokensOk(db.users.Keys, db.tokens, db.births) && e.bearerSecret != [] && t in db.tokens
    ensures VerifyBearer(e, db, LinkOf(e, db, t).value, now) == Ok(user) <==> GoodBearer(db, t, user, now)
  {
    var row := db.tokens[t];
    assert TokenRowOk(db.users.Keys, db.tokens, db.births, row);
    var link := LinkOf(e, db, t).value;
    PrintedArms(e, PreImage(BearerClaim(t, row.nonce, row.user, Timestamp(row.expires))),
                t, row.nonce, Timestamp(row.expires));
    assert SameReading(link, link);
    AcceptanceOfRow(e, db, link, now, t, user);
  }

  // A link whose row is no longer active is refused, whoever presents it and
  // whenever.
  lemma SpentLinkRefused(e: Engine, db: Tables, link: string, now: Time, user: Uuid)
    requires ParseCapability(link).Some? && ParseCapability(link).value.id in db.tokens
    requires db.tokens[ParseCapability(link).value.id].status != TokenActive
    ensures VerifyBearer(e, db, link, now) != Ok(user)
  {
  }

  // Nobody passes with the link, at any time.
  ghost predicate Refuses(e: Engine, db: Tables, link: string) {
    forall now, user: Uuid :: VerifyBearer(e, db, link, now) != Ok(user)
  }

  // The link passes for the owner of row t while that row is good, and for
  // nobody else and at no other time.
  ghost predicate OpensAs(e: Engine, db: Tables, link: string, t: Uuid) {
    forall now, user: Uuid :: VerifyBearer(e, db, link, now) == Ok(user) <==> GoodBearer(db, t, user, now)
  }

  lemma SpentLink(e: Engine, db: Tables, link: string)
    requires ParseCapability(link).Some? && ParseCapability(link).value.id in db.tokens
    requires db.tokens[ParseCapability(link).value.id].status != TokenActive
    ensures Refuses(e, db, link)
  {
    hide VerifyBearer;
    forall now, user: Uuid ensures VerifyBearer(e, db, link, now) != Ok(user) {
      SpentLinkRefused(e, db, link, now, user);
    }
  }

  lemma StoredLink(e: Engine, db: Tables, t: Uuid)
    requires TokensOk(db.users.Keys, db.tokens, db.births) && e.bearerSecret != [] && t in db.tokens
    ensures OpensAs(e, db, LinkOf(e, db, t).value, t)
  {
    hide VerifyBearer, GoodBearer, TokensOk;
    forall now, user: Uuid
      ensures VerifyBearer(e, db, LinkOf(e, db, t).value, now) == Ok(user) <==> GoodBearer(db, t, user, now)
    {
      OwnLink(e, db, t, now, user);
    }
  }

  // The link of a row reads the same in every later state of the tables.
  lemma LinkIsStable(e: Engine, db: Tables, db': Tables, t: Uuid)
    requires Evolves(db, db') && t in db.tokens
    ensures t in db'.tokens && LinkOf(e, db', t) == LinkOf(e, db, t)
  {
  }

  // The tests `redeem` makes before its transaction.
  predicate Redeemable(e: Engine, db: Tables, link: string, presenting: string, now: Time) {
    var parsed := ParseCapability(link);
    parsed.Some? && parsed.value.id in db.invites && !db.invites[parsed.value.id].deleted
    && (var row := db.invites[parsed.value.id];
        && InviteArmsMatch(e, parsed.value, row.nonce, row.email, row.expires)
        && presenting == row.email && row.status == InvitePending && now <= row.expires)
  }

  // An invitation link opens for the address it was minted for and for no
  // other: exactly the readings of the link of a pending, live, unexpired
  // invitation of that address.
  lemma RedeemableIffPending(e: Engine, db: Tables, link: string, presenting: string, now: Time)
    requires InvitesOk(db.users, db.invites) && e.bearerSecret != []
    ensures Redeemable(e, db, link, presenting, now) <==>
            exists i ::
              i in db.invites && IsPending(db, i) && !db.invites[i].deleted && now <= db.invites[i].expires
              && presenting == db.invites[i].email
              && SameReading(link, InviteLink(e, i, db.invites[i].nonce, db.invites[i].email,
                                              Timestamp(db.invites[i].expires)).value)
  {
    forall i | i in db.invites
      ensures SameReading(link, InviteLink(e, i, db.invites[i].nonce, db.invites[i].email,
                                           Timestamp(db.invites[i].expires)).value) <==>
              ParseCapability(link).Some? && ParseCapability(link).value.id == i
              && InviteArmsMatch(e, ParseCapability(link).value, db.invites[i].nonce, db.invites[i].email,
                                 db.invites[i].expires)
    {
      assert InviteRowOk(db.users, db.invites[i]);
      InviteArmsIffReading(e, link, i, db.invites[i].nonce, db.invites[i].email, db.invites[i].expires);
    }
  }

  // The link printed for a stored invitation.
  function InviteLinkOf(e: Engine, db: Tables, i: Uuid): Option<string>
    requires i in db.invites
  {
    InviteLink(e, i, db.invites[i].nonce, db.invites[i].email, Timestamp(db.invites[i].expires))
  }

  // The link opens invitation i, for its address alone, while it is pending
  // and unexpired.
  ghost predicate InvitesAs(e: Engine, db: Tables, link: string, i: Uuid) {
    forall presenting, now :: Redeemable(e, db, link, presenting, now) <==>
      IsPending(db, i) && !db.invites[i].deleted && now <= db.invites[i].expires && presenting == db.invites[i].email
  }

  lemma StoredInvite(e: Engine, db: Tables, i: Uuid)
    requires InvitesOk(db.users, db.invites) && e.bearerSecret != [] && i in db.invites
    ensures InvitesAs(e, db, InviteLinkOf(e, db, i).value, i)
  {
    var row := db.invites[i];
    assert InviteRowOk(db.users, row);
    var link := InviteLinkOf(e, db, i).value;
    PrintedArms(e, PreImage(InviteClaim(i, row.nonce, row.email, Timestamp(row.expires))),
                i, row.nonce, Timestamp(row.expires));
    assert SameReading(link, link);
    InviteArmsIffReading(e, link, i, row.nonce, row.email, row.expires);
  }

  // Nobody can redeem with the link, at any time.
  ghost predicate Closed(e: Engine, db: Tables, link: string) {
    forall presenting, now :: !Redeemable(e, db, link, presenting, now)
  }

  lemma SpentInvite(e: Engine, db: Tables, link: string)
    requires ParseCapability(link).Some? && ParseCapability(link).value.id in db.invites
    requires db.invites[ParseCapability(link).value.id].status != InvitePending
    ensures Closed(e, db, link)
  {
  }

  lemma InviteLinkIsStable(e: Engine, a: Tables, b: Tables, i: Uuid)
    requires Evolves(a, b) && i in a.invites
    ensures i in b.invites && InviteLinkOf(e, b, i) == InviteLinkOf(e, a, i)
  {
  }
}
