// The bearer verbs, statement by statement, on the shared tables.
module TokenService {
  import opened Prelude
  import opened Links
  import opened Throttle
  import opened Schema
  import opened Verify
  import opened Protocol
  import opened Database
  import opened Conduct
  import opened Rows

  lemma RecordStep(e: Engine, db: Tables, row: AuditRow, next: Req, c: Choice)
    ensures MoveOf(e, db, Audit(row, next), c, 0) == Move(AppendAudit(row), next)
    ensures Exec(db, AppendAudit(row)) == db.(trail := db.trail + [row])
  {
  }

  // Writing the audit row a verb owes.
  method Record(
      e: Engine, db: Database, row: AuditRow,
      ghost from: Tables, ghost start: Req, ghost path: Path, ghost next: Req)
    returns (ghost longer: Path)
    requires db.Valid() && Conducted(e, db.shared, from, start, path, db.Snapshot(), Audit(row, next))
    modifies db
    ensures db.Valid() && Conducted(e, db.shared, from, start, longer, db.Snapshot(), next)
    ensures path <= longer && |longer| == |path| + 1
    ensures Evolves(old(db.Snapshot()), db.Snapshot())
    ensures !db.shared ==> db.Snapshot() == old(db.Snapshot()).(trail := old(db.trail) + [row])
  {
    hide MoveOf, Exec, Evolves, TablesOk, Conducted;
    ghost var left := db.Snapshot();
    ghost var c: Choice := *;
    db.Others();
    ghost var found := db.Snapshot();
    RecordStep(e, found, row, next, c);
    ExecEvolves(found, AppendAudit(row));
    db.AppendAudit(row);
    EvolvesTrans(left, found, db.Snapshot());
    OneMore(e, db.shared, from, start, path, left, found, Audit(row, next), c, Move(AppendAudit(row), next));
    longer := path + [Moment(Audit(row, next), left, found, c)];
  }

  // Where verification hands over to what it was asked for.
  function AfterVerify(r: Result<Claimant>, rotate: Option<int>): Req {
    match r
    case Err(error) => Refuse(error)
    case Ok(x) => if rotate.Some? then RotateTx(x.token, x.user, rotate.value) else Done(Accepted(x.token, x.user))
  }

  function AfterRow(r: Result<Claimant>, rotate: Option<int>): Req {
    match r
    case Err(error) => Refuse(error)
    case Ok(x) => BearerStatus(x.token, x.user, rotate)
  }

  function PrincipalOf(r: Result<Claimant>): Result<Uuid> {
    match r
    case Ok(x) => Ok(x.user)
    case Err(error) => Err(error)
  }

  lemma RowStep(e: Engine, db: Tables, link: string, rotate: Option<int>, c: Choice)
    ensures MoveOf(e, db, BearerRow(link, rotate), c, 0) == Stay(AfterRow(VerifyRow(e, db, link, c.now), rotate))
  {
  }

  lemma StatusStep(e: Engine, db: Tables, x: Claimant, rotate: Option<int>, c: Choice)
    ensures MoveOf(e, db, BearerStatus(x.token, x.user, rotate), c, 0) ==
            Stay(AfterVerify(if ActiveUser(db, x.user) then Ok(x) else Err(CredentialRefused), rotate))
  {
  }

  lemma RowRead(e: Engine, db: Tables, link: string, now: Time)
    requires VerifyRow(e, db, link, now).Ok?
    ensures var x := VerifyRow(e, db, link, now).value;
            && e.bearerSecret != [] && OwnsToken(db, x.token, x.user)
            && ParseCapability(link).Some? && ParseCapability(link).value.id == x.token
  {
  }

  lemma OwnerStays(a: Tables, b: Tables, x: Claimant)
    requires Evolves(a, b) && OwnsToken(a, x.token, x.user)
    ensures OwnsToken(b, x.token, x.user)
  {
  }

  // `verify_bearer`
  method VerifyBearer(e: Engine, db: Database, link: string, ghost rotate: Option<int>)
    returns (r: Result<Claimant>, ghost path: Path, ghost now: Time)
    requires db.Valid()
    modifies db
    ensures db.Valid() && Evolves(old(db.Snapshot()), db.Snapshot())
    ensures Conducted(e, db.shared, old(db.Snapshot()), BearerRow(link, rotate), path, db.Snapshot(),
              AfterVerify(r, rotate))
    ensures r.Ok? ==> e.bearerSecret != [] && |path| == 2 && OwnsToken(db.Snapshot(), r.value.token, r.value.user)
                      && ParseCapability(link).Some? && ParseCapability(link).value.id == r.value.token
    ensures 0 < |path| <= 2 && now == path[0].choice.now
    ensures r.Err? ==> r.error == if e.bearerSecret == [] then BearerSecretNotConfigured else CredentialRefused
    ensures !db.shared ==>
              && db.Snapshot() == old(db.Snapshot())
              && Verify.VerifyBearer(e, db.Snapshot(), link, now) == PrincipalOf(r)
              && AnswersFor(e, old(db.Snapshot()), link, now, r)
  {
    hide MoveOf, Exec, Evolves, TablesOk, VerifyRow, ParseCapability, AnswersFor;
    ghost var from := db.Snapshot();
    assert Conducted(e, db.shared, from, BearerRow(link, rotate), [], from, BearerRow(link, rotate));
    hide Conducted;
    var c: Choice := *;
    now := c.now;
    db.Others();
    ghost var found := db.Snapshot();
    var row := BearerRowOf(e, db, link, c.now);
    ghost var q := AfterRow(row, rotate);
    RowStep(e, found, link, rotate, c);
    OneRead(e, db.shared, from, BearerRow(link, rotate), [], from, found, BearerRow(link, rotate), c, q);
    path := [] + [Moment(BearerRow(link, rotate), from, found, c)];
    if row.Err? {
      RowVerdict(e, found, link, c.now, row, Err(row.error));
      return Err(row.error), path, now;
    }
    RowRead(e, found, link, c.now);
    db.Others();
    r := if ActiveUser(db.Snapshot(), row.value.user) then row else Err(CredentialRefused);
    EvolvesTrans(from, found, db.Snapshot());
    OwnerStays(found, db.Snapshot(), row.value);
    StatusStep(e, db.Snapshot(), row.value, rotate, c);
    OneRead(e, db.shared, from, BearerRow(link, rotate), path, found, db.Snapshot(), q, c, AfterVerify(r, rotate));
    path := path + [Moment(q, found, db.Snapshot(), c)];
    if !db.shared {
      RowVerdict(e, found, link, c.now, row, r);
    }
  }

  // Both reads on the same tables accept exactly a good bearer's link.
  lemma RowVerdict(e: Engine, db: Tables, link: string, now: Time, row: Result<Claimant>, r: Result<Claimant>)
    requires TablesOk(db) && row == VerifyRow(e, db, link, now)
    requires r == if row.Ok? && !ActiveUser(db, row.value.user) then Err(CredentialRefused) else row
    ensures AnswersFor(e, db, link, now, r)
  {
    hide VerifyRow, Accepts, TablesOk, ActiveUser;
    forall t: Uuid, user: Uuid ensures r == Ok(Claimant(t, user)) <==> Accepts(e, db, link, now, t, user) {
      AcceptsIff(e, db, link, now, t, user);
    }
  }

  // The tests on the selected row, in the order they are made.
  method BearerRowOf(e: Engine, db: Database, link: string, now: Time) returns (r: Result<Claimant>)
    ensures r == VerifyRow(e, db.Snapshot(), link, now)
    ensures r.Err? ==> r.error == if e.bearerSecret == [] then BearerSecretNotConfigured else CredentialRefused
  {
    if e.bearerSecret == [] {
      return Err(BearerSecretNotConfigured);
    }
    var parts := ParseCapability(link);
    if parts.None? {
      return Err(CredentialRefused);
    }
    if !JoinedRow(db.Snapshot(), parts.value.id) {
      return Err(CredentialRefused);
    }
    var row := db.tokens[parts.value.id];
    var exp := Timestamp(row.expires);
    var expected := PreImage(BearerClaim(parts.value.id, row.nonce, row.user, exp));
    if !VerifyMac(e, e.bearerSecret, expected, parts.value.mac)
       || parts.value.nonce != row.nonce || parts.value.exp != exp {
      return Err(CredentialRefused);
    }
    if now > row.expires {
      return Err(CredentialRefused);
    }
    if row.status != TokenActive {
      return Err(CredentialRefused);
    }
    return Ok(Claimant(parts.value.id, row.user));
  }

  // ----- rotation ---------------------------------------------------------

  function AfterRotate(done: Commit, x: Claimant, id: Uuid, detail: string): Req {
    match done
    case Committed =>
      Audit(AuditRow(EvBearerRotated, Some(x.user), None, Some(x.token)), Done(Superseded(x.token, id, x.user)))
    case NoRow => Refuse(CredentialRefused)
    case Violated => Refuse(Db(detail))
  }

  lemma RotateStep(e: Engine, db: Tables, x: Claimant, ttl: int, c: Choice, done: Commit)
    requires InRange(Expiry(c.now, ttl))
    requires done == if !IsActiveToken(db, x.token) then NoRow
                     else if CanInsertToken(db, c.id, x.user, c.nonce) then Committed else Violated
    ensures var m := MoveOf(e, db, RotateTx(x.token, x.user, ttl), c, 0);
            && m.next == AfterRotate(done, x, c.id, c.detail)
            && Exec(db, m.stmt) == Exec(db, RotateToken(x.token, c.id, x.user, c.nonce, Expiry(c.now, ttl)))
  {
  }

  lemma RotateOutOfRange(e: Engine, db: Tables, x: Claimant, ttl: int, c: Choice)
    requires !InRange(Expiry(c.now, ttl))
    ensures MoveOf(e, db, RotateTx(x.token, x.user, ttl), c, 0) == Stay(Refuse(Internal(OutOfRange)))
  {
  }

  // What a committed rotation leaves behind.
  lemma RotationLeaves(e: Engine, db: Tables, x: Claimant, c: Choice, expires: Time)
    requires IsActiveToken(db, x.token) && CanInsertToken(db, c.id, x.user, c.nonce) && OwnsToken(db, x.token, x.user)
    ensures var db' := Exec(db, RotateToken(x.token, c.id, x.user, c.nonce, expires));
            && IsSuccessor(db', x.token, c.id, x.user)
            && LinkOf(e, db', c.id) == BearerLink(e, c.id, c.nonce, x.user, expires)
            && db'.tokens[c.id].expires == expires
  {
  }

  lemma SuccessorStays(e: Engine, a: Tables, b: Tables, x: Claimant, id: Uuid)
    requires Evolves(a, b) && IsSuccessor(a, x.token, id, x.user)
    ensures IsSuccessor(b, x.token, id, x.user) && id in b.tokens && LinkOf(e, b, id) == LinkOf(e, a, id)
    ensures b.tokens[id].expires == a.tokens[id].expires
  {
    LinkIsStable(e, a, b, id);
    assert TokenMoves(a.tokens[x.token], b.tokens[x.token]) && TokenMoves(a.tokens[id], b.tokens[id]);
  }

  // The old link is dead and the new one is good for its owner alone.
  lemma ExchangedLinks(e: Engine, db: Tables, link: string, x: Claimant, id: Uuid)
    requires TablesOk(db) && e.bearerSecret != [] && IsSuccessor(db, x.token, id, x.user)
    requires ParseCapability(link).Some? && ParseCapability(link).value.id == x.token
    ensures Refuses(e, db, link) && OpensAs(e, db, LinkOf(e, db, id).value, id)
  {
    hide TokensOk, UsersOk, InvitesOk, ParseCapability, LinkOf;
    SpentLink(e, db, link);
    StoredLink(e, db, id);
  }

  lemma RotationRows(db: Tables, x: Claimant, ttl: int, c: Choice)
    requires CanRotate(db, x.token, c.id, x.user, c.nonce)
    ensures var db' := Exec(db, RotateToken(x.token, c.id, x.user, c.nonce, Expiry(c.now, ttl)));
            var row := AuditRow(EvBearerRotated, Some(x.user), None, Some(x.token));
            BearerExchanged(db, db'.(trail := db'.trail + [row]), x.token, x.user, ttl, c)
  {
  }

  // The rotation after verification: the transaction and the row that
  // records it.
  method Exchange(
      e: Engine, db: Database, x: Claimant, ttl: int, ghost from: Tables, ghost start: Req, ghost path: Path)
    returns (r: Result<string>, ghost longer: Path, ghost id: Uuid)
    requires db.Valid() && e.bearerSecret != [] && OwnsToken(db.Snapshot(), x.token, x.user)
    requires Conducted(e, db.shared, from, start, path, db.Snapshot(), RotateTx(x.token, x.user, ttl))
    modifies db
    ensures db.Valid() && Evolves(old(db.Snapshot()), db.Snapshot())
    ensures Conducted(e, db.shared, from, start, longer, db.Snapshot(),
                      match r case Ok(_) => Done(Superseded(x.token, id, x.user)) case Err(error) => Refuse(error))
    ensures r.Ok? ==> IsSuccessor(db.Snapshot(), x.token, id, x.user) && LinkOf(e, db.Snapshot(), id) == Some(r.value)
    ensures |path| < |longer| && ExchangeSays(longer[|path|].found, x, ttl, longer[|path|].choice, r)
    ensures r.Ok? ==> id in db.tokens && db.tokens[id].expires == BearerUntil(longer[|path|].choice.now, ttl)
    ensures r.Err? ==> r.error == CredentialRefused || ServerSide(r.error)
    ensures path != [] ==> longer[0] == path[0]
    ensures !db.shared ==>
              && longer[|path|].found == old(db.Snapshot())
              && if r.Err? then db.Snapshot() == old(db.Snapshot())
                 else BearerExchanged(old(db.Snapshot()), db.Snapshot(), x.token, x.user, ttl, longer[|path|].choice)
  {
    hide MoveOf, Exec, Evolves, TablesOk, Conducted, IsSuccessor, NewToken, BearerExchanged;
    hide InRange, InTime, CanInsertToken, BearerLink, WellFormedNonce, LinkOf;
    ghost var left := db.Snapshot();
    ghost var q := RotateTx(x.token, x.user, ttl);
    var c: Choice := *;
    id := c.id;
    var expires := Expiry(c.now, ttl);
    db.Others();
    ghost var found := db.Snapshot();
    OwnerStays(left, found, x);
    longer := path + [Moment(q, left, found, c)];
    InTimeIff(expires);
    NewTokenIff(found, c.id, x.user, c.nonce);
    if !InRange(expires) {
      RotateOutOfRange(e, found, x, ttl, c);
      OneRead(e, db.shared, from, start, path, left, found, q, c, Refuse(Internal(OutOfRange)));
      return Err(Internal(OutOfRange)), longer, id;
    }
    NonceWellFormed(c.nonce);
    var done := db.RotateToken(x.token, c.id, x.user, c.nonce, expires);
    RotateStep(e, found, x, ttl, c, done);
    OneMore(e, db.shared, from, start, path, left, found, q, c, MoveOf(e, found, q, c, 0));
    ExecEvolves(found, RotateToken(x.token, c.id, x.user, c.nonce, expires));
    ghost var flipped := db.Snapshot();
    EvolvesTrans(left, found, flipped);
    if done != Committed {
      NoRotation(found, x.token, c.id, x.user, c.nonce, expires);
      return Err(if done.NoRow? then CredentialRefused else Db(c.detail)), longer, id;
    }
    RotationLeaves(e, found, x, c, expires);
    RotationRows(found, x, ttl, c);
    longer := Record(e, db, AuditRow(EvBearerRotated, Some(x.user), None, Some(x.token)), from, start, longer,
                     Done(Superseded(x.token, c.id, x.user)));
    EvolvesTrans(left, flipped, db.Snapshot());
    SuccessorStays(e, flipped, db.Snapshot(), x, c.id);
    r := Ok(BearerLink(e, c.id, c.nonce, x.user, expires).value);
  }

  lemma AcceptedOpen(e: Engine, db: Tables, link: string, now: Time, x: Claimant)
    ensures Accepts(e, db, link, now, x.token, x.user) ==>
              OpenBearer(db, x.token) && x.token in db.tokens && !NoBearer(e, db, link, now)
  {
  }

  // `rotate_bearer`
  method RotateBearer(e: Engine, db: Database, link: string, ttl: int)
    returns (r: Result<string>, ghost path: Path, ghost x: Claimant, ghost id: Uuid)
    requires db.Valid()
    modifies db
    ensures db.Valid() && Evolves(old(db.Snapshot()), db.Snapshot())
    ensures Conducted(e, db.shared, old(db.Snapshot()), BearerRow(link, Some(ttl)), path, db.Snapshot(),
                      match r case Ok(_) => Done(Superseded(x.token, id, x.user)) case Err(error) => Refuse(error))
    ensures r.Ok? ==>
              && IsSuccessor(db.Snapshot(), x.token, id, x.user) && LinkOf(e, db.Snapshot(), id) == Some(r.value)
              && Refuses(e, db.Snapshot(), link) && OpensAs(e, db.Snapshot(), r.value, id)
              && |path| > 2 && db.tokens[id].expires == BearerUntil(path[2].choice.now, ttl)
    ensures r.Err? ==> r.error == CredentialRefused || ServerSide(r.error)
    ensures e.bearerSecret == [] ==> r == Err(BearerSecretNotConfigured)
    ensures path != [] && if |path| > 2 then ExchangeSays(path[2].found, x, ttl, path[2].choice, r)
                          else r == Err(if e.bearerSecret == [] then BearerSecretNotConfigured else CredentialRefused)
    ensures !db.shared && NoBearer(e, old(db.Snapshot()), link, path[0].choice.now) ==>
              && r == Err(if e.bearerSecret == [] then BearerSecretNotConfigured else CredentialRefused)
              && db.Snapshot() == old(db.Snapshot())
    ensures !db.shared && !NoBearer(e, old(db.Snapshot()), link, path[0].choice.now) ==>
              && Accepts(e, old(db.Snapshot()), link, path[0].choice.now, x.token, x.user)
              && |path| > 2
              && var c := path[2].choice;
              && (r.Ok? <==> InTime(BearerUntil(c.now, ttl)) && NewToken(old(db.Snapshot()), c.id, x.user, c.nonce))
              && (r.Err? ==> r.error == if InTime(BearerUntil(c.now, ttl)) then Db(c.detail) else Internal(OutOfRange))
              && if r.Err? then db.Snapshot() == old(db.Snapshot())
                 else BearerExchanged(old(db.Snapshot()), db.Snapshot(), x.token, x.user, ttl, c)
  {
    hide MoveOf, Exec, Evolves, TablesOk, ParseCapability, Conducted, LinkOf, IsSuccessor, Refuses, OpensAs;
    hide NewToken, BearerExchanged, Accepts;
    ghost var from := db.Snapshot();
    id, x := 0, Claimant(0, 0);
    ghost var now;
    var v: Result<Claimant>;
    v, path, now := VerifyBearer(e, db, link, Some(ttl));
    if v.Err? {
      return Err(v.error), path, x, id;
    }
    x := v.value;
    ghost var verified := db.Snapshot();
    assert !db.shared ==> Accepts(e, from, link, now, x.token, x.user);
    AcceptedOpen(e, from, link, now, x);
    r, path, id := Exchange(e, db, v.value, ttl, from, BearerRow(link, Some(ttl)), path);
    EvolvesTrans(from, verified, db.Snapshot());
    if r.Ok? {
      ExchangedLinks(e, db.Snapshot(), link, v.value, id);
    }
  }

  // ----- minting ----------------------------------------------------------

  function MintedRow(user: Uuid, id: Uuid): AuditRow { AuditRow(EvBearerMinted, Some(user), None, Some(id)) }

  function Minting(user: Uuid, id: Uuid, via: Via): Req {
    var done := Done(Minted(user, id, via));
    if via.ByLogin? then Note(EvLoginSucceeded, Some(user), done) else done
  }

  lemma MintStep(e: Engine, db: Tables, user: Uuid, ttl: int, via: Via, c: Choice)
    requires e.bearerSecret != [] && InRange(Expiry(c.now, ttl))
    ensures var m := MoveOf(e, db, MintInsert(user, ttl, via), c, 0);
            && m.next == (if CanInsertToken(db, c.id, user, c.nonce)
                          then Audit(MintedRow(user, c.id), Minting(user, c.id, via)) else Refuse(Db(c.detail)))
            && Exec(db, m.stmt) == Exec(db, InsertToken(c.id, user, c.nonce, Expiry(c.now, ttl)))
  {
  }

  lemma MintRefused(e: Engine, db: Tables, user: Uuid, ttl: int, via: Via, c: Choice)
    requires e.bearerSecret == [] || !InRange(Expiry(c.now, ttl))
    ensures MoveOf(e, db, MintInsert(user, ttl, via), c, 0) ==
            Stay(Refuse(if e.bearerSecret == [] then BearerSecretNotConfigured else Internal(OutOfRange)))
  {
  }

  lemma MintLeaves(e: Engine, db: Tables, user: Uuid, ttl: int, c: Choice)
    ensures var expires := Expiry(c.now, ttl);
            var db' := Exec(db, InsertToken(c.id, user, c.nonce, expires));
            if CanInsertToken(db, c.id, user, c.nonce) then
              && OwnsToken(db', c.id, user) && LinkOf(e, db', c.id) == BearerLink(e, c.id, c.nonce, user, expires)
              && db'.tokens[c.id].expires == expires
              && db'.(trail := db'.trail + [MintedRow(user, c.id)]) == BearerAdded(db, user, ttl, c)
            else db' == db
  {
  }

  // The one verdict on a mint, in the terms of the rows.
  lemma MintVerdict(e: Engine, db: Tables, user: Uuid, ttl: int, c: Choice)
    ensures InTime(Expiry(c.now, ttl)) == InRange(Expiry(c.now, ttl))
    ensures MintFault(e, db, user, ttl, c) ==
            if e.bearerSecret == [] then Some(BearerSecretNotConfigured)
            else if !InRange(Expiry(c.now, ttl)) then Some(Internal(OutOfRange))
            else if !CanInsertToken(db, c.id, user, c.nonce) then Some(Db(c.detail))
            else None
    ensures MintFault(e, db, user, ttl, c).None? <==>
            e.bearerSecret != [] && user in db.users && InTime(BearerUntil(c.now, ttl)) && c.id !in db.tokens
            && forall t :: t in db.tokens ==> db.tokens[t].nonce != c.nonce
  {
    InTimeIff(Expiry(c.now, ttl));
    NewTokenIff(db, c.id, user, c.nonce);
  }

  lemma MintedLink(e: Engine, a: Tables, b: Tables, user: Uuid, id: Uuid)
    requires Evolves(a, b) && TablesOk(b) && e.bearerSecret != [] && OwnsToken(a, id, user)
    ensures OwnsToken(b, id, user) && LinkOf(e, b, id) == LinkOf(e, a, id)
    ensures b.tokens[id].expires == a.tokens[id].expires
    ensures OpensAs(e, b, LinkOf(e, b, id).value, id)
  {
    LinkIsStable(e, a, b, id);
    assert TokenMoves(a.tokens[id], b.tokens[id]);
    StoredLink(e, b, id);
  }

  // `mint_bearer`
  method MintBearer(e: Engine, db: Database, user: Uuid, ttl: int, ghost via: Via)
    returns (r: Result<string>, ghost path: Path, ghost id: Uuid)
    requires db.Valid()
    modifies db
    ensures db.Valid() && Evolves(old(db.Snapshot()), db.Snapshot())
    ensures Conducted(e, db.shared, old(db.Snapshot()), MintInsert(user, ttl, via), path, db.Snapshot(),
                      match r case Ok(_) => Minting(user, id, via) case Err(error) => Refuse(error))
    ensures r.Ok? ==> e.bearerSecret != [] && OwnsToken(db.Snapshot(), id, user)
                      && LinkOf(e, db.Snapshot(), id) == Some(r.value) && OpensAs(e, db.Snapshot(), r.value, id)
    ensures r.Err? ==> ServerSide(r.error)
    ensures path != [] && id == path[0].choice.id
            && match MintFault(e, path[0].found, user, ttl, path[0].choice)
               case None => r.Ok? && id in db.tokens && db.tokens[id].expires == BearerUntil(path[0].choice.now, ttl)
               case Some(error) => r == Err(error)
    ensures !db.shared ==>
              var c := path[0].choice;
              && path[0].found == old(db.Snapshot())
              && (r.Ok? <==>
                    && e.bearerSecret != [] && user in old(db.users) && InTime(BearerUntil(c.now, ttl))
                    && c.id !in old(db.tokens)
                    && forall t :: t in old(db.tokens) ==> old(db.tokens)[t].nonce != c.nonce)
              && db.Snapshot() == if r.Ok? then BearerAdded(old(db.Snapshot()), user, ttl, c)
                                  else old(db.Snapshot())
  {
    hide MoveOf, Exec, Evolves, TablesOk, Conducted, LinkOf, OpensAs, Minting, OwnsToken;
    hide MintFault, BearerAdded, CanInsertToken, InRange, InTime;
    ghost var from := db.Snapshot();
    ghost var q := MintInsert(user, ttl, via);
    Start(e, db.shared, from, q);
    var c: Choice := *;
    id := c.id;
    db.Others();
    ghost var found := db.Snapshot();
    var expires := Expiry(c.now, ttl);
    path := [Moment(q, from, found, c)];
    assert [] + path == path;
    MintVerdict(e, found, user, ttl, c);
    if e.bearerSecret == [] || !InRange(expires) {
      MintRefused(e, found, user, ttl, via, c);
      r := Err(if e.bearerSecret == [] then BearerSecretNotConfigured else Internal(OutOfRange));
      OneRead(e, db.shared, from, q, [], from, found, q, c, Refuse(r.error));
      return r, path, id;
    }
    NonceWellFormed(c.nonce);
    var inserted := db.InsertToken(c.id, user, c.nonce, expires);
    MintStep(e, found, user, ttl, via, c);
    OneMore(e, db.shared, from, q, [], from, found, q, c, MoveOf(e, found, q, c, 0));
    MintLeaves(e, found, user, ttl, c);
    if !inserted {
      return Err(Db(c.detail)), path, id;
    }
    ExecEvolves(found, InsertToken(c.id, user, c.nonce, expires));
    ghost var minted := db.Snapshot();
    EvolvesTrans(from, found, minted);
    path := Record(e, db, MintedRow(user, c.id), from, q, path, Minting(user, c.id, via));
    EvolvesTrans(from, minted, db.Snapshot());
    MintedLink(e, minted, db.Snapshot(), user, c.id);
    r := Ok(BearerLink(e, c.id, c.nonce, user, expires).value);
  }

  // ----- revocation -------------------------------------------------------

  lemma RevokeOneStep(e: Engine, db: Tables, token: Uuid, c: Choice)
    ensures var m := MoveOf(e, db, RevokeOne(token), c, 0);
            && Exec(db, m.stmt) == Exec(db, RevokeTokens({token}))
            && m.next == if !IsActiveToken(db, token) then Refuse(NotFound(LiveBearer(token)))
                         else Audit(AuditRow(EvBearerRevoked, Some(db.tokens[token].user), None, Some(token)),
                             Done(Finished))
  {
    if !IsActiveToken(db, token) {
      assert TokensRevoked(db.tokens, {token}) == db.tokens;
    }
  }

  lemma RevokedOne(db: Tables, token: Uuid)
    ensures var db' := Exec(db, RevokeTokens({token}));
            if IsActiveToken(db, token) then
              ActiveAmong(db, {token}) == {token} && token in db'.tokens && db'.tokens[token].status == TokenRevoked
              && db'.tokens[token].user == db.tokens[token].user
              && BearerRevoked(db, db'.(trail := db'.trail + [
                                 AuditRow(EvBearerRevoked, Some(db.tokens[token].user), None, Some(token))]), token)
            else ActiveAmong(db, {token}) == {} && db' == db
  {
    if !IsActiveToken(db, token) {
      assert TokensRevoked(db.tokens, {token}) == db.tokens;
    } else {
      assert TokensRevoked(db.tokens, {token}) == db.tokens[token := db.tokens[token].(status := TokenRevoked)];
    }
  }

  lemma RevokedStays(e: Engine, a: Tables, b: Tables, token: Uuid, link: string)
    requires Evolves(a, b) && token in a.tokens && a.tokens[token].status == TokenRevoked
    requires ParseCapability(link).Some? && ParseCapability(link).value.id == token
    ensures Refuses(e, b, link)
  {
    SpentLink(e, b, link);
  }

  // `revoke_bearer`
  method RevokeBearer(e: Engine, db: Database, token: Uuid) returns (r: Result<()>, ghost path: Path)
    requires db.Valid()
    modifies db
    ensures db.Valid() && Evolves(old(db.Snapshot()), db.Snapshot())
    ensures Conducted(e, db.shared, old(db.Snapshot()), RevokeOne(token), path, db.Snapshot(),
                      match r case Ok(_) => Done(Finished) case Err(error) => Refuse(error))
    ensures r.Ok? ==> forall link :: ParseCapability(link).Some? && ParseCapability(link).value.id == token ==>
                                     Refuses(e, db.Snapshot(), link)
    ensures path != [] && (r.Ok? <==> OpenBearer(path[0].found, token))
            && (r.Err? ==> r.error == NotFound(LiveBearer(token)))
    ensures !db.shared ==>
              && path[0].found == old(db.Snapshot())
              && if r.Ok? then BearerRevoked(old(db.Snapshot()), db.Snapshot(), token)
                 else db.Snapshot() == old(db.Snapshot())
  {
    hide MoveOf, Exec, Evolves, TablesOk, Conducted, ParseCapability, Refuses, ActiveAmong, BearerRevoked;
    ghost var from := db.Snapshot();
    ghost var q := RevokeOne(token);
    Start(e, db.shared, from, q);
    ghost var c: Choice := *;
    db.Others();
    ghost var found := db.Snapshot();
    var n := db.RevokeTokens({token});
    RevokeOneStep(e, found, token, c);
    RevokedOne(found, token);
    OneMore(e, db.shared, from, q, [], from, found, q, c, MoveOf(e, found, q, c, 0));
    path := [Moment(q, from, found, c)];
    assert [] + path == path;
    ExecEvolves(found, RevokeTokens({token}));
    ghost var revoked := db.Snapshot();
    EvolvesTrans(from, found, revoked);
    if n == 0 {
      return Err(NotFound(LiveBearer(token))), path;
    }
    path := Record(e, db, AuditRow(EvBearerRevoked, Some(db.tokens[token].user), None, Some(token)),
                   from, q, path, Done(Finished));
    EvolvesTrans(from, revoked, db.Snapshot());
    forall link | ParseCapability(link).Some? && ParseCapability(link).value.id == token
      ensures Refuses(e, db.Snapshot(), link)
    {
      RevokedStays(e, revoked, db.Snapshot(), token, link);
    }
    r := Ok(());
  }

  function AfterSweep(sweep: Sweep): Req {
    if sweep.Alone? then Done(Finished) else SweepInvites(sweep.email, sweep)
  }

  lemma SweepSteps(e: Engine, db: Tables, user: Uuid, rows: set<Uuid>, sweep: Sweep, c: Choice)
    ensures MoveOf(e, db, SweepTokens(user, sweep), c, 0)
              == Stay(SweepTokensRows(user, ActiveTokensOf(db, user), sweep))
    ensures var m := MoveOf(e, db, SweepTokensRows(user, rows, sweep), c, 0);
            && m.stmt == RevokeTokens(rows)
            && m.next == if ActiveAmong(db, rows) == {} then AfterSweep(sweep)
                         else Note(EvBearerRevoked, Some(user), AfterSweep(sweep))
  {
    assert (exists t :: t in rows && IsActiveToken(db, t)) <==> ActiveAmong(db, rows) != {} by {
      if t :| t in rows && IsActiveToken(db, t) {
        assert t in ActiveAmong(db, rows);
      }
    }
  }

  lemma SweptTokens(db: Tables, user: Uuid)
    ensures var rows := ActiveTokensOf(db, user);
            var db' := Exec(db, RevokeTokens(rows));
            && ActiveAmong(db, rows) == rows && ActiveTokensOf(db', user) == {}
            && db' == db.(tokens := TokensRevoked(db.tokens, rows))
  {
  }

  lemma NobodyLeft(s: set<Uuid>)
    ensures |s| == 0 <==> s == {}
  {
  }

  // `revoke_all_bearers`
  method RevokeAllBearers(e: Engine, db: Database, user: Uuid, ghost sweep: Sweep)
    returns (n: nat, ghost path: Path)
    requires db.Valid()
    modifies db
    ensures db.Valid() && Evolves(old(db.Snapshot()), db.Snapshot())
    ensures Conducted(e, db.shared, old(db.Snapshot()), SweepTokens(user, sweep), path, db.Snapshot(),
              AfterSweep(sweep))
    ensures !db.shared ==>
              && n == |OpenBearersOf(old(db.Snapshot()), user)| && OpenBearersOf(db.Snapshot(), user) == {}
              && db.Snapshot() == BearersSwept(old(db.Snapshot()), user)
  {
    hide MoveOf, Exec, Evolves, TablesOk, Conducted, ActiveAmong, ActiveTokensOf, TokensRevoked, AfterSweep;
    hide OpenBearersOf, BearersCut;
    ghost var from := db.Snapshot();
    ghost var q := SweepTokens(user, sweep);
    Start(e, db.shared, from, q);
    ghost var c: Choice := *;
    db.Others();
    ghost var seen := db.Snapshot();
    var rows := ActiveTokensOf(db.Snapshot(), user);
    SweepSteps(e, seen, user, {}, sweep, c);
    OneRead(e, db.shared, from, q, [], from, seen, q, c, SweepTokensRows(user, rows, sweep));
    path := [] + [Moment(q, from, seen, c)];
    db.Others();
    ghost var found := db.Snapshot();
    EvolvesTrans(from, seen, found);
    n := db.RevokeTokens(rows);
    SweepSteps(e, found, user, rows, sweep, c);
    SweptTokens(seen, user);
    OneMore(e, db.shared, from, q, path, seen, found, SweepTokensRows(user, rows, sweep), c,
            MoveOf(e, found, SweepTokensRows(user, rows, sweep), c, 0));
    path := path + [Moment(SweepTokensRows(user, rows, sweep), seen, found, c)];
    ExecEvolves(found, RevokeTokens(rows));
    ghost var swept := db.Snapshot();
    EvolvesTrans(from, found, swept);
    NobodyLeft(ActiveAmong(found, rows));
    OpenBearersIff(seen, user);
    OpenBearersIff(swept, user);
    if n > 0 {
      path := Record(e, db, AuditRow(EvBearerRevoked, Some(user), None, None), from, q, path, AfterSweep(sweep));
      EvolvesTrans(from, swept, db.Snapshot());
      SameTokens(swept, db.Snapshot(), user);
      OpenBearersIff(db.Snapshot(), user);
    }
  }

  lemma SameTokens(a: Tables, b: Tables, user: Uuid)
    ensures a.tokens == b.tokens ==> ActiveTokensOf(a, user) == ActiveTokensOf(b, user)
  {
    if a.tokens == b.tokens {
      assert forall t :: IsActiveToken(a, t) <==> IsActiveToken(b, t);
    }
  }
}
