// Login, signup and the revocation of access: the verbs that share one
// attempt book.
module AccessService {
  import opened Prelude
  import opened Text
  import opened Links
  import opened Throttle
  import opened Schema
  import opened Verify
  import opened Protocol
  import opened Database
  import opened Conduct
  import opened Rows
  import TokenService
  import InviteService
  import PolicyService

  // ----- the two counters -------------------------------------------------

  function IdentityKey(email: string): string { "portal|id:" + NormalizeEmail(email) }

  function IpKey(ip: string): string { "portal|ip:" + ip }

  // No identity key is an address key, every spelling of one email has the
  // same key, and different normal forms have different ones.
  lemma KeysApart(email: string, other: string, ip: string, ip': string)
    ensures IdentityKey(email) != IpKey(ip)
    ensures IdentityKey(email) == IdentityKey(other) <==> NormalizeEmail(email) == NormalizeEmail(other)
    ensures IdentityKey(NormalizeEmail(email)) == IdentityKey(email)
    ensures IpKey(ip) == IpKey(ip') <==> ip == ip'
  {
    NormalizeIdempotent(email);
    assert IdentityKey(email)[8] == 'd' && IpKey(ip)[8] == 'p';
    assert IpKey(ip)[10..] == ip && IpKey(ip')[10..] == ip';
    assert IdentityKey(email)[10..] == NormalizeEmail(email) && IdentityKey(other)[10..] == NormalizeEmail(other);
  }

  // Both counters are asked, the identity first.
  function GateOf(log: seq<Event>, idKey: string, ipKey: string, now: Time, next: Time): Admission {
    var first := Verdict(Since(log, idKey), now);
    if first.RateLimited? then first else Verdict(Since(log, ipKey), next)
  }

  method Gate(book: AttemptBook, idKey: string, ipKey: string, now: Time, next: Time) returns (r: Admission)
    requires book.Valid()
    ensures r == GateOf(book.log, idKey, ipKey, now, next)
    ensures r.Admitted? <==>
            Verdict(Since(book.log, idKey), now).Admitted? && Verdict(Since(book.log, ipKey), next).Admitted?
    ensures r.RateLimited? ==>
              r == if Verdict(Since(book.log, idKey), now).RateLimited? then Verdict(Since(book.log, idKey), now)
                   else Verdict(Since(book.log, ipKey), next)
  {
    r := book.Check(idKey, now);
    if r.Admitted? {
      r := book.Check(ipKey, next);
    }
  }

  // Both counters are charged.
  method Charge(book: AttemptBook, idKey: string, ipKey: string) returns (ghost more: seq<Event>)
    requires book.Valid()
    modifies book
    ensures book.Valid() && book.log == old(book.log) + more && Charged(more, idKey, ipKey)
  {
    var first: Time, second: Time := *, *;
    book.RegisterFailure(idKey, first);
    book.RegisterFailure(ipKey, second);
    more := [Failed(idKey, first), Failed(ipKey, second)];
  }

  predicate Charged(more: seq<Event>, idKey: string, ipKey: string) {
    |more| == 2 && more[0].Failed? && more[0].key == idKey && more[1].Failed? && more[1].key == ipKey
  }

  // What a call did to the book: charged both counters, forgave both, or
  // left them alone.
  predicate OnBook(r: Result<(Uuid, string)>, more: seq<Event>, idKey: string, ipKey: string) {
    match r
    case Ok(_) => more == [WasReset(idKey), WasReset(ipKey)]
    case Err(error) =>
      if error == InvalidCredentials then Charged(more, idKey, ipKey)
      else if error.TooManyAttempts? || error == CredentialPortNotComposed then more == []
      else more == [] || more == [WasReset(idKey), WasReset(ipKey)]
  }

  // ----- login ------------------------------------------------------------

  // The outcome of the lookup and the status gate.
  function AfterLookup(db: Tables, email: string, found: Option<Uuid>): Req {
    if found.None? then Note(EvLoginRefused, None, Refuse(InvalidCredentials))
    else if found.value in db.users && db.users[found.value].status == Active then LoginCheck(found.value, email)
    else Note(EvLoginRefused, found, Refuse(InvalidCredentials))
  }

  predicate IsLookup(db: Tables, email: string, found: Option<Uuid>) {
    match found
    case Some(u) => LiveAt(db, u, email)
    case None => EmailFree(db, email)
  }

  lemma ThrottledStep(e: Engine, db: Tables, email: string, c: Choice)
    requires c.throttled.Some?
    ensures MoveOf(e, db, LoginRow(email), c, 0) == Stay(Refuse(TooManyAttempts(c.throttled.value)))
  {
  }

  lemma LookupStep(e: Engine, db: Tables, email: string, c: Choice, found: Option<Uuid>)
    requires c.throttled.None? && IsLookup(db, email, found) && (found.Some? ==> c.pick == found.value)
    ensures MoveOf(e, db, LoginRow(email), c, 0) == Stay(AfterLookup(db, email, found))
  {
  }

  function AfterAnswer(answer: Answer, user: Uuid, email: string): Req {
    match answer
    case Verified => MintInsert(user, DEFAULT_BEARER_TTL_HOURS, ByLogin(email))
    case Wrong => Note(EvLoginRefused, Some(user), Refuse(InvalidCredentials))
    case Faulty(detail) => Refuse(Internal(VerifierFailed(detail)))
    case Unwired => Note(EvPortNotComposed, Some(user), Refuse(CredentialPortNotComposed))
  }

  lemma AnswerStep(e: Engine, db: Tables, user: Uuid, email: string, c: Choice)
    ensures MoveOf(e, db, LoginCheck(user, email), c, 0) == Stay(AfterAnswer(c.answer, user, email))
  {
  }

  // The refusals after the lookup charge both counters and leave one row.
  method RefuseLogin(
      e: Engine, db: Database, book: AttemptBook, user: Option<Uuid>, idKey: string, ipKey: string,
      ghost from: Tables, ghost start: Req, ghost path: Path)
    returns (ghost longer: Path, ghost more: seq<Event>)
    requires db.Valid() && book.Valid()
    requires Conducted(e, db.shared, from, start, path, db.Snapshot(),
              Note(EvLoginRefused, user, Refuse(InvalidCredentials)))
    modifies db, book
    ensures db.Valid() && book.Valid() && Evolves(old(db.Snapshot()), db.Snapshot())
    ensures Conducted(e, db.shared, from, start, longer, db.Snapshot(), Refuse(InvalidCredentials))
    ensures book.log == old(book.log) + more && Charged(more, idKey, ipKey)
    ensures !db.shared ==>
              db.Snapshot() == old(db.Snapshot()).(
                trail := old(db.trail) + [AuditRow(EvLoginRefused, user, None, None)])
  {
    hide MoveOf, Exec, Evolves, TablesOk, Conducted, Since, EntryOf;
    more := Charge(book, idKey, ipKey);
    longer := TokenService.Record(e, db, AuditRow(EvLoginRefused, user, None, None), from, start, path,
                                  Refuse(InvalidCredentials));
  }

  lemma StayedPut(db: Tables, shared: bool)
    requires TablesOk(db)
    ensures Passes(shared, db, db)
  {
    EvolvesRefl(db);
  }

  // The row a principal is found by, up to the status gate.
  method FindPrincipal(e: Engine, db: Database, email: string)
    returns (found: Option<Uuid>, active: bool, ghost path: Path)
    requires db.Valid()
    modifies db
    ensures db.Valid() && Passes(db.shared, old(db.Snapshot()), db.Snapshot())
    ensures Conducted(e, db.shared, old(db.Snapshot()), LoginRow(email), path, db.Snapshot(),
              AfterLookup(db.Snapshot(), email, found))
    ensures IsLookup(db.Snapshot(), email, found)
    ensures active == (found.Some? && found.value in db.users && db.users[found.value].status == Active)
    ensures |path| == 1
  {
    hide MoveOf, Exec, Evolves, TablesOk, Conducted;
    ghost var from := db.Snapshot();
    ghost var q := LoginRow(email);
    Start(e, db.shared, from, q);
    ghost var c: Choice := *;
    c := c.(throttled := None);
    db.Others();
    found := db.LiveUserByEmail(email);
    active := found.Some? && db.users[found.value].status == Active;
    if found.Some? {
      c := c.(pick := found.value);
    }
    path := [] + [Moment(q, from, db.Snapshot(), c)];
    LookupStep(e, db.Snapshot(), email, c, found);
    OneRead(e, db.shared, from, q, [], from, db.Snapshot(), q, c, AfterLookup(db.Snapshot(), email, found));
  }

  // Where a login ends.
  function LoginEnd(r: Result<(Uuid, string)>, token: Uuid, email: string): Req {
    match r
    case Ok(x) => Done(Minted(x.0, token, ByLogin(email)))
    case Err(error) => Refuse(error)
  }

  // After a verified credential: both counters are forgiven and a bearer is
  // minted.
  method Admit(
      e: Engine, db: Database, book: AttemptBook, user: Uuid, ghost email: string, idKey: string, ipKey: string,
      ghost from: Tables, ghost start: Req, ghost path: Path)
    returns (r: Result<(Uuid, string)>, ghost longer: Path, ghost token: Uuid)
    requires db.Valid() && book.Valid()
    requires Conducted(e, db.shared, from, start, path, db.Snapshot(),
              MintInsert(user, DEFAULT_BEARER_TTL_HOURS, ByLogin(email)))
    modifies db, book
    ensures db.Valid() && book.Valid() && Evolves(old(db.Snapshot()), db.Snapshot())
    ensures book.log == old(book.log) + [WasReset(idKey), WasReset(ipKey)]
    ensures Conducted(e, db.shared, from, start, longer, db.Snapshot(), LoginEnd(r, token, email))
    ensures r.Ok? ==> r.value.0 == user && OwnsToken(db.Snapshot(), token, user)
                      && OpensAs(e, db.Snapshot(), r.value.1, token)
    ensures r.Err? ==> ServerSide(r.error)
    ensures |path| < |longer|
            && match MintFault(e, longer[|path|].found, user, 24, longer[|path|].choice)
               case None => r.Ok?
               case Some(error) => r == Err(error)
    ensures !db.shared ==>
              LoginMints(e, old(db.Snapshot()), db.Snapshot(), user, longer[|path|].choice, r)
  {
    hide MoveOf, Exec, Evolves, TablesOk, Conducted, OpensAs, OwnsToken, LinkOf, Since, EntryOf;
    hide MintFault, BearerAdded;
    ghost var found := db.Snapshot();
    book.Reset(idKey);
    book.Reset(ipKey);
    var bearer: Result<string>;
    bearer, longer, token := TokenService.MintBearer(e, db, user, DEFAULT_BEARER_TTL_HOURS, ByLogin(email));
    ghost var q := MintInsert(user, DEFAULT_BEARER_TTL_HOURS, ByLogin(email));
    ghost var minted := db.Snapshot();
    ghost var done := Done(Minted(user, token, ByLogin(email)));
    ghost var next := match bearer
      case Ok(_) => Note(EvLoginSucceeded, Some(user), done)
      case Err(error) => Refuse(error);
    Joined(e, db.shared, from, start, path, found, q, longer, minted, next);
    longer := path + longer;
    if bearer.Err? {
      return Err(bearer.error), longer, token;
    }
    longer := TokenService.Record(e, db, AuditRow(EvLoginSucceeded, Some(user), None, None), from, start, longer, done);
    EvolvesTrans(found, minted, db.Snapshot());
    GoodLinkStays(e, minted, db.Snapshot(), user, token, bearer.value);
    r := Ok((user, bearer.value));
  }

  lemma GoodLinkStays(e: Engine, a: Tables, b: Tables, user: Uuid, token: Uuid, link: string)
    requires Evolves(a, b) && TablesOk(b) && OwnsToken(a, token, user)
    requires e.bearerSecret != [] && LinkOf(e, a, token) == Some(link)
    ensures OwnsToken(b, token, user) && LinkOf(e, b, token) == Some(link) && OpensAs(e, b, link, token)
  {
    TokenService.MintedLink(e, a, b, user, token);
  }

  // What a gate refusal says, and nothing else does.
  predicate GateSays(gate: Admission, r: Result<(Uuid, string)>) {
    match gate
    case RateLimited(seconds) => r == Err(TooManyAttempts(seconds))
    case Admitted => r.Ok? || !r.error.TooManyAttempts?
  }

  // The credential check of an active principal, and what follows from it.
  method CheckAndMint(
      e: Engine, db: Database, book: AttemptBook, user: Uuid, ghost email: string, answer: Answer,
      idKey: string, ipKey: string,
      ghost from: Tables, ghost start: Req, ghost path: Path)
    returns (r: Result<(Uuid, string)>, ghost longer: Path, ghost token: Uuid, ghost more: seq<Event>)
    requires db.Valid() && book.Valid()
    requires Conducted(e, db.shared, from, start, path, db.Snapshot(), LoginCheck(user, email))
    modifies db, book
    ensures db.Valid() && book.Valid() && Evolves(old(db.Snapshot()), db.Snapshot())
    ensures Conducted(e, db.shared, from, start, longer, db.Snapshot(), LoginEnd(r, token, email))
    ensures book.log == old(book.log) + more && OnBook(r, more, idKey, ipKey) && GateSays(Admitted, r)
    ensures r.Ok? ==> answer == Verified && r.value.0 == user
                      && OwnsToken(db.Snapshot(), token, user) && OpensAs(e, db.Snapshot(), r.value.1, token)
    ensures !db.shared ==>
              CredentialSays(e, old(db.Snapshot()), db.Snapshot(), user, answer, ChoiceAt(longer, |path| + 1), r)
  {
    hide MoveOf, Exec, Evolves, TablesOk, Conducted, OpensAs, OwnsToken, Since, EntryOf, LoginMints, MintFault;
    ghost var left := db.Snapshot();
    ghost var c: Choice := *;
    c := c.(answer := answer);
    StayedPut(left, db.shared);
    AnswerStep(e, left, user, email, c);
    OneRead(e, db.shared, from, start, path, left, left, LoginCheck(user, email), c, AfterAnswer(answer, user, email));
    longer := path + [Moment(LoginCheck(user, email), left, left, c)];
    EvolvesRefl(left);
    token, more := 0, [];
    match answer
    case Wrong =>
      longer, more := RefuseLogin(e, db, book, Some(user), idKey, ipKey, from, start, longer);
      r := Err(InvalidCredentials);
    case Faulty(detail) =>
      r := Err(Internal(VerifierFailed(detail)));
    case Unwired =>
      longer := TokenService.Record(e, db, AuditRow(EvPortNotComposed, Some(user), None, None), from, start, longer,
                                    Refuse(CredentialPortNotComposed));
      r := Err(CredentialPortNotComposed);
    case Verified =>
      more := [WasReset(idKey), WasReset(ipKey)];
      r, longer, token := Admit(e, db, book, user, email, idKey, ipKey, from, start, longer);
  }

  lemma FoundActive(db: Tables, email: string, found: Option<Uuid>)
    requires IsLookup(db, email, found) && found.Some? && db.users[found.value].status == Active
    ensures ActiveUser(db, found.value) && db.users[found.value].email == email
    ensures AfterLookup(db, email, found) == LoginCheck(found.value, email)
  {
  }

  lemma EmailStays(a: Tables, b: Tables, user: Uuid)
    requires Evolves(a, b) && user in a.users
    ensures user in b.users && b.users[user].email == a.users[user].email
  {
  }

  // `verify_and_mint`: the gate, the principal, the status, the credential.
  // Every refusal after the gate that could tell them apart is the same one.
  method VerifyAndMint(e: Engine, db: Database, book: AttemptBook, email: string, ip: string, answer: Answer)
    returns (r: Result<(Uuid, string)>, ghost path: Path, ghost token: Uuid, ghost more: seq<Event>, ghost now: Time)
    requires db.Valid() && book.Valid()
    modifies db, book
    ensures db.Valid() && book.Valid() && Evolves(old(db.Snapshot()), db.Snapshot())
    ensures Conducted(e, db.shared, old(db.Snapshot()), LoginRow(email), path, db.Snapshot(), LoginEnd(r, token, email))
    ensures book.log == old(book.log) + more && OnBook(r, more, IdentityKey(email), IpKey(ip))
    ensures GateSays(GateOf(old(book.log), IdentityKey(email), IpKey(ip), now, now), r)
    ensures r.Ok? ==> answer == Verified && r.value.0 in db.users && db.users[r.value.0].email == email
                      && OwnsToken(db.Snapshot(), token, r.value.0) && OpensAs(e, db.Snapshot(), r.value.1, token)
    ensures !db.shared ==>
              if GateOf(old(book.log), IdentityKey(email), IpKey(ip), now, now).RateLimited? then
                db.Snapshot() == old(db.Snapshot())
              else LoginSays(e, old(db.Snapshot()), db.Snapshot(), email, answer, ChoiceAt(path, 2), r)
  {
    hide MoveOf, Exec, Evolves, TablesOk, Conducted, OpensAs, OwnsToken, Since, EntryOf, GateOf, IdentityKey;
    hide AfterLookup, CredentialSays, LoginSays;
    ghost var from := db.Snapshot();
    token, more := 0, [];
    var idKey, ipKey := IdentityKey(email), IpKey(ip);
    var clock: Time := *;
    now := clock;
    var gate := Gate(book, idKey, ipKey, clock, clock);
    if gate.RateLimited? {
      path := Turned(e, db, email, gate.retryAfterSeconds);
      return Err(TooManyAttempts(gate.retryAfterSeconds)), path, token, more, now;
    }
    var found, active;
    found, active, path := FindPrincipal(e, db, email);
    ghost var seen := db.Snapshot();
    if !active {
      assert AfterLookup(seen, email, found) == Note(EvLoginRefused, found, Refuse(InvalidCredentials)) by {
        NotActive(seen, email, found);
      }
      path, more := RefuseLogin(e, db, book, found, idKey, ipKey, from, LoginRow(email), path);
      r := Err(InvalidCredentials);
      if !db.shared {
        RefusedRows(e, from, email, found, answer, ChoiceAt(path, 2));
      }
    } else {
      FoundActive(seen, email, found);
      r, path, token, more := CheckAndMint(e, db, book, found.value, email, answer, idKey, ipKey, from,
          LoginRow(email), path);
      EmailStays(seen, db.Snapshot(), found.value);
      if !db.shared {
        CheckedRows(e, from, db.Snapshot(), email, found.value, answer, ChoiceAt(path, 2), r);
      }
    }
    EvolvesTrans(from, seen, db.Snapshot());
  }

  lemma Finds(db: Tables, email: string, found: Option<Uuid>)
    requires IsLookup(db, email, found)
    ensures LooksUp(db, email, found)
  {
    NewUserIff(db, 0, email);
  }

  // Whoever is live at an email is the only one.
  lemma OnlyOne(db: Tables, email: string, found: Option<Uuid>, u: Uuid)
    requires TablesOk(db) && IsLookup(db, email, found) && u in db.users
    requires db.users[u].email == email && !db.users[u].deleted
    ensures found == Some(u)
  {
    hide NormalizeEmail, TokensOk, InvitesOk;
    assert LiveRow(db.users, u) && LiveAt(db, u, email);
    if found.Some? {
      assert LiveRow(db.users, found.value);
    }
  }

  lemma RefusedRows(e: Engine, db: Tables, email: string, found: Option<Uuid>, answer: Answer, mint: Option<Choice>)
    requires TablesOk(db) && IsLookup(db, email, found)
    requires !(found.Some? && db.users[found.value].status == Active)
    ensures LoginSays(e, db, Noted(db, EvLoginRefused, found), email, answer, mint, Err(InvalidCredentials))
  {
    hide TablesOk, CredentialSays, Noted;
    Finds(db, email, found);
    forall u: Uuid ensures !StandsAt(db, u, email) {
      if StandsAt(db, u, email) {
        OnlyOne(db, email, found, u);
      }
    }
  }

  lemma CheckedRows(
      e: Engine, db: Tables, db': Tables, email: string, user: Uuid, answer: Answer, mint: Option<Choice>,
      r: Result<(Uuid, string)>)
    requires TablesOk(db) && IsLookup(db, email, Some(user)) && db.users[user].status == Active
    requires CredentialSays(e, db, db', user, answer, mint, r)
    ensures LoginSays(e, db, db', email, answer, mint, r)
  {
    hide TablesOk, CredentialSays;
    forall u: Uuid | StandsAt(db, u, email) ensures u == user {
      OnlyOne(db, email, Some(user), u);
    }
    assert StandsAt(db, user, email);
  }

  lemma NotActive(db: Tables, email: string, found: Option<Uuid>)
    requires IsLookup(db, email, found) && (found.Some? ==> db.users[found.value].status != Active)
    ensures AfterLookup(db, email, found) == Note(EvLoginRefused, found, Refuse(InvalidCredentials))
  {
  }

  // A throttled attempt reads nothing and writes nothing.
  ghost method Turned(e: Engine, db: Database, email: string, seconds: int) returns (path: Path)
    requires db.Valid()
    ensures Conducted(e, db.shared, db.Snapshot(), LoginRow(email), path, db.Snapshot(),
              Refuse(TooManyAttempts(seconds)))
    ensures Evolves(db.Snapshot(), db.Snapshot())
  {
    hide MoveOf, Exec, Evolves, TablesOk, Conducted;
    var a := db.Snapshot();
    var c: Choice := *;
    c := c.(throttled := Some(seconds));
    Start(e, db.shared, a, LoginRow(email));
    StayedPut(a, db.shared);
    EvolvesRefl(a);
    ThrottledStep(e, a, email, c);
    OneRead(e, db.shared, a, LoginRow(email), [], a, a, LoginRow(email), c, Refuse(TooManyAttempts(seconds)));
    path := [] + [Moment(LoginRow(email), a, a, c)];
  }

  lemma LoginEntry(address: string)
    ensures Enter(CallLogin(address)) ==
            if NormalizeEmail(address) == "" then Refuse(InvalidCredentials) else LoginRow(NormalizeEmail(address))
  {
    hide NormalizeEmail, ParseUuid, Utf8Length;
  }

  // `login`
  method Login(e: Engine, db: Database, book: AttemptBook, address: string, ip: string, answer: Answer)
    returns (r: Result<(Uuid, string)>, ghost path: Path, ghost token: Uuid, ghost more: seq<Event>, ghost now: Time)
    requires db.Valid() && book.Valid()
    modifies db, book
    ensures db.Valid() && book.Valid() && Evolves(old(db.Snapshot()), db.Snapshot())
    ensures Conducted(e, db.shared, old(db.Snapshot()), Enter(CallLogin(address)), path, db.Snapshot(),
                      LoginEnd(r, token, NormalizeEmail(address)))
    ensures book.log == old(book.log) + more
    ensures if NormalizeEmail(address) == "" then r == Err(InvalidCredentials) && more == []
            else OnBook(r, more, IdentityKey(address), IpKey(ip))
                 && GateSays(GateOf(old(book.log), IdentityKey(address), IpKey(ip), now, now), r)
    ensures r.Ok? ==> answer == Verified
                      && r.value.0 in db.users && db.users[r.value.0].email == NormalizeEmail(address)
                      && OwnsToken(db.Snapshot(), token, r.value.0) && OpensAs(e, db.Snapshot(), r.value.1, token)
    ensures !db.shared ==>
              if NormalizeEmail(address) == ""
                 || GateOf(old(book.log), IdentityKey(address), IpKey(ip), now, now).RateLimited? then
                db.Snapshot() == old(db.Snapshot())
              else
                LoginSays(e, old(db.Snapshot()), db.Snapshot(), NormalizeEmail(address), answer, ChoiceAt(path, 2), r)
    ensures !db.shared && GateOf(old(book.log), IdentityKey(address), IpKey(ip), now, now).Admitted?
            && e.bearerSecret != [] && answer == Verified && NormalizeEmail(address) != ""
            && (exists u: Uuid :: StandsAt(old(db.Snapshot()), u, NormalizeEmail(address))) ==>
                && |path| > 2
                && var c := path[2].choice;
                r.Ok? <==> InTime(BearerUntil(c.now, 24)) && c.id !in old(db.tokens)
                           && forall t :: t in old(db.tokens) ==> old(db.tokens)[t].nonce != c.nonce
  {
    LoginEntry(address);
    KeysApart(address, address, ip, ip);
    Start(e, db.shared, db.Snapshot(), Enter(CallLogin(address)));
    EvolvesRefl(db.Snapshot());
    hide MoveOf, Exec, Evolves, TablesOk, Conducted, OpensAs, OwnsToken, Since, EntryOf, GateOf, IdentityKey;
    hide NormalizeEmail, Enter, LoginSays, InTime;
    ghost var from := db.Snapshot();
    var email := NormalizeEmail(address);
    if email == "" {
      now := 0;
      return Err(InvalidCredentials), [], 0, [], now;
    }
    r, path, token, more, now := VerifyAndMint(e, db, book, email, ip, answer);
    if !db.shared && GateOf(old(book.log), IdentityKey(address), IpKey(ip), now, now).Admitted? {
      LoginSucceeds(e, from, db.Snapshot(), email, answer, ChoiceAt(path, 2), r);
    }
  }

  // ----- signup -----------------------------------------------------------

  lemma PolicyReadStep(e: Engine, db: Tables, email: string, c: Choice)
    ensures MoveOf(e, db, SignupPolicy(email), c, 0) ==
            Stay(if Schema.SignupOpen(db) && !c.readFails then SignupRow(email, 0)
                 else Note(EvSignupRefused, None, Refuse(SignupClosed)))
  {
  }

  function AfterSignupRow(db: Tables, email: string, found: Option<Uuid>): Req {
    if found.None? then SignupCheck(email, 0)
    else if found.value in db.users && db.users[found.value].status == Active then LoginRow(email)
    else Refuse(InvalidCredentials)
  }

  lemma SignupRowStep(e: Engine, db: Tables, email: string, c: Choice, found: Option<Uuid>)
    requires IsLookup(db, email, found) && (found.Some? ==> c.pick == found.value)
    ensures MoveOf(e, db, SignupRow(email, 0), c, 0) == Stay(AfterSignupRow(db, email, found))
  {
  }

  function AfterSignupCheck(throttled: Option<int>, answer: Answer, email: string): Req {
    if throttled.Some? then Refuse(TooManyAttempts(throttled.value))
    else
      match answer
      case Verified => SignupInsert(email, 0)
      case Wrong => Refuse(InvalidCredentials)
      case Faulty(detail) => Refuse(Internal(VerifierFailed(detail)))
      case Unwired => Note(EvPortNotComposed, None, Refuse(CredentialPortNotComposed))
  }

  lemma SignupCheckStep(e: Engine, db: Tables, email: string, c: Choice)
    ensures MoveOf(e, db, SignupCheck(email, 0), c, 0) == Stay(AfterSignupCheck(c.throttled, c.answer, email))
  {
  }

  // A created or joined principal is recorded and gets a bearer.
  function AfterCreated(user: Uuid, email: string): Req {
    Note(EvSignupCreated, Some(user), MintInsert(user, DEFAULT_BEARER_TTL_HOURS, BySignup(email)))
  }

  lemma InsertStep(e: Engine, db: Tables, email: string, c: Choice)
    requires |email| <= MAX_EMAIL_CHARS
    ensures var m := MoveOf(e, db, SignupInsert(email, 0), c, 0);
            && m.next == (if CanInsertUser(db, c.id, email) then AfterCreated(c.id, email) else SignupFallback(email))
            && Exec(db, m.stmt) == Exec(db, InsertUser(c.id, email))
  {
  }

  lemma InsertTooLong(e: Engine, db: Tables, email: string, c: Choice)
    requires |email| > MAX_EMAIL_CHARS
    ensures MoveOf(e, db, SignupInsert(email, 0), c, 0) == Stay(Refuse(Db(c.detail)))
  {
  }

  lemma FallbackStep(e: Engine, db: Tables, email: string, c: Choice, found: Option<Uuid>)
    requires IsLookup(db, email, found) && (found.Some? ==> c.pick == found.value)
    ensures MoveOf(e, db, SignupFallback(email), c, 0) ==
            Stay(if found.Some? then AfterCreated(found.value, email) else Refuse(Internal(SignupRaceLost)))
  {
  }

  lemma InsertLeaves(db: Tables, id: Uuid, email: string)
    ensures var db' := Exec(db, InsertUser(id, email));
            if CanInsertUser(db, id, email) then
              db' == db.(users := db.users[id := User(email, Active, false, None)]) && LiveAt(db', id, email)
            else db' == db
  {
  }

  // The insert, or the winner of the race it lost.
  method CreatePrincipal(e: Engine, db: Database, email: string, ghost from: Tables, ghost start: Req, ghost path: Path)
    returns (r: Result<Uuid>, ghost longer: Path, ghost created: bool)
    requires db.Valid() && NormalizeEmail(email) == email
    requires Conducted(e, db.shared, from, start, path, db.Snapshot(), SignupInsert(email, 0))
    modifies db
    ensures db.Valid() && Evolves(old(db.Snapshot()), db.Snapshot())
    ensures Conducted(e, db.shared, from, start, longer, db.Snapshot(),
                      match r case Ok(u) => AfterCreated(u, email) case Err(error) => Refuse(error))
    ensures r.Ok? ==> LiveAt(db.Snapshot(), r.value, email)
    ensures r.Err? ==> ServerSide(r.error)
    ensures path != [] ==> longer != [] && longer[0] == path[0]
    ensures |longer| == |path| + if created || |email| > 320 then 1 else 2
    ensures |email| > 320 ==> r == Err(Db(longer[|path|].choice.detail))
    ensures created ==> r == Ok(longer[|path|].choice.id)
    ensures created <==> |email| <= 320 && NewUser(longer[|path|].found, longer[|path|].choice.id, email)
    ensures !db.shared ==>
              var id := longer[|path|].choice.id;
              && longer[|path|].found == old(db.Snapshot())
              && (created <==>
                    && |email| <= 320 && id !in old(db.users)
                    && forall u :: u in old(db.users) && old(db.users)[u].email == email ==> old(db.users)[u].deleted)
              && (if created then
                    db.Snapshot() == old(db.Snapshot()).(
                      users := old(db.users)[id := User(email, Active, false, None)])
                  else db.Snapshot() == old(db.Snapshot()))
    ensures !db.shared && !created && |email| <= 320 ==>
              exists found :: LooksUp(old(db.Snapshot()), email, found)
                && match found case None => r == Err(Internal(SignupRaceLost)) case Some(u) => r == Ok(u)
  {
    hide MoveOf, Exec, Evolves, TablesOk, Conducted, NormalizeEmail, LiveAt, EmailFree, LooksUp, CanInsertUser;
    ghost var left := db.Snapshot();
    ghost var q := SignupInsert(email, 0);
    created := false;
    var c: Choice := *;
    db.Others();
    ghost var found := db.Snapshot();
    longer := path + [Moment(q, left, found, c)];
    NewUserIff(found, c.id, email);
    if |email| > MAX_EMAIL_CHARS {
      InsertTooLong(e, found, email, c);
      OneRead(e, db.shared, from, start, path, left, found, q, c, Refuse(Db(c.detail)));
      return Err(Db(c.detail)), longer, created;
    }
    var inserted := db.InsertUser(c.id, email);
    InsertStep(e, found, email, c);
    InsertLeaves(found, c.id, email);
    OneMore(e, db.shared, from, start, path, left, found, q, c, MoveOf(e, found, q, c, 0));
    ExecEvolves(found, InsertUser(c.id, email));
    ghost var tried := db.Snapshot();
    EvolvesTrans(left, found, tried);
    if inserted.Some? {
      created := true;
      return Ok(inserted.value), longer, created;
    }
    db.Others();
    ghost var seen := db.Snapshot();
    EvolvesTrans(left, tried, seen);
    var winner := db.LiveUserByEmail(email);
    ghost var c': Choice := *;
    if winner.Some? {
      c' := c'.(pick := winner.value);
    }
    FallbackStep(e, seen, email, c', winner);
    OneRead(e, db.shared, from, start, longer, tried, seen, SignupFallback(email), c',
            if winner.Some? then AfterCreated(winner.value, email) else Refuse(Internal(SignupRaceLost)));
    longer := longer + [Moment(SignupFallback(email), tried, seen, c')];
    LookedUp(seen, email, winner);
    Finds(seen, email, winner);
    r := if winner.Some? then Ok(winner.value) else Err(Internal(SignupRaceLost));
  }

  lemma LookedUp(db: Tables, email: string, found: Option<Uuid>)
    requires IsLookup(db, email, found)
    ensures found.Some? ==> LiveAt(db, found.value, email)
  {
  }

  // Where a signup ends.
  function SignupEnd(r: Result<(Uuid, string)>, token: Uuid, via: Via): Req {
    match r
    case Ok(x) => Done(Minted(x.0, token, via))
    case Err(error) => Refuse(error)
  }

  // What signing up a new principal did to the book: a wrong credential
  // charges both counters, and nothing is ever forgiven.
  predicate OnBookNew(r: Result<(Uuid, string)>, more: seq<Event>, idKey: string, ipKey: string) {
    if r == Err(InvalidCredentials) then Charged(more, idKey, ipKey) else more == []
  }

  // From the verified credential to the first bearer.
  method CreateAndMint(e: Engine, db: Database, email: string, ghost from: Tables, ghost start: Req, ghost path: Path)
    returns (r: Result<(Uuid, string)>, ghost longer: Path, ghost token: Uuid)
    requires db.Valid() && NormalizeEmail(email) == email
    requires Conducted(e, db.shared, from, start, path, db.Snapshot(), SignupInsert(email, 0))
    modifies db
    ensures db.Valid() && Evolves(old(db.Snapshot()), db.Snapshot())
    ensures Conducted(e, db.shared, from, start, longer, db.Snapshot(), SignupEnd(r, token, BySignup(email)))
    ensures r.Ok? ==> r.value.0 in db.users && db.users[r.value.0].email == email
                      && OwnsToken(db.Snapshot(), token, r.value.0) && OpensAs(e, db.Snapshot(), r.value.1, token)
    ensures r.Err? ==> ServerSide(r.error)
    ensures path != [] ==> longer != [] && longer[0] == path[0]
    ensures !db.shared ==> CreationSays(e, old(db.Snapshot()), db.Snapshot(), email, longer, |path|, r)
  {
    hide MoveOf, Exec, Evolves, TablesOk, Conducted, NormalizeEmail, EmailFree, OpensAs, OwnsToken, LinkOf, LiveAt;
    hide MintFault, BearerAdded, LooksUp, NewUser;
    ghost var left := db.Snapshot();
    token := 0;
    var user: Result<Uuid>;
    ghost var created;
    user, longer, created := CreatePrincipal(e, db, email, from, start, path);
    ghost var inserted := db.Snapshot();
    if user.Err? {
      return Err(user.error), longer, token;
    }
    LiveIn(inserted, user.value, email);
    ghost var q := MintInsert(user.value, DEFAULT_BEARER_TTL_HOURS, BySignup(email));
    longer := TokenService.Record(e, db, AuditRow(EvSignupCreated, Some(user.value), None, None), from, start, longer,
        q);
    ghost var recorded := db.Snapshot();
    EvolvesTrans(left, inserted, recorded);
    var bearer: Result<string>;
    ghost var mint;
    bearer, mint, token := TokenService.MintBearer(e, db, user.value, DEFAULT_BEARER_TTL_HOURS, BySignup(email));
    r := match bearer case Ok(b) => Ok((user.value, b)) case Err(error) => Err(error);
    Joined(e, db.shared, from, start, longer, recorded, q, mint, db.Snapshot(), SignupEnd(r, token, BySignup(email)));
    longer := longer + mint;
    EvolvesTrans(left, recorded, db.Snapshot());
    EvolvesTrans(inserted, recorded, db.Snapshot());
    EmailStays(inserted, db.Snapshot(), user.value);
  }

  lemma LiveIn(db: Tables, user: Uuid, email: string)
    requires LiveAt(db, user, email)
    ensures user in db.users && db.users[user].email == email
  {
  }

  // The branch of signup for an address nobody has yet. The two counters are
  // asked at two readings of the clock.
  method SignupNew(
      e: Engine, db: Database, book: AttemptBook, email: string, ip: string, answer: Answer,
      ghost from: Tables, ghost start: Req, ghost path: Path)
    returns (r: Result<(Uuid, string)>, ghost longer: Path, ghost token: Uuid, ghost more: seq<Event>,
             ghost at: (Time, Time))
    requires db.Valid() && book.Valid() && NormalizeEmail(email) == email
    requires Conducted(e, db.shared, from, start, path, db.Snapshot(), SignupCheck(email, 0))
    modifies db, book
    ensures db.Valid() && book.Valid() && Evolves(old(db.Snapshot()), db.Snapshot())
    ensures Conducted(e, db.shared, from, start, longer, db.Snapshot(), SignupEnd(r, token, BySignup(email)))
    ensures book.log == old(book.log) + more && OnBookNew(r, more, IdentityKey(email), IpKey(ip))
    ensures GateSays(GateOf(old(book.log), IdentityKey(email), IpKey(ip), at.0, at.1), r)
    ensures r.Ok? ==> answer == Verified && r.value.0 in db.users && db.users[r.value.0].email == email
                      && OwnsToken(db.Snapshot(), token, r.value.0) && OpensAs(e, db.Snapshot(), r.value.1, token)
    ensures r.Err? ==> r.error != SignupClosed
    ensures path != [] ==> longer != [] && longer[0] == path[0]
    ensures !db.shared ==>
              if GateOf(old(book.log), IdentityKey(email), IpKey(ip), at.0, at.1).RateLimited? then
                db.Snapshot() == old(db.Snapshot())
              else NewcomerSays(e, old(db.Snapshot()), db.Snapshot(), email, answer, longer, |path| + 1, r)
  {
    hide MoveOf, Exec, Evolves, TablesOk, Conducted, NormalizeEmail, EmailFree, OpensAs, OwnsToken, Since, EntryOf;
    hide IdentityKey, IpKey, GateOf, CreationSays;
    ghost var left := db.Snapshot();
    token, more := 0, [];
    var idKey, ipKey := IdentityKey(email), IpKey(ip);
    var c: Choice := *;
    var next: Time := *;
    at := (c.now, next);
    var gate := Gate(book, idKey, ipKey, c.now, next);
    c := c.(answer := answer, throttled := if gate.RateLimited? then Some(gate.retryAfterSeconds) else None);
    StayedPut(left, db.shared);
    EvolvesRefl(left);
    SignupCheckStep(e, left, email, c);
    OneRead(e, db.shared, from, start, path, left, left, SignupCheck(email, 0), c,
            AfterSignupCheck(c.throttled, answer, email));
    longer := path + [Moment(SignupCheck(email, 0), left, left, c)];
    if gate.RateLimited? {
      return Err(TooManyAttempts(gate.retryAfterSeconds)), longer, token, more, at;
    }
    match answer
    case Wrong =>
      more := Charge(book, idKey, ipKey);
      r := Err(InvalidCredentials);
    case Faulty(detail) =>
      r := Err(Internal(VerifierFailed(detail)));
    case Unwired =>
      longer := TokenService.Record(e, db, AuditRow(EvPortNotComposed, None, None, None), from, start, longer,
                                    Refuse(CredentialPortNotComposed));
      r := Err(CredentialPortNotComposed);
    case Verified =>
      r, longer, token := CreateAndMint(e, db, email, from, start, longer);
  }

  lemma SignupEntry(address: string)
    ensures var email := NormalizeEmail(address);
            NormalizeEmail(email) == email
            && Enter(CallSignup(address)) ==
               if email == "" || '@' !in email then Refuse(InvalidInput(EmailRequired)) else SignupPolicy(email)
  {
    NormalizeIdempotent(address);
    hide NormalizeEmail, ParseUuid, Utf8Length;
  }

  // The policy read, and the row or the refusal it leads to.
  method ReadPolicy(e: Engine, db: Database, email: string)
    returns (open: bool, found: Option<Uuid>, active: bool, ghost path: Path)
    requires db.Valid()
    modifies db
    ensures db.Valid() && Evolves(old(db.Snapshot()), db.Snapshot())
    ensures Conducted(e, db.shared, old(db.Snapshot()), SignupPolicy(email), path, db.Snapshot(),
                      if open then AfterSignupRow(db.Snapshot(), email, found) else Refuse(SignupClosed))
    ensures open ==> IsLookup(db.Snapshot(), email, found)
    ensures active == (found.Some? && found.value in db.users && db.users[found.value].status == Active)
    ensures |path| == 2
    ensures !db.shared ==>
              && (open <==> SwitchedOn(old(db.Snapshot())) && !path[0].choice.readFails)
              && db.Snapshot() == if open then old(db.Snapshot()) else Noted(old(db.Snapshot()), EvSignupRefused, None)
  {
    hide MoveOf, Exec, Evolves, TablesOk, Conducted, Schema.SignupOpen, SwitchedOn;
    ghost var from := db.Snapshot();
    ghost var start := SignupPolicy(email);
    Start(e, db.shared, from, start);
    found, active := None, false;
    var c: Choice := *;
    db.Others();
    ghost var read := db.Snapshot();
    open := PolicyService.SignupOpen(db, c.readFails);
    SwitchedOnIff(read);
    ghost var readFails := c.readFails;
    PolicyReadStep(e, read, email, c);
    path := [] + [Moment(start, from, read, c)];
    if !open {
      OneRead(e, db.shared, from, start, [], from, read, start, c, Note(EvSignupRefused, None, Refuse(SignupClosed)));
      path := TokenService.Record(e, db, AuditRow(EvSignupRefused, None, None, None), from, start, path,
          Refuse(SignupClosed));
      EvolvesTrans(from, read, db.Snapshot());
      return;
    }
    OneRead(e, db.shared, from, start, [], from, read, start, c, SignupRow(email, 0));
    db.Others();
    ghost var seen := db.Snapshot();
    EvolvesTrans(from, read, seen);
    found := db.LiveUserByEmail(email);
    active := found.Some? && db.users[found.value].status == Active;
    if found.Some? {
      c := c.(pick := found.value);
    }
    SignupRowStep(e, seen, email, c, found);
    OneRead(e, db.shared, from, start, path, read, seen, SignupRow(email, 0), c, AfterSignupRow(seen, email, found));
    path := path + [Moment(SignupRow(email, 0), read, seen, c)];
  }

  function ViaOf(branch: Branch, email: string): Via {
    if branch.Newcomer? then BySignup(email) else ByLogin(email)
  }

  // What each branch answers and does to the book.
  predicate BranchSays(
      branch: Branch, r: Result<(Uuid, string)>, log: seq<Event>, more: seq<Event>,
      idKey: string, ipKey: string, at: (Time, Time)) {
    match branch
    case Invalid => r == Err(InvalidInput(EmailRequired)) && more == []
    case Shut => r == Err(SignupClosed) && more == []
    case Barred => r == Err(InvalidCredentials) && more == []
    case Existing => OnBook(r, more, idKey, ipKey) && GateSays(GateOf(log, idKey, ipKey, at.0, at.1), r)
    case Newcomer => OnBookNew(r, more, idKey, ipKey) && GateSays(GateOf(log, idKey, ipKey, at.0, at.1), r)
  }

  // A signup past the policy read, on the row it found.
  method SignupOn(
      e: Engine, db: Database, book: AttemptBook, email: string, ip: string, answer: Answer,
      found: Option<Uuid>, active: bool, ghost from: Tables, ghost start: Req, ghost path: Path)
    returns (r: Result<(Uuid, string)>, ghost longer: Path, ghost token: Uuid, ghost branch: Branch,
             ghost more: seq<Event>, ghost at: (Time, Time))
    requires db.Valid() && book.Valid() && NormalizeEmail(email) == email && IsLookup(db.Snapshot(), email, found)
    requires active == (found.Some? && found.value in db.users && db.users[found.value].status == Active)
    requires Conducted(e, db.shared, from, start, path, db.Snapshot(), AfterSignupRow(db.Snapshot(), email, found))
    modifies db, book
    ensures db.Valid() && book.Valid() && Evolves(old(db.Snapshot()), db.Snapshot())
    ensures Conducted(e, db.shared, from, start, longer, db.Snapshot(), SignupEnd(r, token, ViaOf(branch, email)))
    ensures book.log == old(book.log) + more
    ensures BranchSays(branch, r, old(book.log), more, IdentityKey(email), IpKey(ip), at)
    ensures r.Ok? ==> answer == Verified && r.value.0 in db.users && db.users[r.value.0].email == email
                      && OwnsToken(db.Snapshot(), token, r.value.0) && OpensAs(e, db.Snapshot(), r.value.1, token)
    ensures branch == if found.None? then Newcomer else if active then Existing else Barred
    ensures path != [] ==> longer != [] && longer[0] == path[0]
    ensures !db.shared ==>
              BranchLeaves(e, branch, GateOf(old(book.log), IdentityKey(email), IpKey(ip), at.0, at.1).Admitted?,
                           old(db.Snapshot()), db.Snapshot(), email, answer, longer, |path|, r)
  {
    hide MoveOf, Exec, Evolves, TablesOk, Conducted, OpensAs, OwnsToken, Since, EntryOf, GateOf, IdentityKey, IpKey;
    hide NormalizeEmail, EmailFree, AfterSignupRow, ActiveUser, GateSays, OnBook, LoginSays, NewcomerSays;
    ghost var seen := db.Snapshot();
    SignupBranch(seen, email, found);
    EvolvesRefl(seen);
    longer, token, more, at := path, 0, [], (0, 0);
    branch := if found.None? then Newcomer else if active then Existing else Barred;
    if found.None? {
      r, longer, token, more, at := SignupNew(e, db, book, email, ip, answer, from, start, path);
    } else if !active {
      r := Err(InvalidCredentials);
    } else {
      ghost var login, now;
      r, login, token, more, now := VerifyAndMint(e, db, book, email, ip, answer);
      at := (now, now);
      Joined(e, db.shared, from, start, path, seen, LoginRow(email), login, db.Snapshot(), LoginEnd(r, token, email));
      longer := path + login;
    }
  }

  // Signup for a well-formed address in normal form.
  method SignupAt(e: Engine, db: Database, book: AttemptBook, email: string, ip: string, answer: Answer)
    returns (r: Result<(Uuid, string)>, ghost path: Path, ghost token: Uuid, ghost branch: Branch,
             ghost more: seq<Event>, ghost at: (Time, Time))
    requires db.Valid() && book.Valid() && NormalizeEmail(email) == email && email != "" && '@' in email
    modifies db, book
    ensures db.Valid() && book.Valid() && Evolves(old(db.Snapshot()), db.Snapshot())
    ensures Conducted(e, db.shared, old(db.Snapshot()), SignupPolicy(email), path, db.Snapshot(),
                      SignupEnd(r, token, ViaOf(branch, email)))
    ensures book.log == old(book.log) + more
    ensures BranchSays(branch, r, old(book.log), more, IdentityKey(email), IpKey(ip), at)
    ensures branch != Invalid
    ensures r.Ok? ==> answer == Verified && r.value.0 in db.users && db.users[r.value.0].email == email
                      && OwnsToken(db.Snapshot(), token, r.value.0) && OpensAs(e, db.Snapshot(), r.value.1, token)
    ensures path != []
    ensures !db.shared ==>
              && branch == BranchOf(old(db.Snapshot()), email, path[0].choice.readFails)
              && BranchLeaves(e, branch, GateOf(old(book.log), IdentityKey(email), IpKey(ip), at.0, at.1).Admitted?,
                              old(db.Snapshot()), db.Snapshot(), email, answer, path, 2, r)
  {
    hide MoveOf, Exec, Evolves, TablesOk, Conducted, OpensAs, OwnsToken, Since, EntryOf, GateOf, IdentityKey, IpKey;
    hide NormalizeEmail, Schema.SignupOpen, AfterSignupRow, ActiveUser, GateSays, OnBook, IsLookup;
    hide LoginSays, NewcomerSays, BranchOf, SwitchedOn;
    ghost var from := db.Snapshot();
    token, more, at := 0, [], (0, 0);
    var open, found, active;
    open, found, active, path := ReadPolicy(e, db, email);
    ghost var seen := db.Snapshot();
    if !open {
      branch := Shut;
      if !db.shared {
        ShutBranch(from, email, path[0].choice.readFails);
      }
      return Err(SignupClosed), path, token, branch, more, at;
    }
    r, path, token, branch, more, at :=
      SignupOn(e, db, book, email, ip, answer, found, active, from, SignupPolicy(email), path);
    EvolvesTrans(from, seen, db.Snapshot());
    if !db.shared {
      BranchFound(from, email, found, branch);
    }
  }

  // `signup`. The switch is read on every call; closed, nothing is created.
  method Signup(e: Engine, db: Database, book: AttemptBook, address: string, ip: string, answer: Answer)
    returns (r: Result<(Uuid, string)>, ghost path: Path, ghost token: Uuid, ghost branch: Branch,
             ghost more: seq<Event>, ghost at: (Time, Time))
    requires db.Valid() && book.Valid()
    modifies db, book
    ensures db.Valid() && book.Valid() && Evolves(old(db.Snapshot()), db.Snapshot())
    ensures Conducted(e, db.shared, old(db.Snapshot()), Enter(CallSignup(address)), path, db.Snapshot(),
                      SignupEnd(r, token, ViaOf(branch, NormalizeEmail(address))))
    ensures book.log == old(book.log) + more
    ensures BranchSays(branch, r, old(book.log), more, IdentityKey(address), IpKey(ip), at)
    ensures branch.Invalid? <==> NormalizeEmail(address) == "" || '@' !in NormalizeEmail(address)
    ensures r.Ok? ==> answer == Verified
                      && r.value.0 in db.users && db.users[r.value.0].email == NormalizeEmail(address)
                      && OwnsToken(db.Snapshot(), token, r.value.0) && OpensAs(e, db.Snapshot(), r.value.1, token)
    ensures branch.Invalid? <==> path == []
    ensures !db.shared ==>
              var email := NormalizeEmail(address);
              && branch == BranchOf(old(db.Snapshot()), email, path != [] && path[0].choice.readFails)
              && BranchLeaves(
                   e, branch, GateOf(old(book.log), IdentityKey(address), IpKey(ip), at.0, at.1).Admitted?,
                   old(db.Snapshot()), db.Snapshot(), email, answer, path, 2, r)
  {
    SignupEntry(address);
    KeysApart(address, address, ip, ip);
    hide MoveOf, Exec, Evolves, TablesOk, Conducted, OpensAs, OwnsToken, Since, EntryOf, GateOf, IdentityKey, IpKey;
    hide NormalizeEmail, Enter, BranchOf, BranchLeaves, BranchSays;
    ghost var from := db.Snapshot();
    var email := NormalizeEmail(address);
    if email == "" || '@' !in email {
      token, branch, more, at := 0, Invalid, [], (0, 0);
      Start(e, db.shared, from, Enter(CallSignup(address)));
      EvolvesRefl(from);
      r, path := Err(InvalidInput(EmailRequired)), [];
      InvalidSays(e, r, book.log, IdentityKey(address), IpKey(ip), answer, from, email);
      return;
    }
    r, path, token, branch, more, at := SignupAt(e, db, book, email, ip, answer);
  }

  lemma InvalidSays(
      e: Engine, r: Result<(Uuid, string)>, log: seq<Event>, idKey: string, ipKey: string, answer: Answer,
      db: Tables, email: string)
    requires r == Err(InvalidInput(EmailRequired)) && (email == "" || '@' !in email)
    ensures BranchSays(Invalid, r, log, [], idKey, ipKey, (0, 0)) && BranchOf(db, email, false) == Invalid
    ensures forall admitted :: BranchLeaves(e, Invalid, admitted, db, db, email, answer, [], 2, r)
  {
  }

  lemma ShutBranch(db: Tables, email: string, readFails: bool)
    requires email != "" && '@' in email && (readFails || !SwitchedOn(db))
    ensures BranchOf(db, email, readFails) == Shut
  {
  }

  lemma BranchFound(db: Tables, email: string, found: Option<Uuid>, branch: Branch)
    requires TablesOk(db) && email != "" && '@' in email && SwitchedOn(db) && IsLookup(db, email, found)
    requires branch == if found.None? then Newcomer
                       else if found.value in db.users && db.users[found.value].status == Active then Existing
                       else Barred
    ensures BranchOf(db, email, false) == branch
  {
    hide TablesOk, SwitchedOn;
    NewUserIff(db, 0, email);
    if found.Some? {
      assert Taken(db, email);
      forall u: Uuid | StandsAt(db, u, email) ensures u == found.value {
        OnlyOne(db, email, found, u);
      }
      if db.users[found.value].status == Active {
        assert StandsAt(db, found.value, email);
      }
    }
  }

  lemma SignupBranch(db: Tables, email: string, found: Option<Uuid>)
    requires IsLookup(db, email, found)
    ensures found.None? ==> AfterSignupRow(db, email, found) == SignupCheck(email, 0) && EmailFree(db, email)
    ensures found.Some? ==>
              AfterSignupRow(db, email, found)
              == if db.users[found.value].status == Active then LoginRow(email) else Refuse(InvalidCredentials)
  {
  }

  // ----- the revocation of access -----------------------------------------

  // Where the revocation of access hands over to its caller.
  function AfterAccess(user: Uuid, lifecycle: bool, performed: bool): Req {
    if !lifecycle then Done(Access(user, performed))
    else if performed then Note(EvAccessRevoked, Some(user), Done(Finished))
    else Done(Finished)
  }

  lemma CutStep(e: Engine, db: Tables, user: Uuid, lifecycle: bool, c: Choice)
    ensures var m := MoveOf(e, db, Protocol.RevokeAccess(user, lifecycle), c, 0);
            && Exec(db, m.stmt) == Exec(db, RevokeUser(user))
            && m.next == if CanRevokeUser(db, user)
                         then SweepTokens(user, OfAccess(user, db.users[user].email, lifecycle))
                         else AfterAccess(user, lifecycle, false)
  {
  }

  lemma CutLeaves(db: Tables, user: Uuid)
    ensures var db' := Exec(db, RevokeUser(user));
            if CanRevokeUser(db, user) then
              db' == db.(users := db.users[user := db.users[user].(status := Revoked)])
            else db' == db
  {
  }

  predicate IsCut(db: Tables, user: Uuid, email: string) {
    user in db.users && db.users[user].status == Revoked && db.users[user].email == email
  }

  lemma CutStays(a: Tables, b: Tables, user: Uuid, email: string)
    requires Evolves(a, b) && IsCut(a, user, email)
    ensures IsCut(b, user, email)
  {
  }

  // Nothing of the principal is left: no active bearer, and no pending
  // invitation for any spelling of the address.
  ghost predicate NothingLeft(db: Tables, user: Uuid) {
    && user in db.users
    && (forall t :: OpenBearer(db, t) ==> db.tokens[t].user != user)
    && (forall i, spelling :: OpenInvite(db, i) && NormalizeEmail(spelling) == NormalizeEmail(db.users[user].email) ==>
          db.invites[i].email != NormalizeEmail(spelling))
  }

  lemma SweptClean(db: Tables, user: Uuid, email: string)
    requires UsersOk(db.users) && IsCut(db, user, email)
    requires OpenBearersOf(db, user) == {} && OpenInvitesFor(db, email) == {}
    ensures NothingLeft(db, user)
  {
    forall t | OpenBearer(db, t) ensures db.tokens[t].user != user {
      assert t !in OpenBearersOf(db, user);
    }
    forall i | OpenInvite(db, i) ensures db.invites[i].email != email {
      assert i !in OpenInvitesFor(db, email);
    }
  }

  // The three statements one after the other, in the terms of the rows.
  lemma CutRows(a: Tables, cut: Tables, swept: Tables, b: Tables, user: Uuid, email: string)
    requires CanRevokeUser(a, user) && cut == a.(users := a.users[user := a.users[user].(status := Revoked)])
    requires swept == BearersSwept(cut, user)
    requires b == swept.(invites := InvitesCut(swept.invites, email)) && email == a.users[user].email
    ensures AccessCut(a, b, user, [])
  {
    assert OpenBearersOf(cut, user) == OpenBearersOf(a, user);
    hide OpenBearersOf, BearersCut, InvitesCut;
  }

  // `revoke_access`: three statements, each on its own. Run without
  // interruption a performed revocation leaves nothing; a replay, or a call
  // after the first statement and a crash, performs nothing.
  method RevokeAccess(e: Engine, db: Database, user: Uuid, ghost lifecycle: bool)
    returns (performed: bool, ghost path: Path)
    requires db.Valid()
    modifies db
    ensures db.Valid() && Evolves(old(db.Snapshot()), db.Snapshot())
    ensures Conducted(e, db.shared, old(db.Snapshot()), Protocol.RevokeAccess(user, lifecycle), path, db.Snapshot(),
                      AfterAccess(user, lifecycle, performed))
    ensures performed ==> user in db.users && db.users[user].status == Revoked
    ensures !db.shared ==>
              && (performed <==>
                    user in old(db.users) && !old(db.users)[user].deleted && old(db.users)[user].status != Revoked)
              && (if performed then
                    NothingLeft(db.Snapshot(), user) && AccessCut(old(db.Snapshot()), db.Snapshot(), user, [])
                  else db.Snapshot() == old(db.Snapshot()))
  {
    hide MoveOf, Exec, Evolves, TablesOk, UsersOk, Conducted, IsCut, NothingLeft, AfterAccess, OpenBearersOf;
    hide OpenInvitesFor, BearersSwept, InvitesCut, AccessCut;
    ghost var from := db.Snapshot();
    ghost var start := Protocol.RevokeAccess(user, lifecycle);
    Start(e, db.shared, from, start);
    ghost var c: Choice := *;
    db.Others();
    ghost var found := db.Snapshot();
    var email := db.RevokeUser(user);
    ghost var cut := db.Snapshot();
    CutStep(e, found, user, lifecycle, c);
    CutLeaves(found, user);
    OneMore(e, db.shared, from, start, [], from, found, start, c, MoveOf(e, found, start, c, 0));
    path := [] + [Moment(start, from, found, c)];
    ExecEvolves(found, RevokeUser(user));
    EvolvesTrans(from, found, cut);
    if email.None? {
      return false, path;
    }
    assert IsCut(cut, user, email.value) by { JustCut(cut, user, email.value); }
    ghost var sweep := OfAccess(user, email.value, lifecycle);
    ghost var bearers;
    var n;
    n, bearers := TokenService.RevokeAllBearers(e, db, user, sweep);
    ghost var swept := db.Snapshot();
    ghost var q := SweepInvites(email.value, sweep);
    Joined(e, db.shared, from, start, path, cut, SweepTokens(user, sweep), bearers, swept, q);
    path := path + bearers;
    EvolvesTrans(from, cut, swept);
    var m;
    m, path := InviteService.SweepPending(e, db, email.value, sweep, from, start, path);
    AccessEnd(user, email.value, lifecycle, m > 0);
    EvolvesTrans(from, swept, db.Snapshot());
    EvolvesTrans(cut, swept, db.Snapshot());
    CutStays(cut, db.Snapshot(), user, email.value);
    CutMeans(db.Snapshot(), user, email.value);
    if !db.shared {
      SameBearers(swept, db.Snapshot(), user);
      CutRows(from, cut, swept, db.Snapshot(), user, email.value);
      assert UsersOk(db.users) by { UsersHold(db.Snapshot()); }
      SweptClean(db.Snapshot(), user, email.value);
    }
    performed := true;
  }

  lemma SameBearers(a: Tables, b: Tables, user: Uuid)
    requires a.tokens == b.tokens
    ensures OpenBearersOf(a, user) == OpenBearersOf(b, user)
  {
  }

  lemma JustCut(db: Tables, user: Uuid, email: string)
    requires user in db.users && db.users[user].status == Revoked && db.users[user].email == email
    ensures IsCut(db, user, email)
  {
  }

  lemma CutMeans(db: Tables, user: Uuid, email: string)
    requires IsCut(db, user, email)
    ensures user in db.users && db.users[user].status == Revoked
  {
  }

  lemma UsersHold(db: Tables)
    requires TablesOk(db)
    ensures UsersOk(db.users)
  {
  }

  lemma AccessEnd(user: Uuid, email: string, lifecycle: bool, swept: bool)
    ensures InviteService.AfterPending(OfAccess(user, email, lifecycle), swept) == AfterAccess(user, lifecycle, true)
    ensures TokenService.AfterSweep(OfAccess(user, email, lifecycle))
              == SweepInvites(email, OfAccess(user, email, lifecycle))
  {
  }
}
