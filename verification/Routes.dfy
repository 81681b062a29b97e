// The public routes: one refusal body for every credential failure, and the
// attempt book shared with login and signup.
module Routes {
  import opened Prelude
  import opened Text
  import opened Links
  import opened Throttle
  import opened Schema
  import opened Verify
  import opened Protocol
  import opened Database
  import opened Conduct
  import opened Rows
  import TokenService
  import InviteService
  import AccessService

  // A response: the status, the machine code, the error text of the body, the
  // advertised wait, and the token.
  datatype Response = Response(
    status: int, code: string, error: string, retryAfter: Option<int>, token: Option<string>)

  const REFUSED: Response := Response(401, "portal_credential_refused", "credential refused", None, None)

  function HttpStatus(err: PortalError): int {
    match err
    case Db(_) => 500
    case Internal(_) => 500
    case BearerSecretNotConfigured => 500
    case RecipientSecretNotConfigured => 500
    case CredentialRefused => 401
    case InvalidCredentials => 401
    case TooManyAttempts(_) => 429
    case SignupClosed => 403
    case CredentialPortNotComposed => 503
    case InvalidInput(_) => 400
    case NotFound(_) => 404
  }

  function ErrorCode(err: PortalError): string {
    match err
    case Db(_) => "portal_internal_error"
    case Internal(_) => "portal_internal_error"
    case BearerSecretNotConfigured => "portal_internal_error"
    case RecipientSecretNotConfigured => "portal_internal_error"
    case CredentialRefused => "portal_credential_refused"
    case InvalidCredentials => "portal_invalid_credentials"
    case TooManyAttempts(_) => "portal_rate_limited"
    case SignupClosed => "portal_signup_closed"
    case CredentialPortNotComposed => "portal_credential_port_not_composed"
    case InvalidInput(_) => "portal_invalid_input"
    case NotFound(_) => "portal_not_found"
  }

  // ----- what an error says of itself -------------------------------------

  const RACE := "signup race: " + "principal missing after conflict"
  const NO_SECRET := " token secret is not configured"

  function CauseText(cause: Cause): string {
    match cause
    case OutOfRange => "expiry out of range"
    case VerifierFailed(detail) => "verifier: " + detail
    case SignupRaceLost => RACE
  }

  function FaultText(fault: Fault): string {
    match fault
    case EmailRequired => "a valid email is required"
    case RecipientRequired => "a valid recipient email is required"
    case NoFieldSet => "the patch sets no field"
    case TooLong(column, limit) => column + " exceeds the maximum length of" + " " + PrintNat(limit)
    case NotAUuid => "payload.user_id is not a uuid"
    case UnknownEvent => "subscribed pattern matched an unhandled type"
  }

  function MissingText(missing: Missing): string {
    match missing
    case LiveBearer(id) => "live bearer " + PrintUuid(id)
    case PendingInvite(id) => "pending invite " + PrintUuid(id)
    case Principal(id) => "principal " + PrintUuid(id)
  }

  function Display(err: PortalError): string {
    match err
    case Db(detail) => "database error: " + detail
    case Internal(cause) => "internal error: " + CauseText(cause)
    case BearerSecretNotConfigured => "portal bearer" + NO_SECRET
    case RecipientSecretNotConfigured => "portal recipient" + NO_SECRET
    case CredentialRefused => "credential refused"
    case InvalidCredentials => "invalid credentials"
    case TooManyAttempts(seconds) => "too many attempts; retry after " + PrintInt(seconds) + "s"
    case SignupClosed => "signup is not open on this service"
    case CredentialPortNotComposed => "credential verifier not composed (host must register one)"
    case InvalidInput(fault) => "invalid input: " + FaultText(fault)
    case NotFound(missing) => "not found: " + MissingText(missing)
  }

  // `portal_error_response`
  function ErrorResponse(err: PortalError): Response {
    match err
    case CredentialRefused => REFUSED
    case InvalidCredentials => REFUSED
    case TooManyAttempts(seconds) => Response(429, "portal_rate_limited", "rate limited", Some(seconds), None)
    case _ => Response(HttpStatus(err), ErrorCode(err), Display(err), None, None)
  }

  predicate CredentialShaped(err: PortalError) { err == CredentialRefused || err == InvalidCredentials }

  // Texts with a common beginning differ in what follows it.
  lemma SamePrefix(prefix: string, a: string, b: string)
    ensures prefix + a == prefix + b <==> a == b
  {
    assert (prefix + a)[|prefix|..] == a && (prefix + b)[|prefix|..] == b;
  }

  lemma CauseLetter(cause: Cause)
    ensures |CauseText(cause)| > 0
    ensures CauseText(cause)[0] == if cause.OutOfRange? then 'e' else if cause.VerifierFailed? then 'v' else 's'
  {
    match cause
    case OutOfRange => assert CauseText(cause) == "expiry out of range";
    case VerifierFailed(detail) => assert CauseText(cause)[0] == "verifier: "[0];
    case SignupRaceLost => assert CauseText(cause)[0] == "signup race: "[0];
  }

  lemma CauseTextInjective(a: Cause, b: Cause)
    requires CauseText(a) == CauseText(b)
    ensures a == b
  {
    CauseLetter(a);
    CauseLetter(b);
    if a.VerifierFailed? {
      SamePrefix("verifier: ", a.detail, b.detail);
    }
  }

  lemma PlainNumber(n: nat)
    ensures ' ' !in PrintNat(n) && IsDigit(PrintNat(n)[|PrintNat(n)| - 1])
  {
    forall c | c in PrintNat(n) ensures IsDigit(c) {}
  }

  lemma LastLetter(fault: Fault)
    ensures FaultText(fault) != ""
    ensures fault.TooLong? <==> IsDigit(FaultText(fault)[|FaultText(fault)| - 1])
  {
    match fault
    case TooLong(column, limit) =>
      PlainNumber(limit);
    case EmailRequired => assert FaultText(fault)[24] == 'd';
    case RecipientRequired => assert FaultText(fault)[34] == 'd';
    case NoFieldSet => assert FaultText(fault)[22] == 'd';
    case NotAUuid => assert FaultText(fault)[28] == 'd';
    case UnknownEvent => assert FaultText(fault)[43] == 'e';
  }

  lemma FaultTextInjective(a: Fault, b: Fault)
    requires FaultText(a) == FaultText(b)
    ensures a == b
  {
    LastLetter(a);
    LastLetter(b);
    if a.TooLong? {
      PlainNumber(a.limit);
      PlainNumber(b.limit);
      var phrase := " exceeds the maximum length of";
      LastSeparator(' ', a.column + phrase, PrintNat(a.limit), b.column + phrase, PrintNat(b.limit));
      assert (a.column + phrase)[..|a.column|] == a.column && (b.column + phrase)[..|b.column|] == b.column;
      NatRoundTrip(a.limit);
      NatRoundTrip(b.limit);
    } else {
      FixedFaults(a);
      FixedFaults(b);
    }
  }

  lemma FixedFaults(fault: Fault)
    requires !fault.TooLong?
    ensures |FaultText(fault)| == match fault
                                  case EmailRequired => 25
                                  case RecipientRequired => 35
                                  case NoFieldSet => 23
                                  case NotAUuid => 29
                                  case UnknownEvent => 44
                                  case TooLong(_, _) => 0
  {
  }

  lemma MissingTextInjective(a: Missing, b: Missing)
    requires MissingText(a) == MissingText(b)
    ensures a == b
  {
    FirstLetter(a);
    FirstLetter(b);
    var lead := if a.LiveBearer? then "live bearer " else if a.PendingInvite? then "pending invite " else "principal ";
    SamePrefix(lead, PrintUuid(a.id), PrintUuid(b.id));
    UuidInjective(a.id, b.id);
  }

  lemma FirstLetter(missing: Missing)
    ensures |MissingText(missing)| > 1
    ensures MissingText(missing)[1] == if missing.LiveBearer? then 'i' else if missing.PendingInvite? then 'e' else 'r'
  {
    hide PrintUuid;
  }

  lemma ServerTexts(err: PortalError)
    requires ServerSide(err)
    ensures |Display(err)| > 7
    ensures Display(err)[0] == if err.Db? then 'd' else if err.Internal? then 'i' else 'p'
    ensures err == BearerSecretNotConfigured ==> Display(err)[7] == 'b'
    ensures err == RecipientSecretNotConfigured ==> Display(err)[7] == 'r'
  {
    hide CauseText;
    match err
    case Db(detail) => assert Display(err)[0] == "database error: "[0];
    case Internal(cause) => assert Display(err)[0] == "internal error: "[0];
    case BearerSecretNotConfigured =>
      assert Display(err)[0] == "portal bearer"[0] && Display(err)[7] == "portal bearer"[7];
    case RecipientSecretNotConfigured =>
      assert Display(err)[0] == "portal recipient"[0] && Display(err)[7] == "portal recipient"[7];
    case _ =>
  }

  // The server's own failures share status and code, and are told apart by
  // their text: two of them read alike only if they are the same failure with
  // the same detail.
  lemma ServerFailuresAreTold(a: PortalError, b: PortalError)
    requires ServerSide(a) && ServerSide(b)
    ensures ErrorResponse(a).status == ErrorResponse(b).status == 500 && ErrorResponse(a).code == ErrorResponse(b).code
    ensures ErrorResponse(a).error == ErrorResponse(b).error <==> a == b
  {
    ServerTexts(a);
    ServerTexts(b);
    hide CauseText;
    if Display(a) == Display(b) {
      if a.Db? {
        SamePrefix("database error: ", a.detail, b.detail);
      } else if a.Internal? {
        SamePrefix("internal error: ", CauseText(a.cause), CauseText(b.cause));
        CauseTextInjective(a.cause, b.cause);
      }
    }
  }

  lemma FaultsAreTold(a: PortalError, b: PortalError)
    requires (a.InvalidInput? && b.InvalidInput?) || (a.NotFound? && b.NotFound?)
    ensures Display(a) == Display(b) <==> a == b
  {
    hide FaultText, MissingText;
    if Display(a) == Display(b) {
      if a.InvalidInput? {
        SamePrefix("invalid input: ", FaultText(a.fault), FaultText(b.fault));
        FaultTextInjective(a.fault, b.fault);
      } else {
        SamePrefix("not found: ", MissingText(a.missing), MissingText(b.missing));
        MissingTextInjective(a.missing, b.missing);
      }
    }
  }

  lemma CodesApart(a: PortalError, b: PortalError)
    requires HttpStatus(a) != HttpStatus(b)
    ensures ErrorResponse(a) != ErrorResponse(b)
  {
    assert ErrorResponse(a).status == HttpStatus(a) && ErrorResponse(b).status == HttpStatus(b);
  }

  lemma ShapedAnswers(err: PortalError)
    ensures ErrorResponse(err) == REFUSED <==> CredentialShaped(err)
  {
    assert ErrorResponse(err).status == HttpStatus(err);
  }

  // The status, machine code and wait of every answer: five hundred for the
  // server's own failures, one body for the credential errors.
  lemma PublicAnswers(err: PortalError)
    ensures var a := ErrorResponse(err);
            && a.token == None
            && (a.status == 500 <==> err.Db? || err.Internal? || err.BearerSecretNotConfigured?
                                     || err.RecipientSecretNotConfigured?)
            && (a.status == 500 ==> a.code == "portal_internal_error")
            && (a.status == 401 <==> err.CredentialRefused? || err.InvalidCredentials?)
            && (a.status == 401 ==> a == Response(401, "portal_credential_refused", "credential refused", None, None))
            && (a.status == 429 <==> err.TooManyAttempts?)
            && (err.TooManyAttempts? ==>
                  a == Response(429, "portal_rate_limited", "rate limited", Some(err.retryAfterSeconds), None))
            && (a.status == 403 <==> err.SignupClosed?)
            && (a.status == 403 ==> a.code == "portal_signup_closed")
            && (a.status == 503 <==> err.CredentialPortNotComposed?)
            && (a.status == 503 ==> a.code == "portal_credential_port_not_composed")
            && (a.status == 400 <==> err.InvalidInput?) && (a.status == 400 ==> a.code == "portal_invalid_input")
            && (a.status == 404 <==> err.NotFound?) && (a.status == 404 ==> a.code == "portal_not_found")
            && (a.retryAfter.Some? <==> err.TooManyAttempts?)
  {
    hide Display;
    match err
    case CredentialRefused =>
    case InvalidCredentials =>
    case TooManyAttempts(_) =>
    case _ => assert ErrorResponse(err).code == ErrorCode(err);
  }

  // Two errors look alike to a visitor exactly when they are the same error,
  // detail included, or both credential-shaped.
  lemma WhatVisitorsCanTell(a: PortalError, b: PortalError)
    ensures ErrorResponse(a) == ErrorResponse(b) <==> a == b || (CredentialShaped(a) && CredentialShaped(b))
  {
    hide Display, ErrorCode;
    if HttpStatus(a) != HttpStatus(b) {
      CodesApart(a, b);
    } else if ServerSide(a) {
      ServerFailuresAreTold(a, b);
    } else if a.InvalidInput? || a.NotFound? {
      FaultsAreTold(a, b);
    }
  }

  function Granted(bearer: string): Response { Response(200, "", "", None, Some(bearer)) }

  // `redeem_invite`: asks no counter, but charges both on a refusal.
  method RedeemInvite(e: Engine, db: Database, book: AttemptBook, link: string, email: string, ip: string)
    returns (response: Response, ghost more: seq<Event>, ghost path: Path)
    requires db.Valid() && book.Valid()
    modifies db, book
    ensures db.Valid() && book.Valid() && Evolves(old(db.Snapshot()), db.Snapshot())
    ensures book.log == old(book.log) + more
    ensures if response == REFUSED then
              AccessService.Charged(more, AccessService.IdentityKey(email), AccessService.IpKey(ip))
            else more == []
    ensures response.token.Some? ==> response == Granted(response.token.value) && Closed(e, db.Snapshot(), link)
                                     && exists t :: OpensAs(e, db.Snapshot(), response.token.value, t)
    ensures response.token.Some? || response == Response(401, "portal_credential_refused", "credential refused", None,
                                                         None)
            || (response.status == 500 && response.code == "portal_internal_error")
    ensures path != []
    ensures !db.shared ==>
              var c := path[0].choice;
              && (response == REFUSED <==> NoInvite(e, old(db.Snapshot()), link, NormalizeEmail(email), c.now))
              && (response == REFUSED ==> db.Snapshot() == old(db.Snapshot()))
              && (response.token.Some? <==>
                    && !NoInvite(e, old(db.Snapshot()), link, NormalizeEmail(email), c.now)
                    && NewUser(old(db.Snapshot()), c.id, NormalizeEmail(email))
                    && |path| > 3 && MintFault(e, path[3].found, c.id, 24, path[3].choice).None?)
  {
    hide Evolves, TablesOk, Conducted, Closed, OpensAs, Since, EntryOf, OwnsToken, InviteService.RedeemedBy;
    hide NormalizeEmail, Invites, NewUser, MintFault, InviteClaimed, BearerAdded, Display;
    ghost var claimed, token;
    var r: Result<(Uuid, string)>;
    r, path, claimed, token := InviteService.Redeem(e, db, link, email);
    more := [];
    if r.Ok? {
      return Granted(r.value.1), more, path;
    }
    ShapedAnswers(r.error);
    if r.error == CredentialRefused {
      more := AccessService.Charge(book, "portal|id:" + NormalizeEmail(email), AccessService.IpKey(ip));
      return REFUSED, more, path;
    }
    response := ErrorResponse(r.error);
  }

  // `rotate`: the address counter is asked first and charged on a refusal.
  method Rotate(e: Engine, db: Database, book: AttemptBook, link: string, ip: string)
    returns (response: Response, ghost more: seq<Event>, ghost now: Time, ghost path: Path)
    requires db.Valid() && book.Valid()
    modifies db, book
    ensures db.Valid() && book.Valid() && Evolves(old(db.Snapshot()), db.Snapshot())
    ensures book.log == old(book.log) + more
    ensures match Verdict(Since(old(book.log), AccessService.IpKey(ip)), now)
            case RateLimited(seconds) =>
              && response == Response(429, "portal_rate_limited", "rate limited", Some(seconds), None)
              && more == [] && db.Snapshot() == old(db.Snapshot())
            case Admitted =>
              path != [] &&
              if response == REFUSED then |more| == 1 && more[0].Failed? && more[0].key == AccessService.IpKey(ip)
              else more == []
    ensures response.token.None? && !db.shared ==> db.Snapshot() == old(db.Snapshot())
    ensures response.token.Some? ==> response == Granted(response.token.value) && Refuses(e, db.Snapshot(), link)
                                     && exists t :: OpensAs(e, db.Snapshot(), response.token.value, t)
    ensures Verdict(Since(old(book.log), AccessService.IpKey(ip)), now).Admitted? && e.bearerSecret == [] ==>
              response.status == 500 && response.code == "portal_internal_error"
    ensures Verdict(Since(old(book.log), AccessService.IpKey(ip)), now).Admitted? && e.bearerSecret != []
            && !db.shared && NoBearer(e, old(db.Snapshot()), link, path[0].choice.now) ==>
              && response == Response(401, "portal_credential_refused", "credential refused", None, None)
              && |more| == 1 && more[0].Failed? && more[0].key == AccessService.IpKey(ip)
    ensures Verdict(Since(old(book.log), AccessService.IpKey(ip)), now).Admitted?
            && !db.shared && !NoBearer(e, old(db.Snapshot()), link, path[0].choice.now) ==>
              && |path| > 2 && more == []
              && var c := path[2].choice;
              && (response.token.Some? <==>
                    && InTime(BearerUntil(c.now, 24)) && c.id !in old(db.tokens)
                    && forall t :: t in old(db.tokens) ==> old(db.tokens)[t].nonce != c.nonce)
              && (response.token.None? ==> response.status == 500 && response.code == "portal_internal_error")
  {
    hide Evolves, TablesOk, Conducted, Refuses, OpensAs, Since, EntryOf, LinkOf, IsSuccessor, Verdict, Accepts, InTime;
    hide BearerExchanged, NewToken, Display;
    EvolvesRefl(db.Snapshot());
    ghost var from := db.Snapshot();
    path := [];
    more := [];
    var clock: Time := *;
    now := clock;
    var gate := book.Check(AccessService.IpKey(ip), clock);
    if gate.RateLimited? {
      return ErrorResponse(TooManyAttempts(gate.retryAfterSeconds)), more, now, path;
    }
    ghost var x, id;
    var r: Result<string>;
    r, path, x, id := TokenService.RotateBearer(e, db, link, DEFAULT_BEARER_TTL_HOURS);
    if !db.shared && |path| > 2 {
      OwnerStored(e, from, link, path[0].choice.now, x.token, x.user, path[2].choice.id, path[2].choice.nonce);
    }
    if r.Ok? {
      return Granted(r.value), more, now, path;
    }
    ShapedAnswers(r.error);
    if r.error == CredentialRefused {
      var at: Time := *;
      book.RegisterFailure(AccessService.IpKey(ip), at);
      more := [Failed(AccessService.IpKey(ip), at)];
      return REFUSED, more, now, path;
    }
    response := ErrorResponse(r.error);
  }

  lemma OwnerStored(e: Engine, db: Tables, link: string, now: Time, t: Uuid, user: Uuid, id: Uuid, nonce: string)
    ensures Accepts(e, db, link, now, t, user) ==>
              (NewToken(db, id, user, nonce) <==>
                 id !in db.tokens && forall t :: t in db.tokens ==> db.tokens[t].nonce != nonce)
  {
  }
}
