// What holds over every run, whatever the interleaving and wherever the
// crashes fall.
module Safety {
  import opened Prelude
  import opened Text
  import opened Links
  import opened Schema
  import opened Verify
  import opened Protocol
  import opened Edges
  import Runs

  // ----- revocation is final ----------------------------------------------

  predicate IsRevoked(db: Tables, u: Uuid) { u in db.users && db.users[u].status == Revoked }

  // The request has read the principal's status as active, or goes on to act
  // as a bearer of that principal.
  predicate PastStatusRead(r: Req, u: Uuid) {
    match r
    case RotateTx(_, user, _) => user == u
    case Audit(_, next) => PastStatusRead(next, u)
    case Done(outcome) => (outcome.Accepted? || outcome.Superseded?) && outcome.user == u
    case _ => false
  }

  lemma TokenRefusesRevoked(e: Engine, db: Tables, r: Req, c: Choice, u: Uuid)
    requires IsRevoked(db, u) && !PastStatusRead(r, u) && IsTokenReq(r)
    ensures !PastStatusRead(TokenMove(e, db, r, c).next, u)
  {
    if r.MintInsert? {
      assert !PastStatusRead(Note(EvLoginSucceeded, Some(r.user), Done(Minted(r.user, c.id, r.via))), u);
    }
  }

  lemma InvitesRefuseRevoked(e: Engine, db: Tables, r: Req, c: Choice, u: Uuid)
    requires !PastStatusRead(r, u)
    ensures !PastStatusRead(InviteMove(e, db, r, c).next, u)
  {
  }

  lemma AccessRefusesRevoked(db: Tables, r: Req, c: Choice, clock: nat, u: Uuid)
    requires !PastStatusRead(r, u)
    ensures !PastStatusRead(AccessMove(db, r, c, clock).next, u)
    ensures !PastStatusRead(LifecycleMove(db, r, c).next, u)
  {
  }

  lemma OthersRefuseRevoked(e: Engine, db: Tables, r: Req, c: Choice, clock: nat, u: Uuid)
    requires !PastStatusRead(r, u) && !IsTokenReq(r)
    ensures !PastStatusRead(MoveOf(e, db, r, c, clock).next, u)
  {
    InvitesRefuseRevoked(e, db, r, c, u);
    AccessRefusesRevoked(db, r, c, clock, u);
    hide PastStatusRead, InviteMove, AccessMove, LifecycleMove;
  }

  lemma StepRefusesRevoked(e: Engine, s: State, a: Act, clock: nat, q: nat, u: Uuid)
    requires IsRevoked(s.db, u) && (q in s.reqs ==> !PastStatusRead(s.reqs[q], u))
    ensures var s' := Apply(e, s, a, clock);
            IsRevoked(s'.db, u) && (q in s'.reqs ==> !PastStatusRead(s'.reqs[q], u))
  {
    ApplyEvolves(e, s, a, clock);
    if a.Crash? && a.request in s.reqs {
      assert !PastStatusRead(Dead(s.reqs[a.request]), u);
    }
    hide MoveOf, Exec, PastStatusRead;
    match a
    case Step(q', c) =>
      if q' == q && q in s.reqs {
        if IsTokenReq(s.reqs[q]) {
          TokenRefusesRevoked(e, s.db, s.reqs[q], c, u);
        } else {
          OthersRefuseRevoked(e, s.db, s.reqs[q], c, clock, u);
        }
      }
    case Begin(q', call) => NoEntryIsPast(call, u);
    case _ =>
  }

  lemma NoEntryIsPast(call: Call, u: Uuid)
    ensures !PastStatusRead(Enter(call), u)
  {
    hide NormalizeEmail, ParseUuid, Utf8Length;
  }

  // Once a principal is revoked, no request that has not by then read its
  // status as active ever verifies or rotates a bearer of that principal:
  // not even one inserted afterwards by a mint or rotation still in flight,
  // nor when a crash skips the sweeps.
  lemma RevocationIsFinal(e: Engine, acts: seq<Act>, m: nat, n: nat, q: nat, u: Uuid)
    requires m <= n <= |acts|
    requires IsRevoked(After(e, acts, m).db, u)
    requires q in After(e, acts, m).reqs ==> !PastStatusRead(After(e, acts, m).reqs[q], u)
    ensures IsRevoked(After(e, acts, n).db, u)
    ensures q in After(e, acts, n).reqs ==> !PastStatusRead(After(e, acts, n).reqs[q], u)
    ensures forall link, now :: VerifyBearer(e, After(e, acts, n).db, link, now) != Ok(u)
  {
    var inv := (k: nat, s: State) =>
      IsRevoked(s.db, u) && (q in s.reqs ==> !PastStatusRead(s.reqs[q], u));
    forall k: nat, s | m <= k < n && inv(k, s) ensures inv(k + 1, StepOf(e)(s, acts[k], k)) {
      StepRefusesRevoked(e, s, acts[k], k, q, u);
    }
    Runs.From(INITIAL, StepOf(e), acts, m, n, inv);
  }

  // ----- one winner per rotation and per redemption -----------------------

  datatype Prize = Rotation(prior: Uuid) | Redemption(invite: Uuid)

  predicate Taken(db: Tables, p: Prize) {
    match p
    case Rotation(t) => t in db.tokens && db.tokens[t].status == TokenRotated
    case Redemption(i) => i in db.invites && db.invites[i].status == InviteRedeemed
  }

  // What a request has won by committing its transaction.
  function Won(r: Req): Option<Prize> {
    match r
    case MintInsert(_, _, via) => if via.ByRedeem? then Some(Redemption(via.invite)) else None
    case Audit(_, next) => Won(next)
    case Done(Superseded(prior, _, _)) => Some(Rotation(prior))
    case Done(Minted(_, _, via)) => if via.ByRedeem? then Some(Redemption(via.invite)) else None
    case Dead(last) => Won(last)
    case _ => None
  }

  lemma {:induction false} WonIsTaken(db: Tables, r: Req)
    requires ReqOk(db, r) && Won(r).Some?
    ensures Taken(db, Won(r).value)
  {
    match r
    case Audit(_, next) => WonIsTaken(db, next);
    case Dead(last) => WonIsTaken(db, last);
    case _ =>
  }

  // A step keeps what was won, or wins what was not yet taken.
  predicate WinsFreshly(db: Tables, r: Req, next: Req) {
    Won(next) == Won(r) || Won(next) == None || !Taken(db, Won(next).value)
  }

  lemma TokenWinsFreshly(e: Engine, db: Tables, r: Req, c: Choice)
    requires IsTokenReq(r)
    ensures WinsFreshly(db, r, TokenMove(e, db, r, c).next)
  {
    if r.MintInsert? {
      var done := Done(Minted(r.user, c.id, r.via));
      assert Won(Note(EvLoginSucceeded, Some(r.user), done)) == Won(done);
    }
  }

  lemma InviteWinsFreshly(e: Engine, db: Tables, r: Req, c: Choice)
    requires IsInviteReq(r)
    ensures WinsFreshly(db, r, InviteMove(e, db, r, c).next)
  {
  }

  lemma AccessWinsNothing(db: Tables, r: Req, c: Choice, clock: nat)
    requires !IsTokenReq(r) && !IsInviteReq(r) && !IsLifecycleReq(r)
    ensures WinsFreshly(db, r, AccessMove(db, r, c, clock).next)
  {
  }

  lemma LifecycleWinsNothing(db: Tables, r: Req, c: Choice)
    requires IsLifecycleReq(r)
    ensures WinsFreshly(db, r, LifecycleMove(db, r, c).next)
  {
  }

  lemma MoveWinsFreshly(e: Engine, db: Tables, r: Req, c: Choice, clock: nat)
    ensures WinsFreshly(db, r, MoveOf(e, db, r, c, clock).next)
  {
    hide WinsFreshly, TokenMove, InviteMove, AccessMove, LifecycleMove;
    if IsTokenReq(r) {
      TokenWinsFreshly(e, db, r, c);
    } else if IsInviteReq(r) {
      InviteWinsFreshly(e, db, r, c);
    } else if IsLifecycleReq(r) {
      LifecycleWinsNothing(db, r, c);
    } else {
      AccessWinsNothing(db, r, c, clock);
    }
  }

  predicate WinnersDistinct(reqs: map<nat, Req>) {
    forall q, q' :: q in reqs && q' in reqs && q != q' && Won(reqs[q]).Some? ==> Won(reqs[q]) != Won(reqs[q'])
  }

  lemma NoEntryWins(call: Call)
    ensures Won(Enter(call)) == None
  {
    hide NormalizeEmail, ParseUuid, Utf8Length;
  }

  lemma StepKeepsWinners(e: Engine, s: State, q: nat, c: Choice, clock: nat)
    requires Inv(s) && WinnersDistinct(s.reqs) && q in s.reqs
    ensures WinnersDistinct(Apply(e, s, Step(q, c), clock).reqs)
  {
    MoveWinsFreshly(e, s.db, s.reqs[q], c, clock);
    forall q' | q' in s.reqs && Won(s.reqs[q']).Some? ensures Taken(s.db, Won(s.reqs[q']).value) {
      WonIsTaken(s.db, s.reqs[q']);
    }
    hide Won, Taken, MoveOf, ReqOk, TablesOk;
  }

  lemma BeginKeepsWinners(e: Engine, s: State, q: nat, call: Call, clock: nat)
    requires WinnersDistinct(s.reqs)
    ensures WinnersDistinct(Apply(e, s, Begin(q, call), clock).reqs)
  {
    NoEntryWins(call);
    hide Enter, Won;
  }

  lemma CrashKeepsWinners(e: Engine, s: State, q: nat, clock: nat)
    requires WinnersDistinct(s.reqs)
    ensures WinnersDistinct(Apply(e, s, Crash(q), clock).reqs)
  {
    if q in s.reqs {
      assert Won(Dead(s.reqs[q])) == Won(s.reqs[q]);
    }
    hide Won;
  }

  lemma ApplyKeepsWinners(e: Engine, s: State, a: Act, clock: nat)
    requires Inv(s) && WinnersDistinct(s.reqs)
    ensures WinnersDistinct(Apply(e, s, a, clock).reqs)
  {
    hide Inv, MoveOf, Exec, Enter, Won, WinnersDistinct;
    match a
    case Begin(q, call) => BeginKeepsWinners(e, s, q, call, clock);
    case Step(q, c) =>
      if q in s.reqs {
        StepKeepsWinners(e, s, q, c, clock);
      }
    case Crash(q) => CrashKeepsWinners(e, s, q, clock);
    case Officer(_) =>
  }

  // Of any number of concurrent rotations of one bearer, or redemptions of
  // one invitation, at most one ever commits, crashed ones included.
  lemma OneWinner(e: Engine, acts: seq<Act>, n: nat, q: nat, q': nat)
    requires n <= |acts|
    requires q in After(e, acts, n).reqs && q' in After(e, acts, n).reqs
    requires Won(After(e, acts, n).reqs[q]).Some?
    requires Won(After(e, acts, n).reqs[q]) == Won(After(e, acts, n).reqs[q'])
    ensures q == q'
  {
    var inv := (k: nat, s: State) => Inv(s) && WinnersDistinct(s.reqs);
    InitialInv();
    forall k: nat, s | k < |acts| && inv(k, s) ensures inv(k + 1, StepOf(e)(s, acts[k], k)) {
      ApplyKeepsInv(e, s, acts[k], k);
      ApplyKeepsWinners(e, s, acts[k], k);
    }
    Runs.Always(INITIAL, StepOf(e), acts, n, inv);
  }

  // A token row leaves `active`, and an invitation leaves `pending`, in at
  // most one act of a run.
  predicate LeavesActive(e: Engine, acts: seq<Act>, n: nat, t: Uuid)
    requires n < |acts|
  {
    IsActiveToken(After(e, acts, n).db, t) && !IsActiveToken(After(e, acts, n + 1).db, t)
  }

  predicate LeavesPending(e: Engine, acts: seq<Act>, n: nat, i: Uuid)
    requires n < |acts|
  {
    IsPending(After(e, acts, n).db, i) && !IsPending(After(e, acts, n + 1).db, i)
  }

  // Active at first and not in between: not active afterwards.
  lemma GoneForGood(a: Tables, b: Tables, c: Tables, id: Uuid)
    requires Evolves(a, b) && Evolves(b, c)
    ensures IsActiveToken(a, id) && !IsActiveToken(b, id) ==> !IsActiveToken(c, id)
    ensures IsPending(a, id) && !IsPending(b, id) ==> !IsPending(c, id)
  {
    if IsActiveToken(a, id) {
      assert id in b.tokens;
    }
    if IsPending(a, id) {
      assert id in b.invites;
    }
  }

  lemma LeavesOnce(e: Engine, acts: seq<Act>, m: nat, n: nat, id: Uuid)
    requires m < n < |acts|
    ensures !(LeavesActive(e, acts, m, id) && LeavesActive(e, acts, n, id))
    ensures !(LeavesPending(e, acts, m, id) && LeavesPending(e, acts, n, id))
  {
    hide Evolves, After, IsActiveToken, IsPending;
    RunEvolves(e, acts, m, m + 1);
    RunEvolves(e, acts, m + 1, n);
    GoneForGood(After(e, acts, m).db, After(e, acts, m + 1).db, After(e, acts, n).db, id);
  }

  // ----- one principal per email ------------------------------------------

  // In every reachable state at most one live principal has any one email,
  // and each redeemed invitation has its own principal, of the same email.
  lemma ReachableUniqueness(e: Engine, acts: seq<Act>, n: nat, u: Uuid, v: Uuid, i: Uuid, j: Uuid)
    requires n <= |acts|
    ensures var db := After(e, acts, n).db;
            LiveUser(db, u) && LiveUser(db, v) && db.users[u].email == db.users[v].email ==> u == v
    ensures var db := After(e, acts, n).db;
            i in db.invites && db.invites[i].status == InviteRedeemed ==>
            exists w :: w in db.users && db.invites[i].redeemedBy == Some(w)
                        && db.users[w].email == db.invites[i].email
                        && (j in db.invites && db.invites[j].redeemedBy == Some(w) ==> i == j)
  {
    RunInv(e, acts, n);
    var db := After(e, acts, n).db;
    hide After;
    if LiveUser(db, u) && LiveUser(db, v) && db.users[u].email == db.users[v].email {
      OneLivePrincipal(db, u, v);
    }
    if i in db.invites && db.invites[i].status == InviteRedeemed {
      assert InviteRowOk(db.users, db.invites[i]);
      var w := db.invites[i].redeemedBy.value;
      assert w in db.users && db.invites[i].redeemedBy == Some(w);
    }
  }

  // A signup that succeeded for the email, whether it created the principal,
  // lost the race to create it, or found it there and logged in; and a login.
  predicate SignedUp(r: Req, email: string, u: Uuid) {
    && r.Done? && r.outcome.Minted? && r.outcome.user == u
    && (r.outcome.via == BySignup(email) || r.outcome.via == ByLogin(email))
  }

  lemma SignedUpPrincipal(db: Tables, r: Req, email: string, u: Uuid)
    requires ReqOk(db, r) && SignedUp(r, email, u)
    ensures u in db.users && db.users[u].email == email
  {
  }

  lemma OneLivePrincipal(db: Tables, u: Uuid, v: Uuid)
    requires TablesOk(db) && LiveUser(db, u) && LiveUser(db, v) && db.users[u].email == db.users[v].email
    ensures u == v
  {
    assert LiveRow(db.users, u) && LiveRow(db.users, v);
  }

  // All successful signups for one email return the same live principal: the
  // one that created it, those that lost the insert race and those that found
  // it there. So do the logins.
  lemma SignupsAgree(e: Engine, acts: seq<Act>, n: nat, q: nat, q': nat, email: string, u: Uuid, v: Uuid)
    requires n <= |acts|
    requires q in After(e, acts, n).reqs && SignedUp(After(e, acts, n).reqs[q], email, u)
    requires q' in After(e, acts, n).reqs && SignedUp(After(e, acts, n).reqs[q'], email, v)
    ensures u in After(e, acts, n).db.users && After(e, acts, n).db.users[u].email == email
    ensures LiveUser(After(e, acts, n).db, u) && LiveUser(After(e, acts, n).db, v) ==> u == v
  {
    RunInv(e, acts, n);
    var s := After(e, acts, n);
    hide After, TablesOk;
    assert ReqsOk(s.db, s.reqs);
    SignedUpPrincipal(s.db, s.reqs[q], email, u);
    SignedUpPrincipal(s.db, s.reqs[q'], email, v);
    if LiveUser(s.db, u) && LiveUser(s.db, v) {
      OneLivePrincipal(s.db, u, v);
    }
  }

  // ----- minted links -----------------------------------------------------

  // In every reachable state, for every string and time: verification accepts
  // a principal exactly for the readings of the link of some stored bearer of
  // that principal that is active, unexpired and not deleted, while the
  // principal itself is live and active.
  lemma ExactAcceptance(e: Engine, acts: seq<Act>, n: nat, link: string, now: Time, user: Uuid)
    requires n <= |acts| && e.bearerSecret != []
    ensures var db := After(e, acts, n).db;
            VerifyBearer(e, db, link, now) == Ok(user) <==>
            exists t :: t in db.tokens && GoodBearer(db, t, user, now) && SameReading(link, LinkOf(e, db, t).value)
  {
    RunInv(e, acts, n);
    AcceptedIffGoodBearer(e, After(e, acts, n).db, link, now, user);
  }

  // A stored bearer's link verifies at every later moment for its owner as
  // long as the row is good, at no other time and for no one else.
  lemma LinkOverTime(e: Engine, acts: seq<Act>, m: nat, n: nat, t: Uuid, now: Time, u: Uuid)
    requires m <= n <= |acts| && e.bearerSecret != [] && t in After(e, acts, m).db.tokens
    ensures t in After(e, acts, n).db.tokens
    ensures var link := LinkOf(e, After(e, acts, m).db, t).value;
            VerifyBearer(e, After(e, acts, n).db, link, now) == Ok(u) <==>
            GoodBearer(After(e, acts, n).db, t, u, now)
    ensures GoodBearer(After(e, acts, n).db, t, u, now) ==> u == After(e, acts, m).db.tokens[t].user
  {
    RunInv(e, acts, n);
    RunEvolves(e, acts, m, n);
    LinkIsStable(e, After(e, acts, m).db, After(e, acts, n).db, t);
    OwnLink(e, After(e, acts, n).db, t, now, u);
  }

  // ----- the account lifecycle --------------------------------------------

  // The account link is written once, and each principal gets at most one
  // `onboarding_linked` and at most one `lifecycle_access_revoked` row; so
  // does every other one-time edge.
  lemma LifecycleOnce(e: Engine, acts: seq<Act>, m: nat, n: nat, u: Uuid)
    requires m <= n <= |acts| && u in After(e, acts, m).db.users
    ensures u in After(e, acts, n).db.users
    ensures var before, after := After(e, acts, m).db.users[u].sapiens, After(e, acts, n).db.users[u].sapiens;
            before.Some? ==> after == before
    ensures RecordedOnce(After(e, acts, n).db.trail) && RecordsTrue(After(e, acts, n).db)
  {
    RunEvolves(e, acts, m, n);
    RunEdges(e, acts, n);
  }

  // The n-th and a later row of the trail never record the same edge.
  lemma EdgeRecordedOnce(e: Engine, acts: seq<Act>, n: nat, i: nat, j: nat, k: Edge)
    requires n <= |acts| && i < |After(e, acts, n).db.trail| && j < |After(e, acts, n).db.trail|
    requires EdgeOf(After(e, acts, n).db.trail[i]) == Some(k) == EdgeOf(After(e, acts, n).db.trail[j])
    ensures i == j && Performed(After(e, acts, n).db, k)
  {
    RunEdges(e, acts, n);
    var trail := After(e, acts, n).db.trail;
    assert RecordedOnce(trail);
    hide After, EdgeOf, Performed;
    assert RecordsTrue(After(e, acts, n).db);
  }

  // Every principal linked to the account is revoked already.
  predicate AllCut(db: Tables, sapiens: Uuid) {
    forall u :: u in db.users && LinkedTo(db, u, sapiens) ==> db.users[u].status == Revoked
  }

  // Act k is a step of request q on its lookup by account.
  predicate ReadsGone(e: Engine, acts: seq<Act>, k: nat, q: nat) {
    && k < |acts| && acts[k].Step? && acts[k].request == q
    && q in After(e, acts, k).reqs && After(e, acts, k).reqs[q].Gone?
  }

  // Where a `gone` envelope that finds nobody to cut can stand.
  predicate Quiet(db: Tables, r: Req, sapiens: Uuid) {
    match r
    case Gone(s) => s == sapiens
    case RevokeAccess(user, lifecycle) => lifecycle && IsRevoked(db, user)
    case Done(_) => true
    case Dead(_) => true
    case _ => false
  }

  lemma QuietMove(e: Engine, db: Tables, r: Req, c: Choice, clock: nat, sapiens: Uuid)
    requires Quiet(db, r, sapiens) && (r.Gone? ==> AllCut(db, sapiens))
    ensures var m := MoveOf(e, db, r, c, clock); m.stmt == Nothing && Quiet(db, m.next, sapiens)
  {
  }

  lemma QuietStays(a: Tables, b: Tables, r: Req, sapiens: Uuid)
    requires Evolves(a, b) && Quiet(a, r, sapiens)
    ensures Quiet(b, r, sapiens)
  {
  }

  lemma QuietAct(e: Engine, s: State, a: Act, clock: nat, q: nat, sapiens: Uuid)
    requires q in s.reqs && Quiet(s.db, s.reqs[q], sapiens)
    requires a.Step? && a.request == q && s.reqs[q].Gone? ==> AllCut(s.db, sapiens)
    ensures var s' := Apply(e, s, a, clock);
            && q in s'.reqs && Quiet(s'.db, s'.reqs[q], sapiens)
            && (a.Step? && a.request == q ==> s'.db == s.db)
  {
    var s' := Apply(e, s, a, clock);
    ApplyEvolves(e, s, a, clock);
    QuietStays(s.db, s'.db, s.reqs[q], sapiens);
    if a.Step? && a.request == q {
      QuietMove(e, s.db, s.reqs[q], a.choice, clock, sapiens);
      assert Exec(s.db, Nothing) == s.db;
    }
    if a.Crash? {
      assert Quiet(s'.db, Dead(s.reqs[q]), sapiens);
    }
    hide MoveOf, Exec, Quiet, AllCut, Evolves, Enter;
  }

  lemma GoneIsQuiet(db: Tables, sapiens: Uuid)
    ensures Quiet(db, Gone(sapiens), sapiens)
  {
  }

  // Whenever request q looks its account up, from act m and before act n,
  // every principal of the account is revoked.
  predicate FindsAllCut(e: Engine, acts: seq<Act>, m: nat, n: nat, q: nat, sapiens: Uuid) {
    forall k :: m <= k < n && ReadsGone(e, acts, k, q) ==> AllCut(After(e, acts, k).db, sapiens)
  }

  lemma QuietNext(e: Engine, acts: seq<Act>, n: nat, q: nat, sapiens: Uuid)
    requires n < |acts|
    requires q in After(e, acts, n).reqs && Quiet(After(e, acts, n).db, After(e, acts, n).reqs[q], sapiens)
    requires ReadsGone(e, acts, n, q) ==> AllCut(After(e, acts, n).db, sapiens)
    ensures q in After(e, acts, n + 1).reqs
    ensures Quiet(After(e, acts, n + 1).db, After(e, acts, n + 1).reqs[q], sapiens)
    ensures acts[n].Step? && acts[n].request == q ==> After(e, acts, n + 1).db == After(e, acts, n).db
  {
    OneMoreAct(e, acts, n);
    hide After, Quiet, AllCut, Apply;
    QuietAct(e, After(e, acts, n), acts[n], n, q, sapiens);
  }

  lemma {:induction false} QuietUpTo(e: Engine, acts: seq<Act>, m: nat, n: nat, q: nat, sapiens: Uuid)
    requires m <= n <= |acts| && q in After(e, acts, m).reqs && After(e, acts, m).reqs[q] == Gone(sapiens)
    requires FindsAllCut(e, acts, m, n, q, sapiens)
    ensures q in After(e, acts, n).reqs && Quiet(After(e, acts, n).db, After(e, acts, n).reqs[q], sapiens)
  {
    GoneIsQuiet(After(e, acts, m).db, sapiens);
    hide After, Quiet, AllCut, ReadsGone;
    if m < n {
      QuietUpTo(e, acts, m, n - 1, q, sapiens);
      QuietNext(e, acts, n - 1, q, sapiens);
    }
  }

  // A `gone` envelope that finds every principal of the account revoked
  // whenever it looks, changes no table and writes no row at any of its
  // steps, whatever runs in between and wherever it crashes.
  lemma GoneReplayIsQuiet(e: Engine, acts: seq<Act>, m: nat, n: nat, q: nat, sapiens: Uuid)
    requires m <= n < |acts| && q in After(e, acts, m).reqs && After(e, acts, m).reqs[q] == Gone(sapiens)
    requires FindsAllCut(e, acts, m, n + 1, q, sapiens)
    requires acts[n].Step? && acts[n].request == q
    ensures After(e, acts, n + 1).db == After(e, acts, n).db
  {
    hide After, Quiet, AllCut, ReadsGone;
    QuietUpTo(e, acts, m, n, q, sapiens);
    QuietNext(e, acts, n, q, sapiens);
  }
}
