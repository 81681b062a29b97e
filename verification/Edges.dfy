// The audit rows of the one-time edges. A mint, rotation, redemption, single
// revocation, account link or lifecycle cut-off is performed by one
// conditional statement, and the request that performed it writes its row
// afterwards: never twice, and never for an edge nobody performed.
module Edges {
  import opened Prelude
  import opened Text
  import opened Links
  import opened Schema
  import opened Protocol
  import Runs

  datatype Edge =
    | TokenMinted(id: Uuid)
    | TokenRotatedOut(id: Uuid)
    | TokenCut(id: Uuid)
    | InviteIssued(id: Uuid)
    | InviteUsed(id: Uuid)
    | InviteCut(id: Uuid)
    | UserLinked(id: Uuid)
    | UserCutOff(id: Uuid)

  // The edge a row records. Rows of the sweeps carry a count, not an id, and
  // record none.
  function EdgeOf(row: AuditRow): Option<Edge> {
    match row.event
    case EvBearerMinted => if row.token.Some? then Some(TokenMinted(row.token.value)) else None
    case EvBearerRotated => if row.token.Some? then Some(TokenRotatedOut(row.token.value)) else None
    case EvBearerRevoked => if row.token.Some? then Some(TokenCut(row.token.value)) else None
    case EvInviteMinted => if row.invite.Some? then Some(InviteIssued(row.invite.value)) else None
    case EvInviteRedeemed => if row.invite.Some? then Some(InviteUsed(row.invite.value)) else None
    case EvInviteRevoked => if row.invite.Some? then Some(InviteCut(row.invite.value)) else None
    case EvOnboardingLinked => if row.user.Some? then Some(UserLinked(row.user.value)) else None
    case EvAccessRevoked => if row.user.Some? then Some(UserCutOff(row.user.value)) else None
    case _ => None
  }

  // Whether the tables show the edge taken.
  predicate Performed(db: Tables, k: Edge) {
    match k
    case TokenMinted(t) => t in db.tokens
    case TokenRotatedOut(t) => t in db.tokens && db.tokens[t].status == TokenRotated
    case TokenCut(t) => t in db.tokens && db.tokens[t].status == TokenRevoked
    case InviteIssued(i) => i in db.invites
    case InviteUsed(i) => i in db.invites && db.invites[i].status == InviteRedeemed
    case InviteCut(i) => i in db.invites && db.invites[i].status == InviteRevoked
    case UserLinked(u) => u in db.users && db.users[u].sapiens.Some?
    case UserCutOff(u) => u in db.users && db.users[u].status == Revoked
  }

  function HeldBySweep(sweep: Sweep): Option<Edge> {
    if sweep.OfAccess? && sweep.lifecycle then Some(UserCutOff(sweep.user)) else None
  }

  // The edge a request, running or crashed, has performed and not recorded.
  function Holds(r: Req): Option<Edge> {
    match r
    case SweepTokens(_, sweep) => HeldBySweep(sweep)
    case SweepTokensRows(_, _, sweep) => HeldBySweep(sweep)
    case SweepInvites(_, sweep) => HeldBySweep(sweep)
    case SweepInvitesRows(_, _, sweep) => HeldBySweep(sweep)
    case Audit(row, next) => if EdgeOf(row).Some? then EdgeOf(row) else Holds(next)
    case Dead(last) => Holds(last)
    case _ => None
  }

  // A request records one edge at a time.
  predicate OneAtATime(r: Req) {
    r.Audit? ==> OneAtATime(r.next) && (EdgeOf(r.row).Some? ==> Holds(r.next) == None)
  }

  // What a step may do to the edges: write the held row, or hand an edge on,
  // or take a new edge in the very statement that performs it.
  predicate StepOnEdges(db: Tables, r: Req, m: Move) {
    var db' := Exec(db, m.stmt);
    && OneAtATime(m.next)
    && (if r.Audit? then
          db'.trail == db.trail + [r.row] && m.next == r.next
        else
          && db'.trail == db.trail
          && (Holds(m.next) == None || Holds(m.next) == Holds(r)
              || (!Performed(db, Holds(m.next).value) && Performed(db', Holds(m.next).value))))
  }

  lemma PerformedStays(a: Tables, b: Tables, k: Edge)
    requires Evolves(a, b) && Performed(a, k)
    ensures Performed(b, k)
  {
  }

  lemma BearerOnEdges(e: Engine, db: Tables, r: Req, c: Choice)
    requires r.BearerRow? || r.BearerStatus?
    ensures StepOnEdges(db, r, TokenMove(e, db, r, c))
  {
  }

  lemma SweepTokensOnEdges(e: Engine, db: Tables, r: Req, c: Choice)
    requires r.SweepTokens?
    ensures StepOnEdges(db, r, TokenMove(e, db, r, c))
  {
  }

  lemma RotateOnEdges(e: Engine, db: Tables, r: Req, c: Choice)
    requires r.RotateTx?
    ensures StepOnEdges(db, r, TokenMove(e, db, r, c))
  {
  }

  lemma MintOnEdges(e: Engine, db: Tables, r: Req, c: Choice)
    requires r.MintInsert?
    ensures StepOnEdges(db, r, TokenMove(e, db, r, c))
  {
  }

  lemma RevokeOneOnEdges(e: Engine, db: Tables, r: Req, c: Choice)
    requires r.RevokeOne?
    ensures StepOnEdges(db, r, TokenMove(e, db, r, c))
  {
  }

  lemma SweepTokensRowsOnEdges(e: Engine, db: Tables, r: Req, c: Choice)
    requires r.SweepTokensRows?
    ensures StepOnEdges(db, r, TokenMove(e, db, r, c))
  {
  }

  lemma MintInviteOnEdges(e: Engine, db: Tables, r: Req, c: Choice)
    requires r.MintInvite?
    ensures StepOnEdges(db, r, InviteMove(e, db, r, c))
  {
  }

  lemma RedeemRowOnEdges(e: Engine, db: Tables, r: Req, c: Choice)
    requires r.RedeemRow?
    ensures StepOnEdges(db, r, InviteMove(e, db, r, c))
  {
  }

  lemma RedeemTxOnEdges(e: Engine, db: Tables, r: Req, c: Choice)
    requires r.RedeemTx?
    ensures StepOnEdges(db, r, InviteMove(e, db, r, c))
  {
  }

  lemma RevokeInviteOnEdges(e: Engine, db: Tables, r: Req, c: Choice)
    requires r.RevokeInviteOne?
    ensures StepOnEdges(db, r, InviteMove(e, db, r, c))
  {
  }

  lemma SweepExpiredOnEdges(e: Engine, db: Tables, r: Req, c: Choice)
    requires r.SweepExpired?
    ensures StepOnEdges(db, r, InviteMove(e, db, r, c))
  {
  }

  lemma SweepExpiredRowsOnEdges(e: Engine, db: Tables, r: Req, c: Choice)
    requires r.SweepExpiredRows?
    ensures StepOnEdges(db, r, InviteMove(e, db, r, c))
  {
  }

  lemma SweepInvitesOnEdges(e: Engine, db: Tables, r: Req, c: Choice)
    requires r.SweepInvites?
    ensures StepOnEdges(db, r, InviteMove(e, db, r, c))
  {
  }

  lemma SweepInvitesRowsOnEdges(e: Engine, db: Tables, r: Req, c: Choice)
    requires r.SweepInvitesRows?
    ensures StepOnEdges(db, r, InviteMove(e, db, r, c))
  {
  }

  lemma SignupReadsOnEdges(db: Tables, r: Req, c: Choice, clock: nat)
    requires r.SignupPolicy? || r.SignupRow? || r.SignupCheck?
    ensures StepOnEdges(db, r, AccessMove(db, r, c, clock))
  {
  }

  lemma SignupInsertOnEdges(db: Tables, r: Req, c: Choice, clock: nat)
    requires r.SignupInsert?
    ensures StepOnEdges(db, r, AccessMove(db, r, c, clock))
  {
  }

  lemma SignupFallbackOnEdges(db: Tables, r: Req, c: Choice, clock: nat)
    requires r.SignupFallback?
    ensures StepOnEdges(db, r, AccessMove(db, r, c, clock))
  {
  }

  lemma LoginOnEdges(db: Tables, r: Req, c: Choice, clock: nat)
    requires r.LoginRow? || r.LoginCheck?
    ensures StepOnEdges(db, r, AccessMove(db, r, c, clock))
  {
  }

  lemma RevokeAccessOnEdges(db: Tables, r: Req, c: Choice, clock: nat)
    requires r.RevokeAccess?
    ensures StepOnEdges(db, r, AccessMove(db, r, c, clock))
  {
  }

  lemma SetPolicyOnEdges(db: Tables, r: Req, c: Choice, clock: nat)
    requires r.SetPolicy?
    ensures StepOnEdges(db, r, AccessMove(db, r, c, clock))
  {
  }

  lemma StampedPerforms(db: Tables, email: string, sapiens: Uuid, u: Uuid)
    requires Unlinked(db, u, email)
    ensures !Performed(db, UserLinked(u)) && Performed(Exec(db, StampUsers(email, sapiens)), UserLinked(u))
  {
  }

  lemma StampIsQuiet(db: Tables, email: string, sapiens: Uuid)
    ensures Exec(db, StampUsers(email, sapiens)).trail == db.trail && Exec(db, Nothing) == db
  {
  }

  lemma CreatedOnEdges(db: Tables, r: Req, c: Choice)
    requires r.Created?
    ensures StepOnEdges(db, r, LifecycleMove(db, r, c))
  {
    var m := LifecycleMove(db, r, c);
    assert OneAtATime(m.next);
    assert Holds(m.next) == if Unlinked(db, c.pick, r.email) then Some(UserLinked(c.pick)) else None;
    StampIsQuiet(db, r.email, r.sapiens);
    if Unlinked(db, c.pick, r.email) {
      StampedPerforms(db, r.email, r.sapiens, c.pick);
    }
    hide Exec, Performed, Unlinked, OneAtATime, Holds;
  }

  lemma GoneOnEdges(db: Tables, r: Req, c: Choice)
    requires r.Gone?
    ensures StepOnEdges(db, r, LifecycleMove(db, r, c))
  {
  }

  lemma RecordOnEdges(db: Tables, r: Req, c: Choice)
    requires OneAtATime(r) && (r.Audit? || r.Done? || r.Dead?)
    ensures StepOnEdges(db, r, LifecycleMove(db, r, c))
  {
    hide EdgeOf, Performed;
  }

  lemma TokensOnEdges(e: Engine, db: Tables, r: Req, c: Choice)
    requires IsTokenReq(r)
    ensures StepOnEdges(db, r, TokenMove(e, db, r, c))
  {
    hide StepOnEdges, TokenMove;
    if r.RotateTx? {
      RotateOnEdges(e, db, r, c);
    } else if r.MintInsert? {
      MintOnEdges(e, db, r, c);
    } else if r.RevokeOne? {
      RevokeOneOnEdges(e, db, r, c);
    } else if r.SweepTokensRows? {
      SweepTokensRowsOnEdges(e, db, r, c);
    } else if r.SweepTokens? {
      SweepTokensOnEdges(e, db, r, c);
    } else {
      BearerOnEdges(e, db, r, c);
    }
  }

  lemma InvitesOnEdges(e: Engine, db: Tables, r: Req, c: Choice)
    requires IsInviteReq(r)
    ensures StepOnEdges(db, r, InviteMove(e, db, r, c))
  {
    hide StepOnEdges, InviteMove;
    match r
    case MintInvite(_, _) => MintInviteOnEdges(e, db, r, c);
    case RedeemRow(_, _) => RedeemRowOnEdges(e, db, r, c);
    case RedeemTx(_, _) => RedeemTxOnEdges(e, db, r, c);
    case RevokeInviteOne(_) => RevokeInviteOnEdges(e, db, r, c);
    case SweepInvites(_, _) => SweepInvitesOnEdges(e, db, r, c);
    case SweepInvitesRows(_, _, _) => SweepInvitesRowsOnEdges(e, db, r, c);
    case SweepExpired => SweepExpiredOnEdges(e, db, r, c);
    case SweepExpiredRows(_) => SweepExpiredRowsOnEdges(e, db, r, c);
    case _ =>
  }

  lemma AccessOnEdges(db: Tables, r: Req, c: Choice, clock: nat)
    requires !IsTokenReq(r) && !IsInviteReq(r) && !IsLifecycleReq(r)
    ensures StepOnEdges(db, r, AccessMove(db, r, c, clock))
  {
    hide StepOnEdges, AccessMove;
    if r.SignupInsert? {
      SignupInsertOnEdges(db, r, c, clock);
    } else if r.SignupFallback? {
      SignupFallbackOnEdges(db, r, c, clock);
    } else if r.SignupPolicy? || r.SignupRow? || r.SignupCheck? {
      SignupReadsOnEdges(db, r, c, clock);
    } else if r.RevokeAccess? {
      RevokeAccessOnEdges(db, r, c, clock);
    } else if r.SetPolicy? {
      SetPolicyOnEdges(db, r, c, clock);
    } else {
      LoginOnEdges(db, r, c, clock);
    }
  }

  lemma LifecycleOnEdges(db: Tables, r: Req, c: Choice)
    requires OneAtATime(r) && IsLifecycleReq(r)
    ensures StepOnEdges(db, r, LifecycleMove(db, r, c))
  {
    hide StepOnEdges, OneAtATime, LifecycleMove;
    if r.Created? {
      CreatedOnEdges(db, r, c);
    } else if r.Gone? {
      GoneOnEdges(db, r, c);
    } else {
      RecordOnEdges(db, r, c);
    }
  }

  lemma MoveOnEdges(e: Engine, db: Tables, r: Req, c: Choice, clock: nat)
    requires OneAtATime(r)
    ensures StepOnEdges(db, r, MoveOf(e, db, r, c, clock))
  {
    hide StepOnEdges, OneAtATime, TokenMove, InviteMove, AccessMove, LifecycleMove;
    if IsTokenReq(r) {
      TokensOnEdges(e, db, r, c);
    } else if IsInviteReq(r) {
      InvitesOnEdges(e, db, r, c);
    } else if IsLifecycleReq(r) {
      LifecycleOnEdges(db, r, c);
    } else {
      AccessOnEdges(db, r, c, clock);
    }
  }

  // ----- the invariant over all requests ----------------------------------

  predicate Unrecorded(trail: seq<AuditRow>, k: Edge) {
    forall i :: 0 <= i < |trail| ==> EdgeOf(trail[i]) != Some(k)
  }

  // No two rows record the same edge.
  predicate RecordedOnce(trail: seq<AuditRow>) {
    forall i, j :: 0 <= i < j < |trail| && EdgeOf(trail[i]).Some? ==> EdgeOf(trail[i]) != EdgeOf(trail[j])
  }

  predicate RecordsTrue(db: Tables) {
    forall i :: 0 <= i < |db.trail| && EdgeOf(db.trail[i]).Some? ==> Performed(db, EdgeOf(db.trail[i]).value)
  }

  // Whoever holds an edge holds it alone, after it was performed and before
  // it is recorded.
  predicate HoldersOk(db: Tables, reqs: map<nat, Req>) {
    && (forall q :: q in reqs ==> OneAtATime(reqs[q]))
    && (forall q :: q in reqs && Holds(reqs[q]).Some? ==>
          Performed(db, Holds(reqs[q]).value) && Unrecorded(db.trail, Holds(reqs[q]).value))
    && (forall q, q' :: q in reqs && q' in reqs && q != q' && Holds(reqs[q]).Some? ==>
          Holds(reqs[q]) != Holds(reqs[q']))
  }

  predicate EdgesOk(s: State) {
    RecordedOnce(s.db.trail) && RecordsTrue(s.db) && HoldersOk(s.db, s.reqs)
  }

  lemma UnrecordedIfNotPerformed(db: Tables, k: Edge)
    requires RecordsTrue(db) && !Performed(db, k)
    ensures Unrecorded(db.trail, k)
  {
  }

  lemma RecordsStay(a: Tables, b: Tables)
    requires Evolves(a, b) && RecordsTrue(a) && b.trail == a.trail
    ensures RecordsTrue(b)
  {
    hide Performed, Evolves;
    forall i | 0 <= i < |b.trail| && EdgeOf(b.trail[i]).Some?
      ensures Performed(b, EdgeOf(b.trail[i]).value)
    {
      PerformedStays(a, b, EdgeOf(b.trail[i]).value);
    }
  }

  lemma HoldersStay(a: Tables, b: Tables, reqs: map<nat, Req>)
    requires Evolves(a, b) && HoldersOk(a, reqs) && b.trail == a.trail
    ensures HoldersOk(b, reqs)
  {
    hide Performed, Evolves, Holds, OneAtATime;
    forall q | q in reqs && Holds(reqs[q]).Some? ensures Performed(b, Holds(reqs[q]).value) {
      PerformedStays(a, b, Holds(reqs[q]).value);
    }
  }

  // A step that writes no row.
  lemma QuietStep(s: State, q: nat, m: Move, s': State)
    requires EdgesOk(s) && q in s.reqs && !s.reqs[q].Audit? && StepOnEdges(s.db, s.reqs[q], m)
    requires s'.db == Exec(s.db, m.stmt) && s'.reqs == s.reqs[q := m.next]
    ensures EdgesOk(s')
  {
    ExecEvolves(s.db, m.stmt);
    hide Exec, Performed, Evolves, Holds, OneAtATime, EdgeOf;
    RecordsStay(s.db, s'.db);
    HoldersStay(s.db, s'.db, s.reqs);
    var k := Holds(m.next);
    if k.Some? && k != Holds(s.reqs[q]) {
      UnrecordedIfNotPerformed(s.db, k.value);
    }
  }

  // What writing the held row does to the list of rows.
  lemma RowAppended(trail: seq<AuditRow>, row: AuditRow)
    requires RecordedOnce(trail) && (EdgeOf(row).Some? ==> Unrecorded(trail, EdgeOf(row).value))
    ensures RecordedOnce(trail + [row])
    ensures forall k :: Unrecorded(trail, k) && EdgeOf(row) != Some(k) ==> Unrecorded(trail + [row], k)
  {
    hide EdgeOf;
  }

  lemma HandedOn(r: Req)
    requires r.Audit? && OneAtATime(r)
    ensures OneAtATime(r.next)
    ensures if EdgeOf(r.row).Some? then Holds(r) == EdgeOf(r.row) && Holds(r.next) == None
            else Holds(r.next) == Holds(r)
  {
  }

  // The step that writes a row.
  lemma RecordingStep(s: State, q: nat, s': State)
    requires EdgesOk(s) && q in s.reqs && s.reqs[q].Audit?
    requires s'.db == s.db.(trail := s.db.trail + [s.reqs[q].row]) && s'.reqs == s.reqs[q := s.reqs[q].next]
    ensures EdgesOk(s')
  {
    var r := s.reqs[q];
    assert OneAtATime(r);
    HandedOn(r);
    SameTablesPerform(s.db, s'.db);
    RowAppended(s.db.trail, r.row);
    hide Performed, Holds, OneAtATime, EdgeOf, RecordedOnce, Unrecorded;
    assert RecordsTrue(s'.db);
    assert HoldersOk(s'.db, s'.reqs);
  }

  lemma SameTablesPerform(a: Tables, b: Tables)
    requires b.users == a.users && b.tokens == a.tokens && b.invites == a.invites
    ensures forall k :: Performed(b, k) <==> Performed(a, k)
  {
  }

  lemma EnterHoldsNothing(call: Call)
    ensures OneAtATime(Enter(call)) && Holds(Enter(call)) == None
  {
    hide NormalizeEmail, ParseUuid, Utf8Length;
  }

  lemma StepKeepsEdges(e: Engine, s: State, q: nat, c: Choice, clock: nat)
    requires EdgesOk(s) && q in s.reqs
    ensures EdgesOk(Apply(e, s, Step(q, c), clock))
  {
    var m := MoveOf(e, s.db, s.reqs[q], c, clock);
    assert OneAtATime(s.reqs[q]);
    MoveOnEdges(e, s.db, s.reqs[q], c, clock);
    hide MoveOf, Performed, EdgeOf, Holds, OneAtATime, RecordedOnce, RecordsTrue, HoldersOk;
    if s.reqs[q].Audit? {
      AuditMove(e, s.db, s.reqs[q], c, clock);
      RecordingStep(s, q, Apply(e, s, Step(q, c), clock));
    } else {
      QuietStep(s, q, m, Apply(e, s, Step(q, c), clock));
    }
  }

  lemma OfficerKeepsEdges(e: Engine, s: State, st: Stmt, clock: nat)
    requires EdgesOk(s) && ByOfficer(st)
    ensures EdgesOk(Apply(e, s, Officer(st), clock))
  {
    ExecEvolves(s.db, st);
    hide Performed, EdgeOf, Holds, OneAtATime, RecordedOnce, Evolves;
    RecordsStay(s.db, Exec(s.db, st));
    HoldersStay(s.db, Exec(s.db, st), s.reqs);
  }

  lemma BeginKeepsEdges(e: Engine, s: State, q: nat, call: Call, clock: nat)
    requires EdgesOk(s)
    ensures EdgesOk(Apply(e, s, Begin(q, call), clock))
  {
    EnterHoldsNothing(call);
    hide Enter, Performed, EdgeOf;
  }

  lemma CrashedHolds(r: Req)
    ensures Holds(Dead(r)) == Holds(r) && OneAtATime(Dead(r))
  {
  }

  lemma CrashKeepsEdges(e: Engine, s: State, q: nat, clock: nat)
    requires EdgesOk(s)
    ensures EdgesOk(Apply(e, s, Crash(q), clock))
  {
    if q in s.reqs {
      CrashedHolds(s.reqs[q]);
    }
    hide Performed, EdgeOf, RecordedOnce, RecordsTrue, Unrecorded, Holds, OneAtATime;
  }

  lemma ApplyKeepsEdges(e: Engine, s: State, a: Act, clock: nat)
    requires EdgesOk(s)
    ensures EdgesOk(Apply(e, s, a, clock))
  {
    hide EdgesOk;
    match a
    case Begin(q, call) => BeginKeepsEdges(e, s, q, call, clock);
    case Step(q, c) =>
      if q in s.reqs {
        StepKeepsEdges(e, s, q, c, clock);
      }
    case Officer(stmt) =>
      if ByOfficer(stmt) {
        OfficerKeepsEdges(e, s, stmt, clock);
      }
    case Crash(q) => CrashKeepsEdges(e, s, q, clock);
  }

  lemma AuditMove(e: Engine, db: Tables, r: Req, c: Choice, clock: nat)
    requires r.Audit?
    ensures MoveOf(e, db, r, c, clock) == Move(AppendAudit(r.row), r.next)
  {
  }

  lemma RunEdges(e: Engine, acts: seq<Act>, n: nat)
    requires n <= |acts|
    ensures EdgesOk(After(e, acts, n))
  {
    var inv := (k: nat, s: State) => EdgesOk(s);
    assert inv(0, INITIAL);
    forall k: nat, s | k < |acts| && inv(k, s) ensures inv(k + 1, StepOf(e)(s, acts[k], k)) {
      ApplyKeepsEdges(e, s, acts[k], k);
    }
    Runs.Always(INITIAL, StepOf(e), acts, n, inv);
  }
}
