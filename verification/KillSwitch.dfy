// The signup kill switch: where principals come from, and what a closed read
// shuts out.
module KillSwitch {
  import opened Prelude
  import opened Text
  import opened Links
  import opened Schema
  import opened Protocol
  import opened Rows

  // Act `at` is the policy read of request q, and it found signup open.
  predicate OpenRead(e: Engine, acts: seq<Act>, at: nat, q: nat) {
    && at < |acts| && acts[at].Step? && acts[at].request == q && !acts[at].choice.readFails
    && (var s := After(e, acts, at); q in s.reqs && s.reqs[q].SignupPolicy? && SwitchedOn(s.db))
  }

  predicate OriginTrue(e: Engine, acts: seq<Act>, n: nat, db: Tables, u: Uuid, o: Origin) {
    match o
    case FromInvite(i) =>
      i in db.invites && db.invites[i].redeemedBy == Some(u) && db.invites[i].status == InviteRedeemed
    case FromSignup(q, at) => at < n && OpenRead(e, acts, at, q)
  }

  // When the request read the policy as open, while that still matters.
  function ReadAt(r: Req): Option<nat> {
    if r.SignupRow? || r.SignupCheck? || r.SignupInsert? then Some(r.readAt) else None
  }

  predicate Provenance(e: Engine, acts: seq<Act>, n: nat, s: State) {
    && (forall u :: u in s.db.users ==> u in s.origins && OriginTrue(e, acts, n, s.db, u, s.origins[u]))
    && (forall q :: q in s.reqs && ReadAt(s.reqs[q]).Some? ==>
          ReadAt(s.reqs[q]).value < n && OpenRead(e, acts, ReadAt(s.reqs[q]).value, q))
    && (forall q :: q in s.reqs ==> PolicyOnlyFirst(s.reqs[q]))
  }

  lemma InsertsCreate(db: Tables, st: Stmt)
    ensures st.InsertUser? && CanInsertUser(db, st.id, st.email) ==>
            Exec(db, st).users.Keys == db.users.Keys + {st.id}
    ensures st.RedeemInvite? && CanRedeem(db, st.invite, st.user) ==>
            && Exec(db, st).users.Keys == db.users.Keys + {st.user}
            && st.invite in Exec(db, st).invites && Exec(db, st).invites[st.invite].redeemedBy == Some(st.user)
            && Exec(db, st).invites[st.invite].status == InviteRedeemed
  {
  }

  predicate InSignup(r: Req) { r.SignupPolicy? || ReadAt(r).Some? }

  // What follows an audit row is never a policy read or what hangs on one.
  predicate PolicyOnlyFirst(r: Req) {
    r.Audit? ==> !InSignup(r.next) && PolicyOnlyFirst(r.next)
  }

  lemma TokenMoveReads(e: Engine, db: Tables, r: Req, c: Choice)
    requires IsTokenReq(r)
    ensures var next := TokenMove(e, db, r, c).next; PolicyOnlyFirst(next) && !InSignup(next)
  {
    if r.MintInsert? {
      assert PolicyOnlyFirst(Note(EvLoginSucceeded, Some(r.user), Done(Minted(r.user, c.id, r.via))));
    }
  }

  lemma InviteMoveReads(e: Engine, db: Tables, r: Req, c: Choice)
    requires IsInviteReq(r)
    ensures var next := InviteMove(e, db, r, c).next; PolicyOnlyFirst(next) && !InSignup(next)
  {
  }

  lemma AccessMoveReads(db: Tables, r: Req, c: Choice, clock: nat)
    requires !IsTokenReq(r) && !IsInviteReq(r) && !IsLifecycleReq(r)
    ensures var next := AccessMove(db, r, c, clock).next;
            && PolicyOnlyFirst(next) && !next.SignupPolicy?
            && (ReadAt(next).Some? ==>
                  ReadAt(next) == ReadAt(r)
                  || (r.SignupPolicy? && SwitchedOn(db) && !c.readFails && ReadAt(next) == Some(clock)))
  {
    SwitchedOnIff(db);
    hide SwitchedOn, SignupOpen;
  }

  lemma LifecycleMoveReads(db: Tables, r: Req, c: Choice)
    requires IsLifecycleReq(r) && PolicyOnlyFirst(r)
    ensures var next := LifecycleMove(db, r, c).next; PolicyOnlyFirst(next) && !InSignup(next)
  {
  }

  // A read time is taken over, or is the time of the open read being made;
  // and no step leads back to a policy read.
  lemma MoveReads(e: Engine, db: Tables, r: Req, c: Choice, clock: nat)
    requires PolicyOnlyFirst(r)
    ensures var next := MoveOf(e, db, r, c, clock).next;
            && PolicyOnlyFirst(next) && !next.SignupPolicy?
            && (ReadAt(next).Some? ==>
                  ReadAt(next) == ReadAt(r)
                  || (r.SignupPolicy? && SwitchedOn(db) && !c.readFails && ReadAt(next) == Some(clock)))
  {
    hide TokenMove, InviteMove, AccessMove, LifecycleMove, PolicyOnlyFirst;
    if IsTokenReq(r) {
      TokenMoveReads(e, db, r, c);
    } else if IsInviteReq(r) {
      InviteMoveReads(e, db, r, c);
    } else if IsLifecycleReq(r) {
      LifecycleMoveReads(db, r, c);
    } else {
      AccessMoveReads(db, r, c, clock);
    }
  }

  lemma OriginStays(e: Engine, acts: seq<Act>, n: nat, a: Tables, b: Tables, u: Uuid, o: Origin)
    requires Evolves(a, b) && OriginTrue(e, acts, n, a, u, o)
    ensures OriginTrue(e, acts, n + 1, b, u, o)
  {
    hide OpenRead;
  }

  lemma MoveInserts(e: Engine, db: Tables, r: Req, c: Choice, clock: nat)
    ensures var st := MoveOf(e, db, r, c, clock).stmt;
            && (st.RedeemInvite? ==> CanRedeem(db, st.invite, st.user) && st.user !in db.users)
            && (st.InsertUser? ==> r.SignupInsert? && CanInsertUser(db, st.id, st.email) && st.id !in db.users)
  {
    hide TokenMove, InviteMove, AccessMove, LifecycleMove;
  }

  lemma KeysOnly(db: Tables, st: Stmt)
    ensures !st.RedeemInvite? && !st.InsertUser? ==> Exec(db, st).users.Keys == db.users.Keys
  {
  }

  // The origins after a step: those of before, and that of the new row.
  lemma StepOrigins(e: Engine, acts: seq<Act>, k: nat, q: nat, c: Choice)
    requires k < |acts| && acts[k] == Step(q, c) && q in After(e, acts, k).reqs
    requires Provenance(e, acts, k, After(e, acts, k))
    ensures var s := Apply(e, After(e, acts, k), acts[k], k);
            forall u :: u in s.db.users ==> u in s.origins && OriginTrue(e, acts, k + 1, s.db, u, s.origins[u])
  {
    hide After, MoveOf, OpenRead, Evolves, Exec, CanRedeem, CanInsertUser, PolicyOnlyFirst;
    var s := After(e, acts, k);
    var r := s.reqs[q];
    var m := MoveOf(e, s.db, r, c, k);
    var s' := Apply(e, s, acts[k], k);
    MoveInserts(e, s.db, r, c, k);
    InsertsCreate(s.db, m.stmt);
    KeysOnly(s.db, m.stmt);
    ExecEvolves(s.db, m.stmt);
    assert s'.db == Exec(s.db, m.stmt) && s'.origins == NewOrigins(s, q, m);
    forall u | u in s'.db.users ensures u in s'.origins && OriginTrue(e, acts, k + 1, s'.db, u, s'.origins[u]) {
      if u in s.db.users && s'.origins[u] == s.origins[u] {
        OriginStays(e, acts, k, s.db, s'.db, u, s.origins[u]);
      }
    }
  }

  lemma StepReads(e: Engine, acts: seq<Act>, k: nat, q: nat, c: Choice)
    requires k < |acts| && acts[k] == Step(q, c) && q in After(e, acts, k).reqs
    requires Provenance(e, acts, k, After(e, acts, k))
    ensures var s := Apply(e, After(e, acts, k), acts[k], k);
            forall x :: x in s.reqs && ReadAt(s.reqs[x]).Some? ==>
              ReadAt(s.reqs[x]).value < k + 1 && OpenRead(e, acts, ReadAt(s.reqs[x]).value, x)
    ensures var s := Apply(e, After(e, acts, k), acts[k], k);
            forall x :: x in s.reqs ==> PolicyOnlyFirst(s.reqs[x])
  {
    var s := After(e, acts, k);
    assert PolicyOnlyFirst(s.reqs[q]);
    MoveReads(e, s.db, s.reqs[q], c, k);
    hide MoveOf, Exec, PolicyOnlyFirst;
  }

  lemma QuietProvenance(e: Engine, acts: seq<Act>, k: nat, s: State, s': State)
    requires Provenance(e, acts, k, s) && Evolves(s.db, s'.db)
    requires s'.db.users.Keys == s.db.users.Keys && s'.origins == s.origins
    requires forall q :: q in s'.reqs && ReadAt(s'.reqs[q]).Some? ==>
                         q in s.reqs && ReadAt(s.reqs[q]) == ReadAt(s'.reqs[q])
    requires forall q :: q in s'.reqs ==> PolicyOnlyFirst(s'.reqs[q])
    ensures Provenance(e, acts, k + 1, s')
  {
    hide OpenRead, Evolves, PolicyOnlyFirst;
    forall u | u in s'.db.users ensures u in s'.origins && OriginTrue(e, acts, k + 1, s'.db, u, s'.origins[u]) {
      OriginStays(e, acts, k, s.db, s'.db, u, s.origins[u]);
    }
  }

  lemma NoEntryReads(call: Call)
    ensures ReadAt(Enter(call)) == None && PolicyOnlyFirst(Enter(call))
  {
    hide NormalizeEmail, ParseUuid, Utf8Length;
  }

  lemma OfficerProvenance(e: Engine, acts: seq<Act>, k: nat, s: State, st: Stmt)
    requires Provenance(e, acts, k, s)
    ensures Provenance(e, acts, k + 1, Apply(e, s, Officer(st), k))
  {
    hide OpenRead, Evolves, Exec, PolicyOnlyFirst;
    EvolvesRefl(s.db);
    ExecEvolves(s.db, st);
    KeysOnly(s.db, st);
    QuietProvenance(e, acts, k, s, Apply(e, s, Officer(st), k));
  }

  lemma BeginProvenance(e: Engine, acts: seq<Act>, k: nat, s: State, q: nat, call: Call)
    requires Provenance(e, acts, k, s)
    ensures Provenance(e, acts, k + 1, Apply(e, s, Begin(q, call), k))
  {
    hide OpenRead, Evolves, PolicyOnlyFirst, Enter;
    EvolvesRefl(s.db);
    NoEntryReads(call);
    QuietProvenance(e, acts, k, s, Apply(e, s, Begin(q, call), k));
  }

  lemma CrashedIsPast(r: Req)
    ensures PolicyOnlyFirst(Dead(r)) && ReadAt(Dead(r)) == None
  {
  }

  lemma CrashProvenance(e: Engine, acts: seq<Act>, k: nat, s: State, q: nat)
    requires Provenance(e, acts, k, s)
    ensures Provenance(e, acts, k + 1, Apply(e, s, Crash(q), k))
  {
    if q in s.reqs {
      CrashedIsPast(s.reqs[q]);
    }
    hide OpenRead, Evolves, PolicyOnlyFirst, OriginTrue;
    EvolvesRefl(s.db);
    QuietProvenance(e, acts, k, s, Apply(e, s, Crash(q), k));
  }

  lemma IdleProvenance(e: Engine, acts: seq<Act>, k: nat, s: State)
    requires Provenance(e, acts, k, s)
    ensures Provenance(e, acts, k + 1, s)
  {
    hide OpenRead, Evolves, PolicyOnlyFirst;
    EvolvesRefl(s.db);
    QuietProvenance(e, acts, k, s, s);
  }

  lemma ActKeepsProvenance(e: Engine, acts: seq<Act>, k: nat)
    requires k < |acts| && Provenance(e, acts, k, After(e, acts, k))
    ensures Provenance(e, acts, k + 1, Apply(e, After(e, acts, k), acts[k], k))
  {
    var s := After(e, acts, k);
    match acts[k]
    case Step(q, c) =>
      if q in s.reqs {
        StepOrigins(e, acts, k, q, c);
        StepReads(e, acts, k, q, c);
        hide After, Apply, OriginTrue, OpenRead, PolicyOnlyFirst;
      } else {
        IdleProvenance(e, acts, k, s);
        hide After, Provenance;
      }
    case Officer(stmt) =>
      hide After, Provenance, Apply;
      OfficerProvenance(e, acts, k, s, stmt);
    case Begin(q, call) =>
      hide After, Provenance, Apply;
      BeginProvenance(e, acts, k, s, q, call);
    case Crash(q) =>
      hide After, Provenance, Apply;
      CrashProvenance(e, acts, k, s, q);
  }

  lemma {:induction false} RunProvenance(e: Engine, acts: seq<Act>, n: nat)
    requires n <= |acts|
    ensures Provenance(e, acts, n, After(e, acts, n))
  {
    hide Provenance, Apply;
    if n == 0 {
      EmptyProvenance(e, acts);
    } else {
      RunProvenance(e, acts, n - 1);
      ActKeepsProvenance(e, acts, n - 1);
    }
  }

  lemma EmptyProvenance(e: Engine, acts: seq<Act>)
    ensures Provenance(e, acts, 0, INITIAL)
  {
  }

  // Every principal comes from a redeemed invitation, or from a signup that
  // itself read the policy as open.
  lemma EveryPrincipalAccounted(e: Engine, acts: seq<Act>, n: nat, u: Uuid)
    requires n <= |acts| && u in After(e, acts, n).db.users
    ensures u in After(e, acts, n).origins
    ensures match After(e, acts, n).origins[u]
            case FromInvite(i) =>
              i in After(e, acts, n).db.invites && After(e, acts, n).db.invites[i].redeemedBy == Some(u)
              && After(e, acts, n).db.invites[i].status == InviteRedeemed
            case FromSignup(q, at) => at < n && OpenRead(e, acts, at, q)
    ensures |After(e, acts, n).db.policies| <= 1
  {
    RunProvenance(e, acts, n);
    RunInv(e, acts, n);
    hide After, OpenRead, ReqsOk;
    assert OriginTrue(e, acts, n, After(e, acts, n).db, u, After(e, acts, n).origins[u]);
  }

  // ----- a closed read ----------------------------------------------------

  lemma NoReadBack(e: Engine, s: State, a: Act, clock: nat, q: nat)
    requires q in s.reqs && PolicyOnlyFirst(s.reqs[q]) && !s.reqs[q].SignupPolicy?
    ensures var s' := Apply(e, s, a, clock);
            q in s'.reqs && PolicyOnlyFirst(s'.reqs[q]) && !s'.reqs[q].SignupPolicy?
  {
    if a.Crash? {
      assert PolicyOnlyFirst(Dead(s.reqs[q]));
    }
    if a.Step? && a.request in s.reqs && a.request == q {
      MoveReads(e, s.db, s.reqs[q], a.choice, clock);
    }
    hide MoveOf, Exec, Enter, PolicyOnlyFirst;
  }

  lemma ReadMovesOn(e: Engine, s: State, q: nat, c: Choice, clock: nat)
    requires q in s.reqs && s.reqs[q].SignupPolicy?
    ensures var s' := Apply(e, s, Step(q, c), clock);
            q in s'.reqs && PolicyOnlyFirst(s'.reqs[q]) && !s'.reqs[q].SignupPolicy?
  {
    MoveReads(e, s.db, s.reqs[q], c, clock);
    hide MoveOf, Exec, PolicyOnlyFirst;
  }

  // The request has read the policy and is past the read.
  predicate HasRead(s: State, q: nat) {
    q in s.reqs && PolicyOnlyFirst(s.reqs[q]) && !s.reqs[q].SignupPolicy?
  }

  lemma HasReadNext(e: Engine, acts: seq<Act>, n: nat, q: nat)
    requires n < |acts| && HasRead(After(e, acts, n), q)
    ensures HasRead(After(e, acts, n + 1), q)
  {
    OneMoreAct(e, acts, n);
    hide After, Apply, PolicyOnlyFirst;
    NoReadBack(e, After(e, acts, n), acts[n], n, q);
  }

  lemma FirstRead(e: Engine, acts: seq<Act>, at: nat, q: nat)
    requires at < |acts| && acts[at].Step? && acts[at].request == q
    requires q in After(e, acts, at).reqs && After(e, acts, at).reqs[q].SignupPolicy?
    ensures HasRead(After(e, acts, at + 1), q)
  {
    OneMoreAct(e, acts, at);
    hide After, Apply, PolicyOnlyFirst;
    ReadMovesOn(e, After(e, acts, at), q, acts[at].choice, at);
  }

  // A request reads the policy at most once.
  lemma {:induction false} ReadsOnce(e: Engine, acts: seq<Act>, at: nat, n: nat, q: nat)
    requires at < n <= |acts| && acts[at].Step? && acts[at].request == q
    requires q in After(e, acts, at).reqs && After(e, acts, at).reqs[q].SignupPolicy?
    ensures HasRead(After(e, acts, n), q)
  {
    hide After, HasRead;
    if n == at + 1 {
      FirstRead(e, acts, at, q);
    } else {
      ReadsOnce(e, acts, at, n - 1, q);
      HasReadNext(e, acts, n - 1, q);
    }
  }

  // A signup whose policy read failed, or found the switch closed, creates
  // nothing, ever.
  lemma ClosedReadCreatesNothing(e: Engine, acts: seq<Act>, at: nat, n: nat, q: nat, u: Uuid)
    requires at < |acts| && n <= |acts| && acts[at].Step? && acts[at].request == q
    requires q in After(e, acts, at).reqs && After(e, acts, at).reqs[q].SignupPolicy?
    requires !SwitchedOn(After(e, acts, at).db) || acts[at].choice.readFails
    requires u in After(e, acts, n).db.users
    ensures u in After(e, acts, n).origins
    ensures After(e, acts, n).origins[u].FromSignup? ==> After(e, acts, n).origins[u].request != q
  {
    EveryPrincipalAccounted(e, acts, n, u);
    var o := After(e, acts, n).origins[u];
    if o.FromSignup? && o.request == q {
      if o.readAt < at {
        ReadsOnce(e, acts, o.readAt, at, q);
      } else if at < o.readAt {
        ReadsOnce(e, acts, at, o.readAt, q);
      }
      assert false;
    }
  }

  // The act that opens signup.
  predicate Opens(e: Engine, acts: seq<Act>, k: nat) {
    && k < |acts| && acts[k].Step?
    && (var s := After(e, acts, k); acts[k].request in s.reqs && s.reqs[acts[k].request] == SetPolicy(true))
  }

  lemma OnlyPolicySets(e: Engine, db: Tables, r: Req, c: Choice, clock: nat)
    ensures var st := MoveOf(e, db, r, c, clock).stmt;
            && (st.SetPolicyRow? ==> r == SetPolicy(st.enabled))
            && !st.DeletePolicy?
  {
    hide TokenMove, InviteMove, AccessMove, LifecycleMove;
  }

  lemma ClosedBy(db: Tables, st: Stmt)
    requires !SwitchedOn(db) && !st.DeletePolicy? && (st.SetPolicyRow? ==> !st.enabled)
    ensures !SwitchedOn(Exec(db, st))
  {
    assert st.SetPolicyRow? ==> Exec(db, st).policies == map[st.id := Policy(false, false)];
    hide Exec;
  }

  lemma OnlyOpeningOpens(e: Engine, db: Tables, r: Req, c: Choice, clock: nat)
    requires !SwitchedOn(db) && r != SetPolicy(true)
    ensures !SwitchedOn(Exec(db, MoveOf(e, db, r, c, clock).stmt))
  {
    hide MoveOf, Exec, SwitchedOn;
    OnlyPolicySets(e, db, r, c, clock);
    ClosedBy(db, MoveOf(e, db, r, c, clock).stmt);
  }

  lemma OfficersOpenNothing(db: Tables, st: Stmt)
    requires ByOfficer(st)
    ensures SwitchedOn(Exec(db, st)) ==> SwitchedOn(db)
  {
    var db' := Exec(db, st);
    assert !st.DeletePolicy? ==> db'.policies == db.policies;
    if SwitchedOn(db') {
      var p :| p in db'.policies && !db'.policies[p].deleted && db'.policies[p].enabled;
      assert p in db.policies && !db.policies[p].deleted && db.policies[p].enabled;
    }
  }

  lemma ClosedNext(e: Engine, acts: seq<Act>, k: nat)
    requires k < |acts| && !SwitchedOn(After(e, acts, k).db) && !Opens(e, acts, k)
    ensures !SwitchedOn(After(e, acts, k + 1).db)
  {
    OneMoreAct(e, acts, k);
    var s, a := After(e, acts, k), acts[k];
    hide MoveOf, Exec, SwitchedOn, After;
    if a.Step? && a.request in s.reqs {
      OnlyOpeningOpens(e, s.db, s.reqs[a.request], a.choice, k);
    } else if a.Officer? && ByOfficer(a.stmt) {
      OfficersOpenNothing(s.db, a.stmt);
    }
  }

  // A closed switch stays closed until an act opens it.
  lemma {:induction false} StaysClosed(e: Engine, acts: seq<Act>, m: nat, n: nat)
    requires m <= n <= |acts| && !SwitchedOn(After(e, acts, m).db)
    requires forall k :: m <= k < n ==> !Opens(e, acts, k)
    ensures !SwitchedOn(After(e, acts, n).db)
  {
    hide After, SwitchedOn, Opens;
    if m < n {
      StaysClosed(e, acts, m, n - 1);
      ClosedNext(e, acts, n - 1);
    }
  }

  // The acts that close it: the switch is set to off, or an officer deletes
  // the policy row.
  predicate Closes(e: Engine, acts: seq<Act>, k: nat) {
    && k < |acts|
    && (var s := After(e, acts, k);
        match acts[k]
        case Step(q, _) => q in s.reqs && s.reqs[q] == SetPolicy(false)
        case Officer(DeletePolicy(p)) => p in s.db.policies
        case _ => false)
  }

  lemma RowDeleted(db: Tables, p: Uuid)
    requires |db.policies| <= 1
    ensures SwitchedOn(Exec(db, DeletePolicy(p))) <==> SwitchedOn(db) && p !in db.policies
  {
    var db' := Exec(db, DeletePolicy(p));
    if p in db.policies {
      assert |db.policies.Keys - {p}| == |db.policies.Keys| - 1;
      forall x | x in db'.policies ensures db'.policies[x].deleted {
        assert x == p || x in db.policies.Keys - {p};
      }
    } else {
      assert db' == db;
    }
  }

  // In every reachable state the switch is off once its row is deleted, and
  // deleting any other id changes nothing about it.
  lemma DeletionCloses(e: Engine, acts: seq<Act>, p: Uuid)
    ensures var before := After(e, acts, |acts|).db;
            var after := After(e, acts + [Officer(DeletePolicy(p))], |acts| + 1).db;
            SwitchedOn(after) <==> SwitchedOn(before) && p !in before.policies
  {
    RunInv(e, acts, |acts|);
    Extended(e, acts, Officer(DeletePolicy(p)));
    RowDeleted(After(e, acts, |acts|).db, p);
    hide After, Exec, SwitchedOn;
  }

  lemma SetOff(e: Engine, db: Tables, c: Choice, clock: nat)
    ensures !SwitchedOn(Exec(db, MoveOf(e, db, SetPolicy(false), c, clock).stmt))
  {
    var db' := Exec(db, SetPolicyRow(c.id, false));
    assert db'.policies == map[c.id := Policy(false, false)];
  }

  // A closing act leaves no row that is live and on.
  lemma ClosingCloses(e: Engine, acts: seq<Act>, k: nat)
    requires Closes(e, acts, k)
    ensures !SwitchedOn(After(e, acts, k + 1).db)
  {
    RunInv(e, acts, k);
    OneMoreAct(e, acts, k);
    var s := After(e, acts, k);
    match acts[k]
    case Step(q, c) => SetOff(e, s.db, c, k);
    case Officer(st) => RowDeleted(s.db, st.policy);
    case _ =>
    hide After, MoveOf, Exec, SwitchedOn;
  }

  // A signup that reads the policy while the switch is closed never creates a
  // principal, as long as nobody opens it between the two.
  lemma ClosedBites(e: Engine, acts: seq<Act>, m: nat, at: nat, n: nat, q: nat, u: Uuid)
    requires m <= at < |acts| && n <= |acts| && acts[at].Step? && acts[at].request == q
    requires !SwitchedOn(After(e, acts, m).db)
    requires forall k :: m <= k < at ==> !Opens(e, acts, k)
    requires q in After(e, acts, at).reqs && After(e, acts, at).reqs[q].SignupPolicy?
    requires u in After(e, acts, n).db.users
    ensures u in After(e, acts, n).origins
    ensures After(e, acts, n).origins[u].FromSignup? ==> After(e, acts, n).origins[u].request != q
  {
    StaysClosed(e, acts, m, at);
    ClosedReadCreatesNothing(e, acts, at, n, q, u);
  }

  // The kill bites at once: a signup that reads the policy after an act that
  // closes it, be it the switch set to off or its row deleted, and before the
  // next open never creates a principal.
  lemma KillBites(e: Engine, acts: seq<Act>, m: nat, at: nat, n: nat, q: nat, u: Uuid)
    requires m < at < |acts| && n <= |acts| && acts[at].Step? && acts[at].request == q
    requires Closes(e, acts, m) && forall k :: m < k < at ==> !Opens(e, acts, k)
    requires q in After(e, acts, at).reqs && After(e, acts, at).reqs[q].SignupPolicy?
    requires u in After(e, acts, n).db.users
    ensures u in After(e, acts, n).origins
    ensures After(e, acts, n).origins[u].FromSignup? ==> After(e, acts, n).origins[u].request != q
  {
    hide After, Closes, SwitchedOn;
    ClosingCloses(e, acts, m);
    ClosedBites(e, acts, m + 1, at, n, q, u);
  }
}
