// Whom a `signup_created` row names: the principal its writer created, or the
// winner of the race its writer lost.
module Signups {
  import opened Prelude
  import opened Text
  import opened Links
  import opened Schema
  import opened Protocol

  // Act j is the insert of signup q.
  predicate Inserts(e: Engine, acts: seq<Act>, j: nat, q: nat) {
    && j < |acts| && acts[j].Step? && acts[j].request == q
    && q in After(e, acts, j).reqs && After(e, acts, j).reqs[q].SignupInsert?
  }

  // The insert found its address, and its id, free.
  predicate Wins(e: Engine, acts: seq<Act>, j: nat, q: nat)
    requires Inserts(e, acts, j, q)
  {
    var s := After(e, acts, j);
    |s.reqs[q].email| <= MAX_EMAIL_CHARS && CanInsertUser(s.db, acts[j].choice.id, s.reqs[q].email)
  }

  // Principal u was created by request q.
  predicate Own(s: State, u: Uuid, q: nat) {
    u in s.origins && s.origins[u].FromSignup? && s.origins[u].request == q
  }

  predicate CreatedNone(s: State, q: nat) { forall u :: u in s.origins ==> !Own(s, u, q) }

  predicate BeforeInsert(r: Req) { r.SignupPolicy? || r.SignupRow? || r.SignupCheck? || r.SignupInsert? }

  // The request is about to write a `signup_created` row.
  predicate Names(r: Req) { r.Audit? && r.row.event == EvSignupCreated && r.row.user.Some? }

  predicate PastSignup(r: Req) { !BeforeInsert(r) && !r.SignupFallback? && !Names(r) }

  // What follows an audit row is past the signup.
  predicate CreatedFirst(r: Req) { r.Audit? ==> PastSignup(r.next) && CreatedFirst(r.next) }

  ghost predicate NoInsert(e: Engine, acts: seq<Act>, n: nat, q: nat) {
    forall j: nat :: j < n ==> !Inserts(e, acts, j, q)
  }

  ghost predicate Lost(e: Engine, acts: seq<Act>, n: nat, q: nat) {
    && (exists j: nat :: j < n && Inserts(e, acts, j, q))
    && (forall j: nat :: j < n && Inserts(e, acts, j, q) ==> !Wins(e, acts, j, q))
  }

  // The insert of q won if and only if q created u.
  ghost predicate Tells(e: Engine, acts: seq<Act>, n: nat, q: nat, s: State, u: Uuid) {
    && (exists j: nat :: j < n && Inserts(e, acts, j, q))
    && (forall j: nat :: j < n && Inserts(e, acts, j, q) ==> (Wins(e, acts, j, q) <==> Own(s, u, q)))
  }

  // Where signup q stands, by what it has done in the first n acts.
  ghost predicate Known(e: Engine, acts: seq<Act>, n: nat, s: State, q: nat) {
    if q !in s.reqs then NoInsert(e, acts, n, q) && CreatedNone(s, q)
    else
      var r := s.reqs[q];
      && CreatedFirst(r)
      && (BeforeInsert(r) ==> NoInsert(e, acts, n, q) && CreatedNone(s, q))
      && (r.SignupFallback? ==> Lost(e, acts, n, q) && CreatedNone(s, q))
      && (Names(r) ==> r.row.user.value in s.db.users && Tells(e, acts, n, q, s, r.row.user.value))
  }

  // ----- one move ---------------------------------------------------------

  lemma PastTokenMove(e: Engine, db: Tables, r: Req, c: Choice)
    requires IsTokenReq(r)
    ensures var next := TokenMove(e, db, r, c).next; PastSignup(next) && CreatedFirst(next)
  {
    if r.MintInsert? {
      assert CreatedFirst(Note(EvLoginSucceeded, Some(r.user), Done(Minted(r.user, c.id, r.via))));
    }
  }

  lemma PastInviteMove(e: Engine, db: Tables, r: Req, c: Choice)
    requires IsInviteReq(r)
    ensures var next := InviteMove(e, db, r, c).next; PastSignup(next) && CreatedFirst(next)
  {
  }

  lemma PastLifecycleMove(db: Tables, r: Req, c: Choice)
    requires IsLifecycleReq(r) && CreatedFirst(r)
    ensures var next := LifecycleMove(db, r, c).next;
            CreatedFirst(next) && (PastSignup(next) || next == r)
    ensures r.Audit? ==> PastSignup(LifecycleMove(db, r, c).next)
  {
  }

  lemma PastAccessMove(db: Tables, r: Req, c: Choice, clock: nat)
    requires r.LoginRow? || r.LoginCheck? || r.RevokeAccess? || r.SetPolicy?
    ensures var next := AccessMove(db, r, c, clock).next; PastSignup(next) && CreatedFirst(next)
  {
  }

  // A request past its signup stays there.
  lemma StaysPast(e: Engine, db: Tables, r: Req, c: Choice, clock: nat)
    requires CreatedFirst(r) && !BeforeInsert(r) && !r.SignupFallback?
    ensures var next := MoveOf(e, db, r, c, clock).next; PastSignup(next) && CreatedFirst(next)
  {
    hide TokenMove, InviteMove, AccessMove, LifecycleMove;
    if IsTokenReq(r) {
      PastTokenMove(e, db, r, c);
    } else if IsInviteReq(r) {
      PastInviteMove(e, db, r, c);
    } else if IsLifecycleReq(r) {
      PastLifecycleMove(db, r, c);
      if !r.Audit? {
        RestIsPast(r);
      }
    } else {
      PastAccessMove(db, r, c, clock);
    }
  }

  lemma RestIsPast(r: Req)
    requires IsLifecycleReq(r) && !r.Audit?
    ensures PastSignup(r)
  {
  }

  lemma ReadsOfSignup(e: Engine, db: Tables, r: Req, c: Choice, clock: nat)
    requires r.SignupPolicy? || r.SignupRow? || r.SignupCheck?
    ensures var m := MoveOf(e, db, r, c, clock);
            m.stmt == Nothing && CreatedFirst(m.next) && !m.next.SignupFallback? && !Names(m.next)
  {
  }

  lemma InsertOfSignup(e: Engine, db: Tables, r: Req, c: Choice, clock: nat)
    requires r.SignupInsert?
    ensures var m := MoveOf(e, db, r, c, clock);
            && CreatedFirst(m.next) && !BeforeInsert(m.next)
            && (if |r.email| <= MAX_EMAIL_CHARS && CanInsertUser(db, c.id, r.email) then
                  m.stmt == InsertUser(c.id, r.email) && Names(m.next) && m.next.row.user == Some(c.id)
                  && c.id in Exec(db, m.stmt).users
                else m.stmt == Nothing && !Names(m.next))
  {
  }

  lemma FallbackOfSignup(e: Engine, db: Tables, r: Req, c: Choice, clock: nat)
    requires r.SignupFallback?
    ensures var m := MoveOf(e, db, r, c, clock);
            && m.stmt == Nothing && CreatedFirst(m.next) && !BeforeInsert(m.next)
            && (Names(m.next) ==> m.next.row.user.value in db.users)
  {
  }

  // ----- one act ----------------------------------------------------------

  // Nothing about signup q is touched by an act of somebody else.
  lemma OthersTouchNothing(e: Engine, s: State, a: Act, clock: nat, q: nat, u: Uuid)
    requires !(a.Step? && a.request == q) && !(a.Begin? && a.request == q) && !(a.Crash? && a.request == q)
    ensures var s' := Apply(e, s, a, clock);
            && (q in s'.reqs <==> q in s.reqs) && (q in s.reqs ==> s'.reqs[q] == s.reqs[q])
            && (CreatedNone(s, q) ==> CreatedNone(s', q))
            && (u in s.db.users ==> u in s'.db.users && (Own(s', u, q) <==> Own(s, u, q)))
  {
    ApplyEvolves(e, s, a, clock);
    if a.Step? && a.request in s.reqs {
      InsertsAreNew(e, s.db, s.reqs[a.request], a.choice, clock);
    }
    hide MoveOf, Exec, Enter;
  }

  lemma InsertsAreNew(e: Engine, db: Tables, r: Req, c: Choice, clock: nat)
    ensures var st := MoveOf(e, db, r, c, clock).stmt;
            && (st.InsertUser? ==> st.id !in db.users)
            && (st.RedeemInvite? ==> st.user !in db.users)
  {
  }

  lemma NobodyInserts(e: Engine, acts: seq<Act>, n: nat, q: nat, s: State, s': State, u: Uuid)
    requires !Inserts(e, acts, n, q)
    ensures NoInsert(e, acts, n, q) ==> NoInsert(e, acts, n + 1, q)
    ensures Lost(e, acts, n, q) ==> Lost(e, acts, n + 1, q)
    ensures Tells(e, acts, n, q, s, u) && (Own(s', u, q) <==> Own(s, u, q)) ==> Tells(e, acts, n + 1, q, s', u)
  {
    hide Inserts, Wins, Own;
  }

  lemma OtherActKnown(e: Engine, acts: seq<Act>, n: nat, q: nat)
    requires n < |acts| && Known(e, acts, n, After(e, acts, n), q)
    requires !(acts[n].Step? && acts[n].request == q) && !(acts[n].Begin? && acts[n].request == q)
    requires !(acts[n].Crash? && acts[n].request == q)
    ensures Known(e, acts, n + 1, Apply(e, After(e, acts, n), acts[n], n), q)
  {
    var s := After(e, acts, n);
    var s' := Apply(e, s, acts[n], n);
    assert !Inserts(e, acts, n, q);
    var u := if q in s.reqs && Names(s.reqs[q]) then s.reqs[q].row.user.value else 0;
    hide After, Apply, Inserts, Own, CreatedNone, NoInsert, Lost, Tells, CreatedFirst;
    OthersTouchNothing(e, s, acts[n], n, q, u);
    NobodyInserts(e, acts, n, q, s, s', u);
  }

  lemma EntersBefore(call: Call)
    ensures CreatedFirst(Enter(call)) && !Enter(call).SignupFallback? && !Names(Enter(call))
  {
    hide NormalizeEmail, ParseUuid, Utf8Length;
  }

  lemma BeginKnown(e: Engine, acts: seq<Act>, n: nat, q: nat)
    requires n < |acts| && Known(e, acts, n, After(e, acts, n), q) && acts[n].Begin? && acts[n].request == q
    ensures Known(e, acts, n + 1, Apply(e, After(e, acts, n), acts[n], n), q)
  {
    var s := After(e, acts, n);
    assert !Inserts(e, acts, n, q);
    var u := if q in s.reqs && Names(s.reqs[q]) then s.reqs[q].row.user.value else 0;
    NobodyInserts(e, acts, n, q, s, s, u);
    EntersBefore(acts[n].call);
    var s' := Apply(e, s, acts[n], n);
    assert CreatedNone(s, q) ==> CreatedNone(s', q);
    hide After, Enter, Inserts, Own, CreatedNone, NoInsert, Lost, Tells, CreatedFirst;
  }

  lemma CrashKnown(e: Engine, acts: seq<Act>, n: nat, q: nat)
    requires n < |acts| && Known(e, acts, n, After(e, acts, n), q) && acts[n].Crash? && acts[n].request == q
    ensures Known(e, acts, n + 1, Apply(e, After(e, acts, n), acts[n], n), q)
  {
    var s := After(e, acts, n);
    assert !Inserts(e, acts, n, q);
    var u := if q in s.reqs && Names(s.reqs[q]) then s.reqs[q].row.user.value else 0;
    NobodyInserts(e, acts, n, q, s, s, u);
    if q in s.reqs {
      assert CreatedFirst(Dead(s.reqs[q])) && PastSignup(Dead(s.reqs[q]));
    }
    hide After, Inserts, Own, CreatedNone, NoInsert, Lost, Tells, CreatedFirst;
  }

  // The step that inserts.
  lemma InsertKnown(e: Engine, acts: seq<Act>, n: nat, q: nat)
    requires n < |acts| && Known(e, acts, n, After(e, acts, n), q) && Inserts(e, acts, n, q)
    ensures Known(e, acts, n + 1, Apply(e, After(e, acts, n), acts[n], n), q)
  {
    var s := After(e, acts, n);
    var c := acts[n].choice;
    InsertOfSignup(e, s.db, s.reqs[q], c, n);
    var s' := Apply(e, s, acts[n], n);
    assert NoInsert(e, acts, n, q) && CreatedNone(s, q);
    assert Wins(e, acts, n, q) <==>
           |s.reqs[q].email| <= MAX_EMAIL_CHARS && CanInsertUser(s.db, c.id, s.reqs[q].email);
    hide MoveOf, Exec, CanInsertUser, After, CreatedFirst;
    if Wins(e, acts, n, q) {
      assert Own(s', c.id, q);
      FirstInsert(e, acts, n, q, s', c.id);
    } else {
      assert s'.origins == s.origins;
      FirstInsert(e, acts, n, q, s', c.id);
      hide Wins;
    }
  }

  lemma FirstInsert(e: Engine, acts: seq<Act>, n: nat, q: nat, s': State, u: Uuid)
    requires NoInsert(e, acts, n, q) && Inserts(e, acts, n, q)
    ensures !Wins(e, acts, n, q) ==> Lost(e, acts, n + 1, q)
    ensures Wins(e, acts, n, q) && Own(s', u, q) ==> Tells(e, acts, n + 1, q, s', u)
  {
    hide Inserts, Wins, Own;
  }

  lemma LostTells(e: Engine, acts: seq<Act>, n: nat, q: nat, s: State, u: Uuid)
    requires Lost(e, acts, n, q) && CreatedNone(s, q)
    ensures Tells(e, acts, n, q, s, u)
  {
    hide Inserts, Wins;
    assert u in s.origins ==> !Own(s, u, q);
  }

  // Any other step of the request.
  lemma StepKnown(e: Engine, acts: seq<Act>, n: nat, q: nat)
    requires n < |acts| && acts[n].Step? && acts[n].request == q && q in After(e, acts, n).reqs
    requires Known(e, acts, n, After(e, acts, n), q) && !Inserts(e, acts, n, q)
    ensures Known(e, acts, n + 1, Apply(e, After(e, acts, n), acts[n], n), q)
  {
    var s, c := After(e, acts, n), acts[n].choice;
    var r := s.reqs[q];
    var s' := Apply(e, s, acts[n], n);
    if r.SignupPolicy? || r.SignupRow? || r.SignupCheck? {
      ReadsOfSignup(e, s.db, r, c, n);
    } else if r.SignupFallback? {
      FallbackOfSignup(e, s.db, r, c, n);
    } else {
      StaysPast(e, s.db, r, c, n);
    }
    assert MoveOf(e, s.db, r, c, n).stmt == Nothing ==> s'.db == s.db && s'.origins == s.origins;
    var u := if Names(s'.reqs[q]) then s'.reqs[q].row.user.value else 0;
    NobodyInserts(e, acts, n, q, s, s', u);
    if r.SignupFallback? {
      LostTells(e, acts, n, q, s, u);
    }
    assert s'.origins == s.origins ==> (CreatedNone(s, q) ==> CreatedNone(s', q)) && (Own(s', u, q) <==> Own(s, u, q));
    hide After, MoveOf, Exec, Inserts, Own, CreatedNone, NoInsert, Lost, Tells, CreatedFirst;
  }

  lemma {:induction false} RunKnown(e: Engine, acts: seq<Act>, n: nat, q: nat)
    requires n <= |acts|
    ensures Known(e, acts, n, After(e, acts, n), q)
  {
    hide Known, After, Inserts, Apply;
    if n == 0 {
      KnownAtFirst(e, acts, q);
    } else {
      RunKnown(e, acts, n - 1, q);
      OneMoreAct(e, acts, n - 1);
      ActKnown(e, acts, n - 1, q);
    }
  }

  lemma KnownAtFirst(e: Engine, acts: seq<Act>, q: nat)
    ensures Known(e, acts, 0, After(e, acts, 0), q)
  {
    assert After(e, acts, 0) == INITIAL;
  }

  lemma IdleKnown(e: Engine, acts: seq<Act>, n: nat, q: nat)
    requires n < |acts| && acts[n].Step? && acts[n].request == q && q !in After(e, acts, n).reqs
    requires Known(e, acts, n, After(e, acts, n), q)
    ensures Known(e, acts, n + 1, Apply(e, After(e, acts, n), acts[n], n), q)
  {
    var s := After(e, acts, n);
    assert !Inserts(e, acts, n, q) && Apply(e, s, acts[n], n) == s;
    hide After, Apply;
    NobodyInserts(e, acts, n, q, s, s, 0);
  }

  lemma ActKnown(e: Engine, acts: seq<Act>, n: nat, q: nat)
    requires n < |acts| && Known(e, acts, n, After(e, acts, n), q)
    ensures Known(e, acts, n + 1, Apply(e, After(e, acts, n), acts[n], n), q)
  {
    hide Known, After, Inserts, Apply;
    if acts[n].Step? && acts[n].request == q {
      if q !in After(e, acts, n).reqs {
        IdleKnown(e, acts, n, q);
      } else if Inserts(e, acts, n, q) {
        InsertKnown(e, acts, n, q);
      } else {
        StepKnown(e, acts, n, q);
      }
    } else if acts[n].Begin? && acts[n].request == q {
      BeginKnown(e, acts, n, q);
    } else if acts[n].Crash? && acts[n].request == q {
      CrashKnown(e, acts, n, q);
    } else {
      OtherActKnown(e, acts, n, q);
    }
  }

  // A request that writes a `signup_created` row has made its insert, and the
  // row names a principal the request created if and only if that insert
  // found the address free.
  lemma WhoCreated(e: Engine, acts: seq<Act>, n: nat, q: nat, row: AuditRow, next: Req, u: Uuid)
    requires n <= |acts| && q in After(e, acts, n).reqs && After(e, acts, n).reqs[q] == Audit(row, next)
    requires row.event == EvSignupCreated && row.user == Some(u)
    ensures exists j: nat :: j < n && Inserts(e, acts, j, q)
    ensures forall j: nat :: j < n && Inserts(e, acts, j, q) ==> (Wins(e, acts, j, q) <==> Own(After(e, acts, n), u, q))
  {
    RunKnown(e, acts, n, q);
    hide After, Inserts, Wins, Own;
  }

  // ----- the race ---------------------------------------------------------

  lemma LostRace(e: Engine, s: State, q: nat, winner: Uuid, c: Choice, c': Choice, c'': Choice, clock: nat)
    requires q in s.reqs && s.reqs[q].SignupInsert? && LiveAt(s.db, winner, s.reqs[q].email)
    requires |s.reqs[q].email| <= MAX_EMAIL_CHARS && c'.pick == winner
    ensures var lost := Apply(e, s, Step(q, c), clock);
            var found := Apply(e, lost, Step(q, c'), clock + 1);
            var written := Apply(e, found, Step(q, c''), clock + 2);
            written.db == s.db.(trail := s.db.trail + [AuditRow(EvSignupCreated, Some(winner), None, None)])
  {
    var email := s.reqs[q].email;
    var row := AuditRow(EvSignupCreated, Some(winner), None, None);
    LosesTo(e, s.db, s.reqs[q], winner, c, clock);
    Joins(e, s.db, email, winner, c', clock + 1);
    var mint := MintInsert(winner, DEFAULT_BEARER_TTL_HOURS, BySignup(email));
    Writes(e, s.db, row, mint, c'', clock + 2);
    hide MoveOf, Exec, LiveAt;
  }

  lemma LosesTo(e: Engine, db: Tables, r: Req, winner: Uuid, c: Choice, clock: nat)
    requires r.SignupInsert? && LiveAt(db, winner, r.email) && |r.email| <= MAX_EMAIL_CHARS
    ensures MoveOf(e, db, r, c, clock) == Stay(SignupFallback(r.email)) && Exec(db, Nothing) == db
  {
  }

  lemma Joins(e: Engine, db: Tables, email: string, winner: Uuid, c: Choice, clock: nat)
    requires LiveAt(db, winner, email) && c.pick == winner
    ensures MoveOf(e, db, SignupFallback(email), c, clock) ==
            Stay(Audit(AuditRow(EvSignupCreated, Some(winner), None, None),
                       MintInsert(winner, DEFAULT_BEARER_TTL_HOURS, BySignup(email))))
  {
  }

  lemma Writes(e: Engine, db: Tables, row: AuditRow, next: Req, c: Choice, clock: nat)
    ensures MoveOf(e, db, Audit(row, next), c, clock) == Move(AppendAudit(row), next)
    ensures Exec(db, AppendAudit(row)) == db.(trail := db.trail + [row])
  {
  }

  // From any reachable state where a signup is about to insert an address
  // that somebody took meanwhile, three steps record that principal as
  // created once more.
  lemma LostRaceRecordsAgain(e: Engine, acts: seq<Act>, q: nat, winner: Uuid, c: Choice, c': Choice, c'': Choice)
    requires q in After(e, acts, |acts|).reqs && After(e, acts, |acts|).reqs[q].SignupInsert?
    requires var s := After(e, acts, |acts|);
             LiveAt(s.db, winner, s.reqs[q].email) && |s.reqs[q].email| <= MAX_EMAIL_CHARS
    requires c'.pick == winner
    ensures var all := acts + [Step(q, c)] + [Step(q, c')] + [Step(q, c'')];
            After(e, all, |all|).db.trail
            == After(e, acts, |acts|).db.trail + [AuditRow(EvSignupCreated, Some(winner), None, None)]
  {
    hide After, Apply, LiveAt;
    var lost := acts + [Step(q, c)];
    var found := lost + [Step(q, c')];
    Extended(e, acts, Step(q, c));
    Extended(e, lost, Step(q, c'));
    Extended(e, found, Step(q, c''));
    LostRace(e, After(e, acts, |acts|), q, winner, c, c', c'', |acts|);
    assert |lost| == |acts| + 1 && |found| == |acts| + 2 && |found + [Step(q, c'')]| == |acts| + 3;
  }
}
