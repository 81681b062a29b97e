// A conducted request is a run of the whole system: what holds of every run
// holds of the verbs as they are written.
module Embedding {
  import opened Links
  import opened Schema
  import opened Protocol
  import opened Conduct

  // A request without the note of when it read the policy, which no step
  // looks at.
  function Unstamped(r: Req): Req {
    match r
    case SignupRow(email, _) => SignupRow(email, 0)
    case SignupCheck(email, _) => SignupCheck(email, 0)
    case SignupInsert(email, _) => SignupInsert(email, 0)
    case Audit(row, next) => Audit(row, Unstamped(next))
    case Dead(last) => Dead(Unstamped(last))
    case _ => r
  }

  predicate Alike(m: Move, m': Move) {
    m.stmt == m'.stmt && Unstamped(m.next) == Unstamped(m'.next)
  }

  lemma SignupAlike(db: Tables, r: Req, r': Req, c: Choice, clock: nat)
    requires Unstamped(r) == Unstamped(r')
    requires r.SignupRow? || r.SignupCheck? || r.SignupInsert?
    ensures Alike(AccessMove(db, r, c, clock), AccessMove(db, r', c, 0))
  {
  }

  lemma AccessAlike(db: Tables, r: Req, c: Choice, clock: nat)
    requires !r.SignupRow? && !r.SignupCheck? && !r.SignupInsert?
    ensures Alike(AccessMove(db, r, c, clock), AccessMove(db, r, c, 0))
  {
  }

  lemma QueuedAlike(db: Tables, r: Req, r': Req, c: Choice)
    requires Unstamped(r) == Unstamped(r') && (r.Audit? || r.Dead?)
    ensures Alike(LifecycleMove(db, r, c), LifecycleMove(db, r', c))
  {
  }

  lemma StampFree(r: Req, r': Req)
    requires Unstamped(r) == Unstamped(r')
    requires !r.SignupRow? && !r.SignupCheck? && !r.SignupInsert? && !r.Audit? && !r.Dead?
    ensures r == r'
  {
  }

  lemma SameKind(r: Req, r': Req)
    requires Unstamped(r) == Unstamped(r')
    ensures IsTokenReq(r) == IsTokenReq(r') && IsInviteReq(r) == IsInviteReq(r')
    ensures IsLifecycleReq(r) == IsLifecycleReq(r')
    ensures (r.Audit? || r.Dead?) ==> IsLifecycleReq(r)
    ensures r.SignupRow? || r.SignupCheck? || r.SignupInsert? ==>
              !IsTokenReq(r) && !IsInviteReq(r) && !IsLifecycleReq(r)
  {
  }

  // The stamp decides no step.
  lemma MovesAlike(e: Engine, db: Tables, r: Req, r': Req, c: Choice, clock: nat)
    requires Unstamped(r) == Unstamped(r')
    ensures Alike(MoveOf(e, db, r, c, clock), MoveOf(e, db, r', c, 0))
  {
    hide Unstamped, Alike, TokenMove, InviteMove, AccessMove, LifecycleMove;
    SameKind(r, r');
    if r.SignupRow? || r.SignupCheck? || r.SignupInsert? {
      SignupAlike(db, r, r', c, clock);
    } else if r.Audit? || r.Dead? {
      QueuedAlike(db, r, r', c);
    } else {
      StampFree(r, r');
      AccessAlike(db, r, c, clock);
      AlikeItself(TokenMove(e, db, r, c));
      AlikeItself(InviteMove(e, db, r, c));
      AlikeItself(LifecycleMove(db, r, c));
    }
  }

  lemma AlikeItself(m: Move)
    ensures Alike(m, m)
  {
  }

  // The steps of request q along a path.
  function Steps(q: nat, path: Path): (acts: seq<Act>)
    ensures |acts| == |path|
  {
    seq(|path|, i requires 0 <= i < |path| => Step(q, path[i].choice))
  }

  lemma StepsAppend(q: nat, path: Path)
    requires path != []
    ensures Steps(q, path) == Steps(q, path[..|path| - 1]) + [Step(q, path[|path| - 1].choice)]
  {
  }

  lemma StepApplied(e: Engine, s: State, q: nat, r': Req, c: Choice, clock: nat)
    requires q in s.reqs && Unstamped(s.reqs[q]) == Unstamped(r')
    ensures var s', m := Apply(e, s, Step(q, c), clock), MoveOf(e, s.db, r', c, 0);
            s'.db == Exec(s.db, m.stmt) && q in s'.reqs && Unstamped(s'.reqs[q]) == Unstamped(m.next)
  {
    MovesAlike(e, s.db, s.reqs[q], r', c, clock);
    hide MoveOf, Exec, Unstamped;
  }

  lemma LastMoment(e: Engine, a: Tables, r: Req, path: Path, b: Tables, r': Req)
    requires path != [] && Conducted(e, false, a, r, path, b, r')
    ensures var m := path[|path| - 1];
            var move := MoveOf(e, m.left, m.req, m.choice, 0);
            && Conducted(e, false, a, r, path[..|path| - 1], m.left, m.req)
            && b == Exec(m.left, move.stmt) && r' == move.next
  {
    hide MoveOf, Exec, Evolves, TablesOk;
  }

  // After the acts, request q stands where r stands, on these tables.
  ghost predicate Reached(e: Engine, acts: seq<Act>, q: nat, db: Tables, r: Req) {
    var s := After(e, acts, |acts|);
    s.db == db && q in s.reqs && Unstamped(s.reqs[q]) == Unstamped(r)
  }

  lemma ReachedNext(e: Engine, acts: seq<Act>, q: nat, db: Tables, r: Req, c: Choice)
    requires Reached(e, acts, q, db, r)
    ensures var m := MoveOf(e, db, r, c, 0); Reached(e, acts + [Step(q, c)], q, Exec(db, m.stmt), m.next)
  {
    Extended(e, acts, Step(q, c));
    StepApplied(e, After(e, acts, |acts|), q, r, c, |acts|);
    assert |acts + [Step(q, c)]| == |acts| + 1;
    hide After, MoveOf, Exec, Unstamped, Apply;
  }

  lemma {:induction false} PathIsRun(
      e: Engine, acts: seq<Act>, q: nat, a: Tables, r: Req, path: Path, b: Tables, r': Req)
    requires Reached(e, acts, q, a, r) && Conducted(e, false, a, r, path, b, r')
    ensures Reached(e, acts + Steps(q, path), q, b, r')
  {
    hide MoveOf, Exec, Reached;
    if path == [] {
      assert acts + Steps(q, path) == acts;
    } else {
      LastMoment(e, a, r, path, b, r');
      hide Conducted;
      var init, m := path[..|path| - 1], path[|path| - 1];
      PathIsRun(e, acts, q, a, r, init, m.left, m.req);
      StepsAppend(q, path);
      assert acts + Steps(q, path) == acts + Steps(q, init) + [Step(q, m.choice)];
      ReachedNext(e, acts + Steps(q, init), q, m.left, m.req, m.choice);
    }
  }

  // A verb called alone on the tables of any reachable state, and conducted
  // to its end, is a run of the system that begins there.
  lemma VerbIsRun(e: Engine, acts: seq<Act>, q: nat, call: Call, path: Path, b: Tables, outcome: Outcome)
    requires q !in After(e, acts, |acts|).reqs
    requires Conducted(e, false, After(e, acts, |acts|).db, Enter(call), path, b, Done(outcome))
    ensures var all := acts + [Begin(q, call)] + Steps(q, path);
            && After(e, all, |all|).db == b && q in After(e, all, |all|).reqs
            && After(e, all, |all|).reqs[q] == Done(outcome)
  {
    var begun := acts + [Begin(q, call)];
    var a := After(e, acts, |acts|).db;
    Extended(e, acts, Begin(q, call));
    assert |begun| == |acts| + 1;
    assert Reached(e, begun, q, a, Enter(call));
    DoneIsPlain(outcome);
    hide After, Enter, Conducted, Unstamped;
    PathIsRun(e, begun, q, a, Enter(call), path, b, Done(outcome));
  }

  lemma DoneIsPlain(outcome: Outcome)
    ensures forall r :: Unstamped(r) == Unstamped(Done(outcome)) ==> r == Done(outcome)
  {
  }
}
