// What a principal's access history shows of the trail.
module History {
  import opened Prelude
  import opened Text
  import opened Links
  import opened Schema
  import opened Protocol
  import opened Audit
  import Runs

  predicate AccessEvent(event: AuditEvent) {
    event == EvLoginSucceeded || event == EvLoginRefused || event == EvBearerMinted || event == EvBearerRotated
    || event == EvBearerRevoked
  }

  // `my_access_history`: the access events whose subject is the principal.
  predicate Shows(row: AuditRow, user: Uuid) {
    AccessEvent(row.event)
    && SubjectOf(Fact(row.user, row.invite, row.token, JNull)) == Some(Subject(USERS, user))
  }

  // The rows it selects, newest first.
  function Selected(trail: seq<AuditRow>, user: Uuid): seq<nat> {
    if trail == [] then []
    else
      var rest := Selected(trail[..|trail| - 1], user);
      if Shows(trail[|trail| - 1], user) then [|trail| - 1] + rest else rest
  }

  // `limit.clamp(1, 100)`
  function Clamp(limit: int): (n: nat)
    ensures 1 <= n <= 100 && (1 <= limit <= 100 ==> n == limit)
  {
    if limit < 1 then 1 else if limit > 100 then 100 else limit
  }

  function AccessHistory(trail: seq<AuditRow>, user: Uuid, limit: int): seq<nat> {
    var all := Selected(trail, user);
    if |all| <= Clamp(limit) then all else all[..Clamp(limit)]
  }

  lemma {:induction false} SelectedFacts(trail: seq<AuditRow>, user: Uuid)
    ensures forall i: nat :: i in Selected(trail, user) <==> i < |trail| && Shows(trail[i], user)
    ensures forall j, k :: 0 <= j < k < |Selected(trail, user)| ==> Selected(trail, user)[j] > Selected(trail, user)[k]
  {
    hide Shows;
    if trail != [] {
      var init, last := trail[..|trail| - 1], |trail| - 1;
      SelectedFacts(init, user);
      forall i: nat ensures i in Selected(trail, user) <==> i < |trail| && Shows(trail[i], user) {
        assert i < last ==> init[i] == trail[i];
      }
      forall k | 0 <= k < |Selected(init, user)| ensures Selected(init, user)[k] < last {
        assert Selected(init, user)[k] in Selected(init, user);
      }
    }
  }

  // The history holds rows of the principal alone, newest first; a row it
  // leaves out is older than every row in it, and then the limit is reached.
  lemma HistoryIsNewest(trail: seq<AuditRow>, user: Uuid, limit: int)
    ensures var h := AccessHistory(trail, user, limit);
            && |h| <= Clamp(limit)
            && (forall k :: 0 <= k < |h| ==> h[k] < |trail| && Shows(trail[h[k]], user))
            && (forall j, k :: 0 <= j < k < |h| ==> h[j] > h[k])
            && (forall i: nat :: i < |trail| && Shows(trail[i], user) && i !in h ==>
                  |h| == Clamp(limit) && forall k :: 0 <= k < |h| ==> i < h[k])
  {
    hide Shows;
    SelectedFacts(trail, user);
    var all, h := Selected(trail, user), AccessHistory(trail, user, limit);
    forall k | 0 <= k < |h| ensures h[k] < |trail| && Shows(trail[h[k]], user) {
      assert h[k] == all[k] && all[k] in all;
    }
    forall i: nat | i < |trail| && Shows(trail[i], user) && i !in h
      ensures |h| == Clamp(limit) && forall k :: 0 <= k < |h| ==> i < h[k]
    {
      assert i in all;
      var j :| 0 <= j < |all| && all[j] == i;
      assert forall k :: 0 <= k < |h| ==> h[k] == all[k];
    }
  }

  // Which ids the verbs put on the rows of the access events.
  predicate Shaped(row: AuditRow) {
    && (row.event == EvBearerMinted || row.event == EvBearerRotated ==> row.token.Some?)
    && (row.event == EvLoginSucceeded || row.event == EvLoginRefused ==> row.token.None? && row.invite.None?)
    && (row.event == EvBearerRevoked ==> row.invite.None?)
  }

  // The rows a request still owes.
  predicate OwesShaped(r: Req) {
    match r
    case Audit(row, next) => Shaped(row) && OwesShaped(next)
    case Dead(last) => OwesShaped(last)
    case _ => true
  }

  lemma TokenRowsShaped(e: Engine, db: Tables, r: Req, c: Choice)
    requires IsTokenReq(r)
    ensures OwesShaped(TokenMove(e, db, r, c).next)
  {
    if r.MintInsert? {
      assert OwesShaped(Note(EvLoginSucceeded, Some(r.user), Done(Minted(r.user, c.id, r.via))));
    }
  }

  lemma InviteRowsShaped(e: Engine, db: Tables, r: Req, c: Choice)
    requires IsInviteReq(r)
    ensures OwesShaped(InviteMove(e, db, r, c).next)
  {
  }

  lemma AccessRowsShaped(db: Tables, r: Req, c: Choice, clock: nat)
    requires !IsTokenReq(r) && !IsInviteReq(r) && !IsLifecycleReq(r)
    ensures OwesShaped(AccessMove(db, r, c, clock).next)
  {
  }

  lemma LifecycleRowsShaped(db: Tables, r: Req, c: Choice)
    requires IsLifecycleReq(r) && OwesShaped(r)
    ensures OwesShaped(LifecycleMove(db, r, c).next)
  {
  }

  lemma MoveShaped(e: Engine, db: Tables, r: Req, c: Choice, clock: nat)
    requires OwesShaped(r)
    ensures OwesShaped(MoveOf(e, db, r, c, clock).next)
  {
    hide OwesShaped, TokenMove, InviteMove, AccessMove, LifecycleMove;
    if IsTokenReq(r) {
      TokenRowsShaped(e, db, r, c);
    } else if IsInviteReq(r) {
      InviteRowsShaped(e, db, r, c);
    } else if IsLifecycleReq(r) {
      LifecycleRowsShaped(db, r, c);
    } else {
      AccessRowsShaped(db, r, c, clock);
    }
  }

  predicate TrailShaped(s: State) {
    && (forall i :: 0 <= i < |s.db.trail| ==> Shaped(s.db.trail[i]))
    && (forall q :: q in s.reqs ==> OwesShaped(s.reqs[q]))
  }

  lemma RowOwed(r: Req)
    requires r.Audit? && OwesShaped(r)
    ensures Shaped(r.row)
  {
  }

  lemma QuietStatement(db: Tables, st: Stmt)
    requires !st.AppendAudit?
    ensures Exec(db, st).trail == db.trail
  {
  }

  lemma OnlyAuditsAppend(e: Engine, db: Tables, r: Req, c: Choice, clock: nat)
    ensures MoveOf(e, db, r, c, clock).stmt.AppendAudit? <==> r.Audit?
    ensures r.Audit? ==> MoveOf(e, db, r, c, clock).stmt == AppendAudit(r.row)
  {
    hide TokenMove, InviteMove, AccessMove;
  }

  // Only an audit step adds to the trail, and it adds the row it owes.
  lemma TrailGrows(e: Engine, db: Tables, r: Req, c: Choice, clock: nat)
    ensures var st := MoveOf(e, db, r, c, clock).stmt;
            Exec(db, st).trail == if r.Audit? then db.trail + [r.row] else db.trail
  {
    OnlyAuditsAppend(e, db, r, c, clock);
    if r.Audit? {
      assert Exec(db, AppendAudit(r.row)).trail == db.trail + [r.row];
    } else {
      QuietStatement(db, MoveOf(e, db, r, c, clock).stmt);
    }
    hide MoveOf, Exec;
  }

  lemma StepShaped(e: Engine, s: State, q: nat, c: Choice, clock: nat)
    requires TrailShaped(s) && q in s.reqs
    ensures TrailShaped(Apply(e, s, Step(q, c), clock))
  {
    TrailGrows(e, s.db, s.reqs[q], c, clock);
    MoveShaped(e, s.db, s.reqs[q], c, clock);
    if s.reqs[q].Audit? {
      RowOwed(s.reqs[q]);
    }
    hide MoveOf, Exec, Shaped, OwesShaped;
  }

  lemma NothingOwed(call: Call)
    ensures OwesShaped(Enter(call))
  {
    hide NormalizeEmail, ParseUuid, Utf8Length;
  }

  lemma ApplyShaped(e: Engine, s: State, a: Act, clock: nat)
    requires TrailShaped(s)
    ensures TrailShaped(Apply(e, s, a, clock))
  {
    if a.Crash? && a.request in s.reqs {
      assert OwesShaped(Dead(s.reqs[a.request]));
    }
    if a.Officer? && ByOfficer(a.stmt) {
      assert Exec(s.db, a.stmt).trail == s.db.trail;
    }
    if a.Begin? {
      NothingOwed(a.call);
    }
    if a.Step? && a.request in s.reqs {
      StepShaped(e, s, a.request, a.choice, clock);
    }
    hide MoveOf, Exec, Enter, Shaped, OwesShaped;
  }

  // In every reachable state the access history of a principal shows logins,
  // refused logins, and sweeps of their bearers; it never shows a mint, a
  // rotation or the revocation of a single bearer, whose subject is the
  // token.
  lemma HistoryShows(e: Engine, acts: seq<Act>, n: nat, i: nat, user: Uuid)
    requires n <= |acts| && i < |After(e, acts, n).db.trail|
    ensures var row := After(e, acts, n).db.trail[i];
            Shows(row, user) <==>
            row.user == Some(user)
            && (row.event == EvLoginSucceeded || row.event == EvLoginRefused
                || (row.event == EvBearerRevoked && row.token.None?))
  {
    var inv := (k: nat, s: State) => TrailShaped(s);
    assert inv(0, INITIAL);
    forall k: nat, s | k < |acts| && inv(k, s) ensures inv(k + 1, StepOf(e)(s, acts[k], k)) {
      ApplyShaped(e, s, acts[k], k);
    }
    Runs.Always(INITIAL, StepOf(e), acts, n, inv);
    var row := After(e, acts, n).db.trail[i];
    assert Shaped(row);
    KindsApart();
  }
}
