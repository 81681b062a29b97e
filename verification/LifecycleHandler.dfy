// The consumer of account events from an at-least-once bus.
module LifecycleHandler {
  import opened Prelude
  import opened Text
  import opened Links
  import opened Schema
  import opened Protocol
  import opened Database
  import opened Conduct
  import opened Rows
  import TokenService
  import AccessService

  // ----- onboarding -------------------------------------------------------

  function LinkRow(linked: Option<Uuid>): AuditRow {
    if linked.Some? then AuditRow(EvOnboardingLinked, linked, None, None)
    else AuditRow(EvOnboardingNoInvitation, None, None, None)
  }

  predicate IsLinkable(db: Tables, email: string, linked: Option<Uuid>) {
    match linked
    case Some(u) => Unlinked(db, u, email)
    case None => forall u :: u in db.users ==> !Unlinked(db, u, email)
  }

  lemma StampStep(e: Engine, db: Tables, sapiens: Uuid, email: string, c: Choice, linked: Option<Uuid>)
    requires IsLinkable(db, email, linked) && (linked.Some? ==> c.pick == linked.value)
    ensures MoveOf(e, db, Created(sapiens, email), c, 0) ==
            Move(StampUsers(email, sapiens), Audit(LinkRow(linked), Done(Finished)))
  {
  }

  // Whoever is linkable is the only one.
  lemma OneToStamp(db: Tables, email: string, linked: Option<Uuid>)
    requires UsersOk(db.users) && IsLinkable(db, email, linked)
    ensures forall u :: u in db.users && Unlinked(db, u, email) ==> linked == Some(u)
    ensures linked.Some? ==> linked.value in db.users && Unlinked(db, linked.value, email)
  {
    hide NormalizeEmail;
    forall u | u in db.users && Unlinked(db, u, email) ensures linked == Some(u) {
      assert LiveRow(db.users, u);
      if linked.Some? {
        assert LiveRow(db.users, linked.value);
      }
    }
  }

  lemma StampedRows(db: Tables, sapiens: Uuid, email: string, linked: Option<Uuid>)
    requires forall u :: u in db.users && Unlinked(db, u, email) ==> linked == Some(u)
    requires linked.Some? ==> linked.value in db.users && Unlinked(db, linked.value, email)
    ensures UsersStamped(db.users, email, sapiens) ==
            if linked.None? then db.users
            else db.users[linked.value := db.users[linked.value].(sapiens := Some(sapiens))]
  {
    forall u | u in db.users && linked != Some(u)
      ensures UsersStamped(db.users, email, sapiens)[u] == db.users[u]
    {
      assert !Unlinked(db, u, email);
    }
  }

  lemma NobodyUnlinked(db: Tables, sapiens: Uuid, email: string)
    ensures var db' := db.(users := UsersStamped(db.users, email, sapiens));
            forall u :: u in db.users ==> !Unlinked(db', u, email)
  {
  }

  // Only the one live principal of that email is stamped, and afterwards
  // nobody of that email is left to stamp.
  lemma StampLeaves(db: Tables, sapiens: Uuid, email: string, linked: Option<Uuid>)
    requires UsersOk(db.users) && IsLinkable(db, email, linked)
    ensures var db' := Exec(db, StampUsers(email, sapiens));
            && db' == db.(users := db'.users)
            && (forall u :: u in db.users ==> !Unlinked(db', u, email))
            && db'.users == if linked.None? then db.users
                            else db.users[linked.value := db.users[linked.value].(sapiens := Some(sapiens))]
  {
    assert Exec(db, StampUsers(email, sapiens)) == db.(users := UsersStamped(db.users, email, sapiens));
    hide Exec, UsersOk, IsLinkable, Unlinked, UsersStamped;
    OneToStamp(db, email, linked);
    StampedRows(db, sapiens, email, linked);
    NobodyUnlinked(db, sapiens, email);
  }

  // `on_created`. An envelope delivered again, or meant for an address with
  // no principal to link, changes no principal and writes one more row.
  method OnCreated(e: Engine, db: Database, userId: string, address: string)
    returns (r: Result<()>, ghost path: Path, ghost linked: Option<Uuid>)
    requires db.Valid()
    modifies db
    ensures db.Valid() && Evolves(old(db.Snapshot()), db.Snapshot())
    ensures Conducted(e, db.shared, old(db.Snapshot()), Enter(CallCreated(userId, address)), path, db.Snapshot(),
                      match r case Ok(_) => Done(Finished) case Err(error) => Refuse(error))
    ensures if ParseUuid(userId).None? then r == Err(InvalidInput(NotAUuid)) else r.Ok?
    ensures r.Err? ==> db.Snapshot() == old(db.Snapshot())
    ensures r.Ok? && !db.shared ==>
              && CreatedSays(old(db.Snapshot()), db.Snapshot(), ParseUuid(userId).value, NormalizeEmail(address),
                             linked)
              && forall u :: u in db.users ==> !Linkable(db.Snapshot(), u, NormalizeEmail(address))
  {
    CreatedEntry(userId, address);
    hide MoveOf, Exec, Evolves, TablesOk, UsersOk, Conducted, Enter, NormalizeEmail, ParseUuid, LinkRow, Linkable;
    hide CreatedSays;
    ghost var from := db.Snapshot();
    ghost var start := Enter(CallCreated(userId, address));
    Start(e, db.shared, from, start);
    EvolvesRefl(from);
    linked := None;
    var account := ParseUuid(userId);
    if account.None? {
      return Err(InvalidInput(NotAUuid)), [], linked;
    }
    var email := NormalizeEmail(address);
    ghost var c: Choice := *;
    db.Others();
    ghost var found := db.Snapshot();
    var stamped := db.StampUsers(email, account.value);
    linked := stamped;
    if stamped.Some? {
      c := c.(pick := stamped.value);
    }
    StampStep(e, found, account.value, email, c, stamped);
    AccessService.UsersHold(found);
    StampLeaves(found, account.value, email, stamped);
    OneMore(e, db.shared, from, start, [], from, found, start, c, MoveOf(e, found, start, c, 0));
    path := [] + [Moment(start, from, found, c)];
    ExecEvolves(found, StampUsers(email, account.value));
    ghost var after := db.Snapshot();
    EvolvesTrans(from, found, after);
    ShownRow(stamped);
    path := TokenService.Record(e, db, if stamped.Some? then AuditRow(EvOnboardingLinked, stamped, None, None)
                                       else AuditRow(EvOnboardingNoInvitation, None, None, None),
                                from, start, path, Done(Finished));
    EvolvesTrans(from, after, db.Snapshot());
    if !db.shared {
      CreatedRows(from, db.Snapshot(), account.value, email, stamped);
    }
    r := Ok(());
  }

  lemma ShownRow(linked: Option<Uuid>)
    ensures LinkRow(linked) == if linked.Some? then AuditRow(EvOnboardingLinked, linked, None, None)
                               else AuditRow(EvOnboardingNoInvitation, None, None, None)
  {
  }

  lemma CreatedRows(db: Tables, db': Tables, sapiens: Uuid, email: string, linked: Option<Uuid>)
    requires IsLinkable(db, email, linked)
    requires db'.users == if linked.None? then db.users
                          else db.users[linked.value := db.users[linked.value].(sapiens := Some(sapiens))]
    requires db' == db.(users := db'.users, trail := db.trail + [LinkRow(linked)])
    requires forall u :: u in db.users ==> !Unlinked(db.(users := db'.users), u, email)
    ensures CreatedSays(db, db', sapiens, email, linked)
    ensures forall u :: u in db'.users ==> !Linkable(db', u, email)
  {
    forall u | u in db'.users ensures !Linkable(db', u, email) {
      assert !Unlinked(db.(users := db'.users), u, email);
    }
    if linked.None? {
      forall u | u in db.users ensures !Linkable(db, u, email) {
        assert !Unlinked(db, u, email);
      }
    }
  }

  lemma CreatedEntry(userId: string, address: string)
    ensures Enter(CallCreated(userId, address)) ==
            if ParseUuid(userId).None? then Refuse(InvalidInput(NotAUuid))
            else Created(ParseUuid(userId).value, NormalizeEmail(address))
  {
    hide NormalizeEmail, ParseUuid, Utf8Length;
  }

  // ----- offboarding ------------------------------------------------------

  lemma GoneStep(e: Engine, db: Tables, sapiens: Uuid, c: Choice, found: Option<Uuid>)
    requires match found
             case Some(u) => LinkedTo(db, u, sapiens) && c.pick == u
             case None => forall u :: u in db.users ==> !LinkedTo(db, u, sapiens)
    ensures MoveOf(e, db, Gone(sapiens), c, 0) ==
            Stay(if found.Some? then Protocol.RevokeAccess(found.value, true) else Done(Finished))
  {
  }

  // `on_user_gone`. Delivered again to principals already revoked, an
  // envelope changes nothing.
  method OnUserGone(e: Engine, db: Database, userId: string)
    returns (r: Result<()>, ghost path: Path, ghost cut: Option<Uuid>)
    requires db.Valid()
    modifies db
    ensures db.Valid() && Evolves(old(db.Snapshot()), db.Snapshot())
    ensures Conducted(e, db.shared, old(db.Snapshot()), Enter(CallGone(userId)), path, db.Snapshot(),
                      match r case Ok(_) => Done(Finished) case Err(error) => Refuse(error))
    ensures if ParseUuid(userId).None? then r == Err(InvalidInput(NotAUuid)) else r.Ok?
    ensures r.Err? ==> db.Snapshot() == old(db.Snapshot())
    ensures cut.Some? ==> cut.value in db.users && db.users[cut.value].status == Revoked
    ensures r.Ok? && !db.shared ==>
              GoneSays(old(db.Snapshot()), db.Snapshot(), ParseUuid(userId).value, cut)
              && (cut.Some? ==> AccessService.NothingLeft(db.Snapshot(), cut.value))
    ensures r.Ok? && !db.shared
            && (forall u: Uuid :: HasAccount(old(db.Snapshot()), u, ParseUuid(userId).value) ==>
                  old(db.users)[u].status == Revoked) ==>
              db.Snapshot() == old(db.Snapshot())
  {
    GoneEntry(userId);
    hide MoveOf, Exec, Evolves, TablesOk, Conducted, Enter, ParseUuid, AccessService.NothingLeft;
    hide AccessService.AfterAccess, LinkedTo, GoneSays, AccessCut;
    ghost var from := db.Snapshot();
    ghost var start := Enter(CallGone(userId));
    Start(e, db.shared, from, start);
    EvolvesRefl(from);
    cut := None;
    var account := ParseUuid(userId);
    if account.None? {
      return Err(InvalidInput(NotAUuid)), [], cut;
    }
    ghost var c: Choice := *;
    db.Others();
    ghost var found := db.Snapshot();
    var principal := db.LiveUserByAccount(account.value);
    if principal.Some? {
      c := c.(pick := principal.value);
    }
    GoneStep(e, found, account.value, c, principal);
    path := [] + [Moment(start, from, found, c)];
    if principal.None? {
      if !db.shared {
        NobodyGone(from, account.value);
      }
      OneRead(e, db.shared, from, start, [], from, found, start, c, Done(Finished));
      return Ok(()), path, cut;
    }
    ghost var q := Protocol.RevokeAccess(principal.value, true);
    OneRead(e, db.shared, from, start, [], from, found, start, c, q);
    ghost var sweeps;
    var flipped;
    flipped, sweeps := AccessService.RevokeAccess(e, db, principal.value, true);
    ghost var after := db.Snapshot();
    LifecycleEnd(principal.value);
    Joined(e, db.shared, from, start, path, found, q, sweeps, after,
        AccessService.AfterAccess(principal.value, true, flipped));
    path := path + sweeps;
    EvolvesTrans(from, found, after);
    if !flipped {
      if !db.shared {
        GoneRows(from, from, from, account.value, principal.value, None);
      }
      return Ok(()), path, cut;
    }
    cut := principal;
    path := TokenService.Record(e, db, AuditRow(EvAccessRevoked, principal, None, None), from, start, path,
        Done(Finished));
    EvolvesTrans(from, after, db.Snapshot());
    StaysRevoked(after, db.Snapshot(), principal.value);
    if !db.shared {
      SameLeft(after, db.Snapshot(), principal.value);
      GoneRows(from, after, db.Snapshot(), account.value, principal.value, cut);
    }
    r := Ok(());
  }

  lemma NobodyGone(db: Tables, sapiens: Uuid)
    requires forall u :: u in db.users ==> !LinkedTo(db, u, sapiens)
    ensures GoneSays(db, db, sapiens, None)
  {
    forall u: Uuid ensures !HasAccount(db, u, sapiens) {
      assert u in db.users ==> !LinkedTo(db, u, sapiens);
    }
  }

  lemma GoneRows(db: Tables, after: Tables, db': Tables, sapiens: Uuid, u: Uuid, cut: Option<Uuid>)
    requires LinkedTo(db, u, sapiens)
    requires cut == if u in db.users && !db.users[u].deleted && db.users[u].status != Revoked then Some(u) else None
    requires if cut.None? then db' == db
             else AccessCut(db, after, u, [])
                  && db' == after.(trail := after.trail + [AuditRow(EvAccessRevoked, cut, None, None)])
    ensures GoneSays(db, db', sapiens, cut)
  {
    assert HasAccount(db, u, sapiens);
    if cut.Some? {
      assert after.trail + [AuditRow(EvAccessRevoked, cut, None, None)] ==
        (if OpenBearersOf(db, u) == {} then db.trail
         else db.trail + [AuditRow(EvBearerRevoked, Some(u), None, None)])
        + [AuditRow(EvAccessRevoked, Some(u), None, None)];
    }
  }

  lemma LifecycleEnd(user: Uuid)
    ensures AccessService.AfterAccess(user, true, false) == Done(Finished)
    ensures AccessService.AfterAccess(user, true, true)
              == Audit(AuditRow(EvAccessRevoked, Some(user), None, None), Done(Finished))
  {
  }

  lemma StaysRevoked(a: Tables, b: Tables, user: Uuid)
    requires Evolves(a, b) && user in a.users && a.users[user].status == Revoked
    ensures user in b.users && b.users[user].status == Revoked
  {
  }

  lemma SameLeft(a: Tables, b: Tables, user: Uuid)
    requires b == a.(trail := b.trail) && AccessService.NothingLeft(a, user)
    ensures AccessService.NothingLeft(b, user)
  {
    hide NormalizeEmail;
    assert forall t :: OpenBearer(a, t) <==> OpenBearer(b, t);
    assert forall i :: OpenInvite(a, i) <==> OpenInvite(b, i);
  }

  lemma GoneEntry(userId: string)
    ensures Enter(CallGone(userId)) ==
            if ParseUuid(userId).None? then Refuse(InvalidInput(NotAUuid)) else Gone(ParseUuid(userId).value)
  {
    hide NormalizeEmail, ParseUuid, Utf8Length;
  }

  // ----- dispatch ---------------------------------------------------------

  datatype Envelope = Envelope(eventType: string, userId: string, email: string)

  const CREATED := "sapiens.user.created"
  const GONE: set<string> := {"sapiens.user.deactivated", "sapiens.user.deleted", "sapiens.user.anonymized"}

  lemma TypesApart()
    ensures CREATED !in GONE
  {
    assert CREATED[13] == 'c' && "sapiens.user.deactivated"[13] == 'd';
    assert "sapiens.user.deleted"[13] == 'd' && "sapiens.user.anonymized"[13] == 'a';
  }

  // `handle`: an event of any other type is refused and changes nothing.
  method Handle(e: Engine, db: Database, envelope: Envelope) returns (r: Result<()>, ghost who: Option<Uuid>)
    requires db.Valid()
    modifies db
    ensures db.Valid() && Evolves(old(db.Snapshot()), db.Snapshot())
    ensures r.Err? ==> db.Snapshot() == old(db.Snapshot())
    ensures envelope.eventType == "sapiens.user.created" ==>
              && (if ParseUuid(envelope.userId).None? then r == Err(InvalidInput(NotAUuid)) else r.Ok?)
              && (r.Ok? && !db.shared ==>
                    CreatedSays(old(db.Snapshot()), db.Snapshot(), ParseUuid(envelope.userId).value,
                                NormalizeEmail(envelope.email), who))
    ensures envelope.eventType
            in {"sapiens.user.deactivated", "sapiens.user.deleted", "sapiens.user.anonymized"} ==>
              && (if ParseUuid(envelope.userId).None? then r == Err(InvalidInput(NotAUuid)) else r.Ok?)
              && (r.Ok? && !db.shared ==>
                    GoneSays(old(db.Snapshot()), db.Snapshot(), ParseUuid(envelope.userId).value, who)
                    && (who.Some? ==> AccessService.NothingLeft(db.Snapshot(), who.value)))
    ensures envelope.eventType
            !in {"sapiens.user.created", "sapiens.user.deactivated", "sapiens.user.deleted",
                 "sapiens.user.anonymized"} ==>
              r == Err(InvalidInput(UnknownEvent))
  {
    hide Evolves, TablesOk, ParseUuid, NormalizeEmail, Conducted, AccessService.NothingLeft;
    hide CreatedSays, GoneSays;
    TypesApart();
    EvolvesRefl(db.Snapshot());
    ghost var path;
    who := None;
    if envelope.eventType == CREATED {
      r, path, who := OnCreated(e, db, envelope.userId, envelope.email);
    } else if envelope.eventType in GONE {
      r, path, who := OnUserGone(e, db, envelope.userId);
    } else {
      r := Err(InvalidInput(UnknownEvent));
    }
  }
}
