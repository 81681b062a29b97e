// The signup kill switch, on the shared tables.
module PolicyService {
  import opened Prelude
  import opened Links
  import opened Schema
  import opened Protocol
  import opened Database
  import opened Conduct
  import opened Rows
  import TokenService

  // `signup_open`: whichever live row the query returns, because there is at
  // most one; no such row, a row that is off and a failed read are all closed.
  method SignupOpen(db: Database, readFails: bool) returns (open: bool)
    requires db.Valid()
    ensures open <==> !readFails && exists p :: p in db.policies && !db.policies[p].deleted && db.policies[p].enabled
    ensures open == (Schema.SignupOpen(db.Snapshot()) && !readFails)
  {
    if readFails {
      return false;
    }
    var live := set p | p in db.policies && !db.policies[p].deleted;
    assert forall p :: p in db.policies && !db.policies[p].deleted ==> p in live;
    var row := AnyOf(live);
    if row.None? {
      return false;
    }
    assert |db.policies.Keys - {row.value}| == |db.policies.Keys| - 1;
    assert forall p :: p in db.policies ==> p == row.value || p in db.policies.Keys - {row.value};
    return db.policies[row.value].enabled;
  }

  lemma PolicyStep(e: Engine, db: Tables, enabled: bool, c: Choice)
    ensures MoveOf(e, db, SetPolicy(enabled), c, 0) ==
            Move(SetPolicyRow(c.id, enabled), Audit(AuditRow(EvPolicyChanged, None, None, None), Done(Finished)))
  {
  }

  lemma PolicySet(db: Tables, id: Uuid, enabled: bool)
    ensures var db' := Exec(db, SetPolicyRow(id, enabled));
            && db' == db.(policies := db'.policies) && |db'.policies| == 1
            && db'.policies == map[id := Policy(enabled, false)] && SwitchedOn(db') == enabled
  {
    var db' := Exec(db, SetPolicyRow(id, enabled));
    assert db'.policies == map[id := Policy(enabled, false)] && id in db'.policies;
  }

  // `set_signup_policy`
  method SetSignupPolicy(e: Engine, db: Database, enabled: bool) returns (ghost path: Path)
    requires db.Valid()
    modifies db
    ensures db.Valid() && Evolves(old(db.Snapshot()), db.Snapshot())
    ensures Conducted(e, db.shared, old(db.Snapshot()), SetPolicy(enabled), path, db.Snapshot(), Done(Finished))
    ensures !db.shared ==>
              && |db.policies| == 1 && SwitchedOn(db.Snapshot()) == enabled
              && path != [] && db.policies == map[path[0].choice.id := Policy(enabled, false)]
              && db.Snapshot() == old(db.Snapshot()).(
                   policies := db.policies, trail := old(db.trail) + [AuditRow(EvPolicyChanged, None, None, None)])
  {
    hide MoveOf, Exec, Evolves, TablesOk, Conducted;
    ghost var from := db.Snapshot();
    ghost var q := SetPolicy(enabled);
    Start(e, db.shared, from, q);
    var c: Choice := *;
    db.Others();
    ghost var found := db.Snapshot();
    db.SetPolicy(c.id, enabled);
    PolicyStep(e, found, enabled, c);
    PolicySet(found, c.id, enabled);
    OneMore(e, db.shared, from, q, [], from, found, q, c, MoveOf(e, found, q, c, 0));
    path := [] + [Moment(q, from, found, c)];
    ExecEvolves(found, SetPolicyRow(c.id, enabled));
    ghost var flipped := db.Snapshot();
    EvolvesTrans(from, found, flipped);
    path := TokenService.Record(e, db, AuditRow(EvPolicyChanged, None, None, None), from, q, path, Done(Finished));
    EvolvesTrans(from, flipped, db.Snapshot());
  }
}
