// One audit row: three optional ids and a detail folded into one subject and
// one payload.
module Audit {
  import opened Prelude
  import opened Text
  import opened Schema

  datatype Json =
    | JNull
    | JBool(flag: bool)
    | JNumber(number: int)
    | JString(text: string)
    | JArray(items: seq<Json>)
    | JObject(fields: map<string, Json>)

  const USERS := "portal.portal_users"
  const INVITES := "portal.portal_invitations"
  const TOKENS := "portal.portal_tokens"

  const USER_KEY := "portal_user_id"
  const INVITE_KEY := "invite_id"
  const TOKEN_KEY := "token_id"

  datatype Fact = Fact(user: Option<Uuid>, invite: Option<Uuid>, token: Option<Uuid>, detail: Json)

  datatype Subject = Subject(kind: string, id: Uuid)

  datatype Folded = Folded(subject: Option<Subject>, changed: map<string, Json>)

  // The most specific id present.
  function SubjectOf(f: Fact): Option<Subject> {
    match (f.token, f.invite, f.user)
    case (Some(t), _, _) => Some(Subject(TOKENS, t))
    case (_, Some(i), _) => Some(Subject(INVITES, i))
    case (_, _, Some(u)) => Some(Subject(USERS, u))
    case _ => None
  }

  // A detail that is not an object is wrapped in one.
  function Opened(detail: Json): map<string, Json> {
    if detail.JObject? then detail.fields else map["detail" := detail]
  }

  function IdValue(id: Uuid): Json { JString(PrintUuid(id)) }

  // An id beside the subject, under its key.
  function Beside(key: string, id: Option<Uuid>, used: bool): map<string, Json> {
    if id.Some? && !used then map[key := IdValue(id.value)] else map[]
  }

  // The payload: the detail, overlaid with the ids that did not become the
  // subject.
  function Payload(f: Fact): map<string, Json> {
    Opened(f.detail)
    + Beside(USER_KEY, f.user, f.token.None? && f.invite.None?)
    + Beside(INVITE_KEY, f.invite, f.token.None?)
  }

  // The ids laid over a payload one after the other.
  function Laid(base: map<string, Json>, ids: seq<(string, Option<Uuid>, bool)>): map<string, Json> {
    if ids == [] then base
    else
      var (key, id, used) := ids[|ids| - 1];
      Laid(base, ids[..|ids| - 1]) + Beside(key, id, used)
  }

  lemma LaidThree(f: Fact, kind: string)
    requires kind == if SubjectOf(f).Some? then SubjectOf(f).value.kind else ""
    ensures Laid(Opened(f.detail), [(USER_KEY, f.user, kind == USERS), (INVITE_KEY, f.invite, kind == INVITES),
                                    (TOKEN_KEY, f.token, kind == TOKENS)]) == Payload(f)
  {
    KindsApart();
    var base := Opened(f.detail);
    var a, b, c := (USER_KEY, f.user, kind == USERS), (INVITE_KEY, f.invite, kind == INVITES),
                   (TOKEN_KEY, f.token, kind == TOKENS);
    assert [a, b, c][..2] == [a, b] && [a, b][..1] == [a];
    assert Laid(base, [a]) == base + Beside(a.0, a.1, a.2);
    assert Laid(base, [a, b]) == Laid(base, [a]) + Beside(b.0, b.1, b.2);
    assert Laid(base, [a, b, c]) == Laid(base, [a, b]) + Beside(c.0, c.1, c.2);
    hide PrintUuid, Laid;
  }

  // The loop over the ids that did not become the subject.
  method LayIds(base: map<string, Json>, ids: seq<(string, Option<Uuid>, bool)>) returns (changed: map<string, Json>)
    ensures changed == Laid(base, ids)
  {
    hide PrintUuid, IdValue;
    changed := base;
    var i := 0;
    while i < |ids|
      invariant 0 <= i <= |ids|
      invariant changed == Laid(base, ids[..i])
    {
      var (key, id, used) := ids[i];
      if id.Some? && !used {
        changed := changed[key := IdValue(id.value)];
      }
      assert ids[..i + 1][..i] == ids[..i];
      i := i + 1;
    }
    assert ids[..i] == ids;
  }

  // `record_audit`, up to the row it appends.
  method RecordAudit(f: Fact) returns (r: Folded)
    ensures r == Fold(f)
  {
    hide Payload, SubjectOf, Opened, Laid;
    var subject := SubjectOf(f);
    var kind := if subject.Some? then subject.value.kind else "";
    LaidThree(f, kind);
    var changed := LayIds(
      Opened(f.detail),
      [(USER_KEY, f.user, kind == USERS), (INVITE_KEY, f.invite, kind == INVITES),
          (TOKEN_KEY, f.token, kind == TOKENS)]);
    r := Folded(subject, changed);
  }

  lemma KindsApart()
    ensures USERS != INVITES && USERS != TOKENS && INVITES != TOKENS
    ensures USER_KEY != INVITE_KEY && USER_KEY != TOKEN_KEY && INVITE_KEY != TOKEN_KEY
  {
    assert USERS[14] == 'u' && INVITES[14] == 'i' && TOKENS[14] == 't';
    assert USER_KEY[0] == 'p' && INVITE_KEY[0] == 'i' && TOKEN_KEY[0] == 't';
  }

  function Fold(f: Fact): Folded { Folded(SubjectOf(f), Payload(f)) }

  // ----- reading it back --------------------------------------------------

  // The keys the fold may overlay beside each kind of subject. The key of the
  // subject itself is never among them.
  function Overlaid(subject: Option<Subject>): set<string> {
    if subject.None? then {}
    else if subject.value.kind == TOKENS then {USER_KEY, INVITE_KEY}
    else if subject.value.kind == INVITES then {USER_KEY}
    else {}
  }

  // A value that is a printed id.
  predicate IsId(v: Json) {
    v.JString? && ParseUuid(v.text).Some? && IdValue(ParseUuid(v.text).value) == v
  }

  function IdUnder(changed: map<string, Json>, key: string): Option<Uuid> {
    if key in changed && IsId(changed[key]) then ParseUuid(changed[key].text) else None
  }

  function IdAt(f: Fact, key: string): Option<Uuid> {
    if key == USER_KEY then f.user else if key == INVITE_KEY then f.invite else f.token
  }

  // A row is read with its subject as one id, the ids under the overlaid keys
  // as the others, and the rest as the detail.
  function Read(r: Folded): Fact {
    var kind := if r.subject.Some? then r.subject.value.kind else "";
    var over := Overlaid(r.subject);
    Fact(
      if kind == USERS then Some(r.subject.value.id)
      else if USER_KEY in over then IdUnder(r.changed, USER_KEY) else None,
      if kind == INVITES then Some(r.subject.value.id)
      else if INVITE_KEY in over then IdUnder(r.changed, INVITE_KEY) else None,
      if kind == TOKENS then Some(r.subject.value.id) else None,
      JObject(r.changed - (set k | k in over && IdUnder(r.changed, k).Some?)))
  }

  // The facts whose row says what they say: the detail is an object, and
  // where it uses a key the fold may overlay, no id goes there and the value
  // does not pass for one.
  predicate Legible(f: Fact) {
    && f.detail.JObject?
    && forall k :: k in Overlaid(SubjectOf(f)) && k in f.detail.fields ==>
         IdAt(f, k).None? && !IsId(f.detail.fields[k])
  }

  lemma IdReads(u: Uuid)
    ensures IsId(IdValue(u)) && ParseUuid(IdValue(u).text) == Some(u)
  {
    UuidRoundTrip(u);
    hide ParseUuid, PrintUuid;
  }

  // What stands under a key of the payload.
  lemma PayloadAt(f: Fact, key: string)
    ensures var over := Overlaid(SubjectOf(f));
            if key in over && IdAt(f, key).Some? then
              key in Payload(f) && Payload(f)[key] == IdValue(IdAt(f, key).value)
              && IdUnder(Payload(f), key) == IdAt(f, key)
            else
              && (key in Payload(f) <==> key in Opened(f.detail))
              && (key in Payload(f) ==> Payload(f)[key] == Opened(f.detail)[key])
  {
    hide ParseUuid, PrintUuid, Opened;
    KindsApart();
    if key in Overlaid(SubjectOf(f)) && IdAt(f, key).Some? {
      IdReads(IdAt(f, key).value);
    }
  }

  lemma IdUnderIs(changed: map<string, Json>, key: string)
    ensures IdUnder(changed, key).Some? ==> key in changed && changed[key] == IdValue(IdUnder(changed, key).value)
    ensures IdUnder(changed, key).None? ==> key !in changed || !IsId(changed[key])
  {
    hide ParseUuid, PrintUuid;
  }

  // The ids of a legible fact stand under its overlaid keys.
  lemma LegibleIds(f: Fact, k: string)
    requires Legible(f) && k in Overlaid(SubjectOf(f))
    ensures IdUnder(Payload(f), k) == IdAt(f, k)
  {
    PayloadAt(f, k);
    hide ParseUuid, PrintUuid, Payload, IsId;
  }

  // And the rest of its payload is its detail.
  lemma LegibleRest(f: Fact, taken: set<string>)
    requires Legible(f)
    requires taken == set k | k in Overlaid(SubjectOf(f)) && IdAt(f, k).Some?
    ensures Payload(f) - taken == f.detail.fields
  {
    hide ParseUuid, PrintUuid, Payload, IsId, IdUnder, Overlaid, SubjectOf;
    forall k
      ensures k in Payload(f) - taken <==> k in f.detail.fields
      ensures k in Payload(f) - taken ==> (Payload(f) - taken)[k] == f.detail.fields[k]
    {
      PayloadAt(f, k);
    }
  }

  // A legible fact is what its row is read as.
  lemma LegibleReads(f: Fact)
    requires Legible(f)
    ensures Read(Fold(f)) == f
  {
    KindsApart();
    var p, over := Payload(f), Overlaid(SubjectOf(f));
    hide ParseUuid, PrintUuid, Payload, IsId, IdUnder;
    forall k | k in over ensures IdUnder(p, k) == IdAt(f, k) {
      LegibleIds(f, k);
    }
    var taken := set k | k in over && IdUnder(p, k).Some?;
    assert taken == set k | k in over && IdAt(f, k).Some?;
    LegibleRest(f, taken);
  }

  // Whatever was folded, what its row is read as is legible and folds to the
  // same row.
  lemma ReadIsLegible(f: Fact)
    ensures Legible(Read(Fold(f))) && Fold(Read(Fold(f))) == Fold(f)
  {
    KindsApart();
    var p, g, over := Payload(f), Read(Fold(f)), Overlaid(SubjectOf(f));
    hide ParseUuid, PrintUuid, Payload, IsId, IdUnder;
    assert SubjectOf(g) == SubjectOf(f);
    forall k | k in over ensures IdAt(g, k) == IdUnder(p, k) {}
    forall k | k in over && k in g.detail.fields ensures IdAt(g, k).None? && !IsId(g.detail.fields[k]) {
      IdUnderIs(p, k);
    }
    forall k
      ensures k in Payload(g) <==> k in p
      ensures k in p ==> Payload(g)[k] == p[k]
    {
      PayloadAt(g, k);
      IdUnderIs(p, k);
    }
    assert Payload(g) == p;
  }

  // The fold loses nothing of a fact exactly when the fact is legible; and
  // legible facts with one row are one fact.
  lemma FoldLosesNothing(f: Fact, g: Fact)
    ensures Read(Fold(f)) == f <==> Legible(f)
    ensures Legible(f) && Legible(g) && Fold(f) == Fold(g) ==> f == g
  {
    ReadIsLegible(f);
    if Legible(f) {
      LegibleReads(f);
    }
    if Legible(g) {
      LegibleReads(g);
    }
    hide Read, Fold, Legible;
  }

  // Every other fact shares its row with a legible one, so a reader that gets
  // the legible facts right gets every other one wrong.
  lemma FoldCollides(f: Fact, reader: Folded -> Fact)
    requires forall g :: Legible(g) ==> reader(Fold(g)) == g
    ensures reader(Fold(f)) == f <==> Legible(f)
    ensures !Legible(f) ==> exists g :: g != f && Legible(g) && Fold(g) == Fold(f)
  {
    ReadIsLegible(f);
    hide Read, Fold, Legible;
    assert Legible(Read(Fold(f))) && reader(Fold(Read(Fold(f)))) == Read(Fold(f));
  }

  // The keys each service puts in the detail of its rows.
  function DetailKeys(event: AuditEvent): set<string> {
    match event
    case EvInviteMinted => {"recipient_email", "expires_at"}
    case EvInviteRevoked => {"reason", "email", "revoked_count"}
    case EvInviteRedeemed => {"email"}
    case EvSignupRefused => {}
    case EvSignupCreated => {}
    case EvPolicyChanged => {"enabled", "note"}
    case EvBearerMinted => {"expires_at"}
    case EvBearerRotated => {"successor", "expires_at"}
    case EvBearerRevoked => {"reason", "revoked_count"}
    case EvLoginSucceeded => {}
    case EvLoginRefused => {"email_domain"}
    case EvPortNotComposed => {"verb"}
    case EvAccessRevoked => {"envelope_id", "sapiens_user_id"}
    case EvOnboardingLinked => {"envelope_id", "sapiens_user_id"}
    case EvOnboardingNoInvitation => {"envelope_id", "sapiens_user_id"}
  }

  lemma CleanKey(event: AuditEvent, k: string)
    requires k in DetailKeys(event)
    ensures k != USER_KEY && k != INVITE_KEY
  {
    assert |k| > 0 && k[0] !in "pi";
    assert USER_KEY[0] in "pi" && INVITE_KEY[0] in "pi";
  }

  // So every row the services write can be read back in full.
  lemma ServicesWriteLegibly(row: AuditRow, detail: map<string, Json>)
    requires detail.Keys <= DetailKeys(row.event)
    ensures var f := Fact(row.user, row.invite, row.token, JObject(detail)); Read(Fold(f)) == f
  {
    forall k | k in detail ensures k != USER_KEY && k != INVITE_KEY {
      CleanKey(row.event, k);
    }
    hide DetailKeys;
    LegibleReads(Fact(row.user, row.invite, row.token, JObject(detail)));
  }
}
