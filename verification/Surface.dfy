// The self-service surface: a patch over a fixed list of columns, compiled
// into one UPDATE statement.
module Surface {
  import opened Prelude
  import opened Text
  import opened Schema

  datatype Patch = Patch(
    displayName: Option<string>, phone: Option<string>, street: Option<string>, street2: Option<string>,
    city: Option<string>, stateId: Option<string>, countryId: Option<string>, zip: Option<string>,
    vat: Option<string>, companyName: Option<string>)

  datatype Arm = Arm(column: string, value: Option<string>, limit: nat)

  // The declared whitelist with its length limits, in the order it is tested
  // and written.
  function Arms(p: Patch): (arms: seq<Arm>)
    ensures |arms| == 10
  {
    [ Arm("display_name", p.displayName, 120),
      Arm("phone", p.phone, 40),
      Arm("street", p.street, 160),
      Arm("street2", p.street2, 160),
      Arm("city", p.city, 80),
      Arm("state_id", p.stateId, 80),
      Arm("country_id", p.countryId, 8),
      Arm("zip", p.zip, 24),
      Arm("vat", p.vat, 40),
      Arm("company_name", p.companyName, 120) ]
  }

  // What a patch says about a column, by name.
  function ArmOf(p: Patch, column: string): Option<string> {
    match column
    case "display_name" => p.displayName
    case "phone" => p.phone
    case "street" => p.street
    case "street2" => p.street2
    case "city" => p.city
    case "state_id" => p.stateId
    case "country_id" => p.countryId
    case "zip" => p.zip
    case "vat" => p.vat
    case "company_name" => p.companyName
    case _ => None
  }

  // The limit of a column as the table declares it.
  function LimitOf(column: string): nat {
    match column
    case "display_name" => 120
    case "phone" => 40
    case "street" => 160
    case "street2" => 160
    case "city" => 80
    case "state_id" => 80
    case "country_id" => 8
    case "zip" => 24
    case "vat" => 40
    case "company_name" => 120
    case _ => 0
  }

  const COLUMNS: seq<string> :=
    ["display_name", "phone", "street", "street2", "city", "state_id", "country_id", "zip", "vat", "company_name"]

  // `is_empty`
  predicate IsEmpty(p: Patch) {
    p.displayName.None? && p.phone.None? && p.street.None? && p.street2.None? && p.city.None?
    && p.stateId.None? && p.countryId.None? && p.zip.None? && p.vat.None? && p.companyName.None?
  }

  predicate Within(arm: Arm) { arm.value.Some? ==> Utf8Length(arm.value.value) <= arm.limit }

  predicate AllWithin(p: Patch) { forall i :: 0 <= i < |Arms(p)| ==> Within(Arms(p)[i]) }

  // The first arm that is too long.
  function FirstOver(arms: seq<Arm>): Option<Arm> {
    if arms == [] then None
    else if !Within(arms[0]) then Some(arms[0])
    else FirstOver(arms[1..])
  }

  lemma {:induction false} FirstOverFacts(arms: seq<Arm>)
    ensures FirstOver(arms).None? <==> forall i :: 0 <= i < |arms| ==> Within(arms[i])
    ensures FirstOver(arms).Some? ==>
              exists i :: 0 <= i < |arms| && arms[i] == FirstOver(arms).value && !Within(arms[i])
                          && forall k :: 0 <= k < i ==> Within(arms[k])
  {
    hide Within;
    if arms != [] && Within(arms[0]) {
      var rest := arms[1..];
      FirstOverFacts(rest);
      assert forall i :: 1 <= i < |arms| ==> arms[i] == rest[i - 1];
      if FirstOver(rest).Some? {
        var i :| 0 <= i < |rest| && rest[i] == FirstOver(rest).value && !Within(rest[i])
                 && forall k :: 0 <= k < i ==> Within(rest[k]);
        assert arms[i + 1] == FirstOver(arms).value && !Within(arms[i + 1]);
        assert forall k :: 1 <= k < i + 1 ==> Within(arms[k]) by {
          assert forall k :: 1 <= k < i + 1 ==> arms[k] == rest[k - 1] && Within(rest[k - 1]);
        }
      }
    }
  }

  // A value the patch sets has at most so many bytes.
  predicate Short(value: Option<string>, limit: nat) { value.Some? ==> Utf8Length(value.value) <= limit }

  // `validate`: the set arms one after the other, naming the first that is
  // too long.
  method Validate(p: Patch) returns (r: Result<()>)
    ensures r.Ok? <==>
            && Short(p.displayName, 120) && Short(p.phone, 40) && Short(p.street, 160) && Short(p.street2, 160)
            && Short(p.city, 80) && Short(p.stateId, 80) && Short(p.countryId, 8) && Short(p.zip, 24)
            && Short(p.vat, 40) && Short(p.companyName, 120)
    ensures r == match FirstOver(Arms(p))
                 case None => Ok(())
                 case Some(arm) => Err(InvalidInput(TooLong(arm.column, arm.limit)))
  {
    var checks := Arms(p);
    var i := 0;
    ShortArms(p);
    FirstOverFacts(checks);
    hide Within, Short, Arms;
    assert checks[0..] == checks;
    while i < |checks|
      invariant 0 <= i <= |checks|
      invariant FirstOver(checks) == FirstOver(checks[i..])
    {
      var check := checks[i];
      WithinMeans(check);
      if check.value.Some? && Utf8Length(check.value.value) > check.limit {
        return Err(InvalidInput(TooLong(check.column, check.limit)));
      }
      assert checks[i..][1..] == checks[i + 1..];
      i := i + 1;
    }
    return Ok(());
  }

  lemma WithinMeans(arm: Arm)
    ensures Within(arm) <==> (arm.value.Some? ==> Utf8Length(arm.value.value) <= arm.limit)
  {
  }

  lemma ShortArms(p: Patch)
    ensures AllWithin(p) <==>
            && Short(p.displayName, 120) && Short(p.phone, 40) && Short(p.street, 160) && Short(p.street2, 160)
            && Short(p.city, 80) && Short(p.stateId, 80) && Short(p.countryId, 8) && Short(p.zip, 24)
            && Short(p.vat, 40) && Short(p.companyName, 120)
  {
    hide Utf8Length;
    var arms := Arms(p);
    assert Within(arms[0]) == Short(p.displayName, 120) && Within(arms[1]) == Short(p.phone, 40);
    assert Within(arms[2]) == Short(p.street, 160) && Within(arms[3]) == Short(p.street2, 160);
    assert Within(arms[4]) == Short(p.city, 80) && Within(arms[5]) == Short(p.stateId, 80);
    assert Within(arms[6]) == Short(p.countryId, 8) && Within(arms[7]) == Short(p.zip, 24);
    assert Within(arms[8]) == Short(p.vat, 40) && Within(arms[9]) == Short(p.companyName, 120);
    hide Within, Short;
  }

  // ----- columns by name --------------------------------------------------

  lemma ColumnsApart()
    ensures forall i, j :: 0 <= i < j < |COLUMNS| ==> COLUMNS[i] != COLUMNS[j]
  {
    assert COLUMNS[0][0] == 'd' && COLUMNS[1][0] == 'p' && COLUMNS[2][0] == 's' && COLUMNS[3][0] == 's';
    assert COLUMNS[4][0] == 'c' && COLUMNS[5][0] == 's' && COLUMNS[6][0] == 'c' && COLUMNS[7][0] == 'z';
    assert COLUMNS[8][0] == 'v' && COLUMNS[9][0] == 'c';
    assert |COLUMNS[2]| == 6 && |COLUMNS[3]| == 7 && |COLUMNS[5]| == 8;
    assert |COLUMNS[4]| == 4 && |COLUMNS[6]| == 10 && |COLUMNS[9]| == 12;
  }

  lemma ArmsByName(p: Patch, i: nat)
    requires i < 10
    ensures Arms(p)[i].column == COLUMNS[i]
    ensures ArmOf(p, COLUMNS[i]) == Arms(p)[i].value && LimitOf(COLUMNS[i]) == Arms(p)[i].limit
  {
  }

  lemma OnTheList(p: Patch, column: string)
    requires ArmOf(p, column).Some?
    ensures exists i :: 0 <= i < 10 && COLUMNS[i] == column
  {
    assert column == COLUMNS[0] || column == COLUMNS[1] || column == COLUMNS[2] || column == COLUMNS[3]
        || column == COLUMNS[4] || column == COLUMNS[5] || column == COLUMNS[6] || column == COLUMNS[7]
        || column == COLUMNS[8] || column == COLUMNS[9];
  }

  // ----- the statement ----------------------------------------------------

  datatype Value = TextValue(text: string) | IdValue(id: Uuid)

  // Statement text, or a place where a value is bound.
  datatype Piece = Sql(text: string) | Bound(value: Value)

  const HEAD := "UPDATE portal.portal_users SET "
  const COMMA := ", "
  const EQUALS := " = "
  const STAMP := ", metadata = jsonb_set(metadata, '{updated_by}', to_jsonb("
  const WHERE_ID := "::text)) WHERE id = "
  const AND := " AND "
  const LIVE_ROW := AND + "status = 'active'" + (AND + "(metadata->>'deleted_at') IS NULL")

  class QueryBuilder {
    var pieces: seq<Piece>

    constructor (text: string)
      ensures pieces == [Sql(text)]
    {
      pieces := [Sql(text)];
    }

    method Push(text: string)
      modifies this
      ensures pieces == old(pieces) + [Sql(text)]
    {
      pieces := pieces + [Sql(text)];
    }

    method PushBind(value: Value)
      modifies this
      ensures pieces == old(pieces) + [Bound(value)]
    {
      pieces := pieces + [Bound(value)];
    }
  }

  datatype Assign = Assign(column: string, value: string)

  // The set arms, in order.
  function SetArms(arms: seq<Arm>): seq<Assign> {
    if arms == [] then []
    else
      var arm := arms[|arms| - 1];
      SetArms(arms[..|arms| - 1]) + if arm.value.Some? then [Assign(arm.column, arm.value.value)] else []
  }

  function AssignPieces(a: Assign): seq<Piece> { [Sql(a.column), Sql(EQUALS), Bound(TextValue(a.value))] }

  // A list of assignments, separated by commas.
  function ListPieces(sets: seq<Assign>): seq<Piece> {
    if sets == [] then []
    else if |sets| == 1 then AssignPieces(sets[0])
    else AssignPieces(sets[0]) + [Sql(COMMA)] + ListPieces(sets[1..])
  }

  function TailPieces(stamp: string, id: Uuid): seq<Piece> {
    [Sql(STAMP), Bound(TextValue(stamp)), Sql(WHERE_ID), Bound(IdValue(id)), Sql(LIVE_ROW)]
  }

  lemma {:induction false} ListAppend(sets: seq<Assign>, a: Assign)
    ensures ListPieces(sets + [a]) == ListPieces(sets) + (if sets == [] then [] else [Sql(COMMA)]) + AssignPieces(a)
  {
    if |sets| == 0 {
      assert sets + [a] == [a];
    } else {
      ListAppend(sets[1..], a);
      assert (sets + [a])[1..] == sets[1..] + [a];
      if |sets| == 1 {
        assert sets[1..] + [a] == [a];
      }
    }
  }

  // The statement so far holds the arms already done.
  predicate SoFar(pieces: seq<Piece>, first: bool, done: seq<Arm>) {
    pieces == [Sql(HEAD)] + ListPieces(SetArms(done)) && first == (SetArms(done) == [])
  }

  // The `set_arm!` macro: a comma before every arm but the first.
  method SetArm(builder: QueryBuilder, first: bool, p: Patch, k: nat) returns (stillFirst: bool)
    requires k < 10 && SoFar(builder.pieces, first, Arms(p)[..k])
    modifies builder
    ensures SoFar(builder.pieces, stillFirst, Arms(p)[..k + 1])
  {
    stillFirst := first;
    var arm, done := Arms(p)[k], Arms(p)[..k];
    assert Arms(p)[..k + 1] == done + [arm];
    assert (done + [arm])[..|done|] == done;
    if arm.value.Some? {
      ListAppend(SetArms(done), Assign(arm.column, arm.value.value));
      if !first {
        builder.Push(COMMA);
      }
      builder.Push(arm.column);
      builder.Push(EQUALS);
      builder.PushBind(TextValue(arm.value.value));
      stillFirst := false;
    } else {
      assert SetArms(done + [arm]) == SetArms(done);
    }
  }

  function Statement(p: Patch, principal: Uuid): seq<Piece> {
    [Sql(HEAD)] + ListPieces(SetArms(Arms(p))) + TailPieces(PrintUuid(principal), principal)
  }

  lemma Begun(p: Patch)
    ensures SoFar([Sql(HEAD)], true, Arms(p)[..0])
  {
  }

  lemma Ended(p: Patch, pieces: seq<Piece>, first: bool, principal: Uuid)
    requires SoFar(pieces, first, Arms(p)[..10])
    ensures pieces + TailPieces(PrintUuid(principal), principal) == Statement(p, principal)
  {
    assert Arms(p)[..10] == Arms(p);
  }

  // The five arms from the k-th on.
  method SetFive(builder: QueryBuilder, first: bool, p: Patch, k: nat) returns (stillFirst: bool)
    requires k <= 5 && SoFar(builder.pieces, first, Arms(p)[..k])
    modifies builder
    ensures SoFar(builder.pieces, stillFirst, Arms(p)[..k + 5])
  {
    hide SoFar, Arms;
    stillFirst := SetArm(builder, first, p, k);
    stillFirst := SetArm(builder, stillFirst, p, k + 1);
    stillFirst := SetArm(builder, stillFirst, p, k + 2);
    stillFirst := SetArm(builder, stillFirst, p, k + 3);
    stillFirst := SetArm(builder, stillFirst, p, k + 4);
  }

  // The statement `update_my_details` builds.
  method Build(p: Patch, principal: Uuid) returns (pieces: seq<Piece>)
    ensures pieces == Statement(p, principal)
  {
    hide PrintUuid, SoFar, Arms, Statement;
    var builder := new QueryBuilder(HEAD);
    Begun(p);
    var first := SetFive(builder, true, p, 0);
    first := SetFive(builder, first, p, 5);
    Ended(p, builder.pieces, first, principal);
    builder.Push(STAMP);
    builder.PushBind(TextValue(PrintUuid(principal)));
    builder.Push(WHERE_ID);
    builder.PushBind(IdValue(principal));
    builder.Push(LIVE_ROW);
    pieces := builder.pieces;
  }

  // ----- what a statement means -------------------------------------------

  // A condition on the row beside its id.
  datatype Test = StatusIs(status: UserStatus) | NotDeleted

  datatype Update = Update(sets: seq<Assign>, stamp: string, id: Uuid, tests: seq<Test>)

  // The condition a text begins with, and what follows it.
  function ReadTest(text: string): (r: Option<(Test, string)>)
    ensures r.Some? ==> |r.value.1| <= |text|
  {
    if "status = 'active'" <= text then Some((StatusIs(Active), text[|"status = 'active'"|..]))
    else if "status = 'invited'" <= text then Some((StatusIs(Invited), text[|"status = 'invited'"|..]))
    else if "status = 'revoked'" <= text then Some((StatusIs(Revoked), text[|"status = 'revoked'"|..]))
    else if "status = 'archived'" <= text then Some((StatusIs(Archived), text[|"status = 'archived'"|..]))
    else if "(metadata->>'deleted_at') IS NULL" <= text then
      Some((NotDeleted, text[|"(metadata->>'deleted_at') IS NULL"|..]))
    else None
  }

  // The conditions of a text, each after an AND.
  function ReadTests(text: string): Option<seq<Test>>
    decreases |text|
  {
    if text == "" then Some([])
    else if !(" AND " <= text) then None
    else
      match ReadTest(text[5..])
      case None => None
      case Some((test, rest)) =>
        var more := ReadTests(rest);
        if more.None? then None else Some([test] + more.value)
  }

  lemma AndFirst(text: string)
    ensures " AND " <= AND + text && (AND + text)[5..] == text
  {
  }

  lemma OneTest(term: string, test: Test, rest: string)
    requires ReadTest(term + rest) == Some((test, rest)) && ReadTests(rest).Some?
    ensures ReadTests(AND + term + rest) == Some([test] + ReadTests(rest).value)
  {
    hide ReadTest;
    AndFirst(term + rest);
    var text := AND + (term + rest);
    assert AND + term + rest == text;
    assert text != "" && ReadTest(text[5..]) == Some((test, rest));
    assert ReadTests(text) == Some([test] + ReadTests(rest).value);
  }

  lemma ActiveFirst(rest: string)
    ensures ReadTest("status = 'active'" + rest) == Some((StatusIs(Active), rest))
  {
    var term := "status = 'active'";
    assert term <= term + rest && (term + rest)[|term|..] == rest;
  }

  lemma LiveFirst(rest: string)
    ensures ReadTest("(metadata->>'deleted_at') IS NULL" + rest) == Some((NotDeleted, rest))
  {
    var term := "(metadata->>'deleted_at') IS NULL";
    assert term <= term + rest && (term + rest)[|term|..] == rest;
    assert (term + rest)[0] == term[0] == '(';
    assert "status = 'active'"[0] == 's' && "status = 'invited'"[0] == 's';
    assert "status = 'revoked'"[0] == 's' && "status = 'archived'"[0] == 's';
  }

  // The row condition of the statement: active, and not deleted.
  lemma LiveRowReads()
    ensures ReadTests(LIVE_ROW) == Some([StatusIs(Active), NotDeleted])
  {
    var active, live := "status = 'active'", "(metadata->>'deleted_at') IS NULL";
    assert ReadTests("") == Some([]);
    hide ReadTests, ReadTest;
    LiveFirst("");
    OneTest(live, NotDeleted, "");
    assert AND + live + "" == AND + live && [NotDeleted] + [] == [NotDeleted];
    ActiveFirst(AND + live);
    OneTest(active, StatusIs(Active), AND + live);
    assert [StatusIs(Active)] + [NotDeleted] == [StatusIs(Active), NotDeleted];
  }

  predicate IsColumn(text: string) { text in COLUMNS }

  // Assignments of declared columns, separated by commas, from the front.
  function ReadList(ps: seq<Piece>): Option<(seq<Assign>, seq<Piece>)> {
    if |ps| < 3 || !ps[0].Sql? || !IsColumn(ps[0].text) || ps[1] != Sql(" = ")
       || !ps[2].Bound? || !ps[2].value.TextValue? then None
    else
      var a := Assign(ps[0].text, ps[2].value.text);
      if |ps| == 3 || ps[3] != Sql(", ") then Some(([a], ps[3..]))
      else
        match ReadList(ps[4..])
        case None => None
        case Some((more, rest)) => Some(([a] + more, rest))
  }

  // The database refuses two assignments to one column.
  predicate Distinct(sets: seq<Assign>) {
    forall i, j :: 0 <= i < j < |sets| ==> sets[i].column != sets[j].column
  }

  function ReadTail(sets: seq<Assign>, ps: seq<Piece>): Option<Update> {
    if |ps| == 5 && ps[0] == Sql(", metadata = jsonb_set(metadata, '{updated_by}', to_jsonb(")
       && ps[1].Bound? && ps[1].value.TextValue? && ps[2] == Sql("::text)) WHERE id = ")
       && ps[3].Bound? && ps[3].value.IdValue? && ps[4].Sql? && ReadTests(ps[4].text).Some? && Distinct(sets)
    then Some(Update(sets, ps[1].value.text, ps[3].value.id, ReadTests(ps[4].text).value)) else None
  }

  function ReadUpdate(ps: seq<Piece>): Option<Update> {
    if |ps| == 0 || ps[0] != Sql("UPDATE portal.portal_users SET ") then None
    else
      match ReadList(ps[1..])
      case None => None
      case Some((sets, rest)) => ReadTail(sets, rest)
  }

  // The columns of a list, all declared.
  predicate Declared(sets: seq<Assign>) {
    forall i :: 0 <= i < |sets| ==> IsColumn(sets[i].column)
  }

  lemma ReadLast(a: Assign, rest: seq<Piece>)
    requires IsColumn(a.column) && (rest != [] ==> rest[0] != Sql(COMMA))
    ensures ReadList(AssignPieces(a) + rest) == Some(([a], rest))
  {
    hide IsColumn;
    assert (AssignPieces(a) + rest)[3..] == rest;
  }

  lemma ReadOneMore(a: Assign, ps: seq<Piece>)
    requires IsColumn(a.column) && ReadList(ps).Some?
    ensures ReadList(AssignPieces(a) + [Sql(COMMA)] + ps) == Some(([a] + ReadList(ps).value.0, ReadList(ps).value.1))
  {
    hide IsColumn;
    assert (AssignPieces(a) + [Sql(COMMA)] + ps)[4..] == ps;
  }

  lemma {:induction false} ListRoundTrip(sets: seq<Assign>, rest: seq<Piece>)
    requires sets != [] && Declared(sets) && (rest != [] ==> rest[0] != Sql(COMMA))
    ensures ReadList(ListPieces(sets) + rest) == Some((sets, rest))
  {
    hide IsColumn, ReadList, AssignPieces;
    if |sets| == 1 {
      ReadLast(sets[0], rest);
      assert sets == [sets[0]];
    } else {
      ListRoundTrip(sets[1..], rest);
      ReadOneMore(sets[0], ListPieces(sets[1..]) + rest);
      assert ListPieces(sets) + rest == AssignPieces(sets[0]) + [Sql(COMMA)] + (ListPieces(sets[1..]) + rest);
      assert sets == [sets[0]] + sets[1..];
    }
  }

  // ----- the arms as assignments ------------------------------------------

  // The assignments follow the order of the arms, one for each set arm.
  lemma {:induction false} SetArmsFacts(arms: seq<Arm>)
    ensures forall a :: a in SetArms(arms) <==>
              exists i :: 0 <= i < |arms| && arms[i].value.Some? && a == Assign(arms[i].column, arms[i].value.value)
    ensures SetArms(arms) == [] <==> forall i :: 0 <= i < |arms| ==> arms[i].value.None?
  {
    if arms != [] {
      var init, arm := arms[..|arms| - 1], arms[|arms| - 1];
      SetArmsFacts(init);
      forall a ensures a in SetArms(arms) <==>
          exists i :: 0 <= i < |arms| && arms[i].value.Some? && a == Assign(arms[i].column, arms[i].value.value)
      {
        if a in SetArms(init) {
          var i :| 0 <= i < |init| && init[i].value.Some? && a == Assign(init[i].column, init[i].value.value);
          assert arms[i] == init[i];
        }
        if i :| 0 <= i < |arms| && arms[i].value.Some? && a == Assign(arms[i].column, arms[i].value.value) {
          if i < |init| {
            assert init[i] == arms[i];
          }
        }
      }
      assert arm.value.Some? ==> Assign(arm.column, arm.value.value) in SetArms(arms);
      assert forall i :: 0 <= i < |init| ==> init[i] == arms[i];
    }
  }

  predicate NamesApart(arms: seq<Arm>) {
    forall i, j :: 0 <= i < j < |arms| ==> arms[i].column != arms[j].column
  }

  lemma {:induction false} SetArmsDistinct(arms: seq<Arm>)
    requires NamesApart(arms)
    ensures Distinct(SetArms(arms))
  {
    if arms != [] {
      var init, arm := arms[..|arms| - 1], arms[|arms| - 1];
      SetArmsDistinct(init);
      SetArmsFacts(init);
      forall a | a in SetArms(init) ensures a.column != arm.column {
        var i :| 0 <= i < |init| && init[i].value.Some? && a == Assign(init[i].column, init[i].value.value);
        assert arms[i].column == a.column;
      }
    }
  }

  lemma ArmsWellNamed(p: Patch)
    ensures NamesApart(Arms(p)) && Declared(SetArms(Arms(p))) && Distinct(SetArms(Arms(p)))
    ensures SetArms(Arms(p)) == [] <==> IsEmpty(p)
  {
    ColumnsApart();
    forall i | 0 <= i < 10 ensures Arms(p)[i].column == COLUMNS[i] {
      ArmsByName(p, i);
    }
    SetArmsDistinct(Arms(p));
    SetArmsFacts(Arms(p));
    EmptyIffNoArm(p);
    hide SetArms, Arms;
    var arms, sets := Arms(p), SetArms(Arms(p));
    forall k | 0 <= k < |sets| ensures IsColumn(sets[k].column) {
      assert sets[k] in sets;
      var i :| 0 <= i < |arms| && arms[i].value.Some? && sets[k] == Assign(arms[i].column, arms[i].value.value);
      assert sets[k].column == COLUMNS[i];
    }
  }

  lemma EmptyIffNoArm(p: Patch)
    ensures IsEmpty(p) <==> forall i :: 0 <= i < 10 ==> Arms(p)[i].value.None?
  {
    var arms := Arms(p);
    assert arms[0].value == p.displayName && arms[1].value == p.phone && arms[2].value == p.street;
    assert arms[3].value == p.street2 && arms[4].value == p.city && arms[5].value == p.stateId;
    assert arms[6].value == p.countryId && arms[7].value == p.zip && arms[8].value == p.vat;
    assert arms[9].value == p.companyName;
  }

  lemma NoArms()
    ensures ListPieces([]) == []
  {
  }

  lemma TailReads(sets: seq<Assign>, stamp: string, id: Uuid)
    ensures ReadList(TailPieces(stamp, id)) == None && TailPieces(stamp, id)[0] != Sql(COMMA)
    ensures Distinct(sets) ==>
              ReadTail(sets, TailPieces(stamp, id)) == Some(Update(sets, stamp, id, [StatusIs(Active), NotDeleted]))
  {
    LiveRowReads();
    hide ReadTests;
    assert |COMMA| == 2 && |STAMP| > 12;
    assert forall i :: 0 <= i < |COLUMNS| ==> |COLUMNS[i]| <= 12;
    assert !IsColumn(STAMP);
  }

  // The statement is well formed exactly for the patches that set something,
  // and then it says what the patch says.
  lemma StatementReads(p: Patch, principal: Uuid)
    ensures ReadUpdate(Statement(p, principal)) ==
            if IsEmpty(p) then None
            else Some(Update(SetArms(Arms(p)), PrintUuid(principal), principal, [StatusIs(Active), NotDeleted]))
  {
    hide PrintUuid, Arms, SetArms, ListPieces, TailPieces, IsEmpty, ReadList, ReadTail, Declared, Distinct, IsColumn;
    ArmsWellNamed(p);
    var sets, tail := SetArms(Arms(p)), TailPieces(PrintUuid(principal), principal);
    assert Statement(p, principal)[1..] == ListPieces(sets) + tail;
    TailReads(sets, PrintUuid(principal), principal);
    if sets != [] {
      ListRoundTrip(sets, tail);
    } else {
      NoArms();
      assert ListPieces(sets) + tail == tail;
    }
  }

  // ----- the table --------------------------------------------------------

  // A principal row with the columns this surface touches. A column without a
  // value is NULL.
  datatype Account = Account(user: User, details: map<string, string>, updatedBy: Option<string>)

  // What the other verbs see of the same rows.
  function UsersOf(rows: map<Uuid, Account>): map<Uuid, User> {
    map u | u in rows :: rows[u].user
  }

  function Assigned(details: map<string, string>, sets: seq<Assign>): map<string, string> {
    if sets == [] then details
    else
      var a := sets[|sets| - 1];
      Assigned(details, sets[..|sets| - 1])[a.column := a.value]
  }

  predicate Meets(row: Account, test: Test) {
    match test
    case StatusIs(status) => row.user.status == status
    case NotDeleted => !row.user.deleted
  }

  // The row a statement is about: of that id, if it meets every condition.
  predicate Hits(rows: map<Uuid, Account>, u: Update) {
    u.id in rows && forall i :: 0 <= i < |u.tests| ==> Meets(rows[u.id], u.tests[i])
  }

  lemma HitsOwnLive(rows: map<Uuid, Account>, u: Update)
    requires u.tests == [StatusIs(Active), NotDeleted]
    ensures Hits(rows, u) <==> OwnLive(rows, u.id)
  {
    if Hits(rows, u) {
      assert Meets(rows[u.id], u.tests[0]) && Meets(rows[u.id], u.tests[1]);
    }
  }

  predicate OwnLive(rows: map<Uuid, Account>, id: Uuid) {
    id in rows && rows[id].user.status == Active && !rows[id].user.deleted
  }

  // The declared checks count characters.
  predicate FitsChecks(sets: seq<Assign>) {
    forall i :: 0 <= i < |sets| ==> |sets[i].value| <= LimitOf(sets[i].column)
  }

  // What the database does with a statement: the rows afterwards and how
  // many it wrote, or a refusal of the whole statement.
  function Execute(rows: map<Uuid, Account>, ps: seq<Piece>): Result<(map<Uuid, Account>, nat)> {
    match ReadUpdate(ps)
    case None => Err(Db("syntax error"))
    case Some(u) =>
      if !Hits(rows, u) then Ok((rows, 0))
      else if !FitsChecks(u.sets) then Err(Db("check constraint violated"))
      else
        var row := rows[u.id];
        Ok((rows[u.id := row.(details := Assigned(row.details, u.sets), updatedBy := Some(u.stamp))], 1))
  }

  // The functional row update a patch stands for.
  function Patched(details: map<string, string>, p: Patch): map<string, string> {
    map c | c in details.Keys + (set i | 0 <= i < 10 && ArmOf(p, COLUMNS[i]).Some? :: COLUMNS[i]) ::
      if ArmOf(p, c).Some? then ArmOf(p, c).value else details[c]
  }

  lemma {:induction false} AssignedFacts(details: map<string, string>, sets: seq<Assign>)
    requires Distinct(sets)
    ensures forall a :: a in sets ==>
              a.column in Assigned(details, sets) && Assigned(details, sets)[a.column] == a.value
    ensures forall c :: (forall a :: a in sets ==> a.column != c) ==>
              (c in Assigned(details, sets) <==> c in details)
              && (c in details ==> Assigned(details, sets)[c] == details[c])
  {
    if sets != [] {
      var init, last := sets[..|sets| - 1], sets[|sets| - 1];
      AssignedFacts(details, init);
      forall a | a in sets
        ensures a.column in Assigned(details, sets) && Assigned(details, sets)[a.column] == a.value
      {
        var i :| 0 <= i < |sets| && sets[i] == a;
        if i < |init| {
          assert init[i] == a && a.column != last.column;
        }
      }
      forall c | forall a :: a in sets ==> a.column != c
        ensures (c in Assigned(details, sets) <==> c in details)
                && (c in details ==> Assigned(details, sets)[c] == details[c])
      {
        assert last in sets;
        assert forall a :: a in init ==> a in sets;
      }
    }
  }

  lemma ArmNamed(p: Patch, column: string)
    ensures ArmOf(p, column).Some? <==>
            exists i :: 0 <= i < 10 && COLUMNS[i] == column && Arms(p)[i].value.Some?
    ensures forall i :: 0 <= i < 10 && COLUMNS[i] == column ==> ArmOf(p, column) == Arms(p)[i].value
  {
    forall i | 0 <= i < 10 ensures ArmOf(p, COLUMNS[i]) == Arms(p)[i].value {
      ArmsByName(p, i);
    }
    if ArmOf(p, column).Some? {
      OnTheList(p, column);
    }
    hide Arms, ArmOf;
  }

  // What the assignments say of one column.
  lemma AssignedColumn(p: Patch, column: string)
    ensures ArmOf(p, column).Some? ==> Assign(column, ArmOf(p, column).value) in SetArms(Arms(p))
    ensures ArmOf(p, column).None? ==> forall a :: a in SetArms(Arms(p)) ==> a.column != column
  {
    SetArmsFacts(Arms(p));
    ArmNamed(p, column);
    forall i | 0 <= i < 10 ensures Arms(p)[i].column == COLUMNS[i] {
      ArmsByName(p, i);
    }
    hide Arms, SetArms, ArmOf;
  }

  // The columns of the functional update.
  lemma PatchedColumn(details: map<string, string>, p: Patch, column: string)
    ensures column in Patched(details, p) <==> column in details || ArmOf(p, column).Some?
    ensures column in Patched(details, p) ==>
              Patched(details, p)[column] == if ArmOf(p, column).Some? then ArmOf(p, column).value else details[column]
  {
    if ArmOf(p, column).Some? {
      OnTheList(p, column);
    }
    hide ArmOf;
  }

  // The assignments of the statement amount to the functional update.
  lemma AssignedIsPatched(details: map<string, string>, p: Patch)
    ensures Assigned(details, SetArms(Arms(p))) == Patched(details, p)
  {
    ArmsWellNamed(p);
    AssignedFacts(details, SetArms(Arms(p)));
    hide Arms, SetArms, ArmOf, Assigned, Patched;
    forall c
      ensures c in Assigned(details, SetArms(Arms(p))) <==> c in Patched(details, p)
      ensures c in Patched(details, p) ==> Assigned(details, SetArms(Arms(p)))[c] == Patched(details, p)[c]
    {
      AssignedColumn(p, c);
      PatchedColumn(details, p, c);
    }
  }

  // A patch that passed `validate` never runs into the declared checks.
  lemma ValidatedFits(p: Patch)
    requires AllWithin(p)
    ensures FitsChecks(SetArms(Arms(p)))
  {
    var arms, sets := Arms(p), SetArms(Arms(p));
    SetArmsFacts(arms);
    forall k | 0 <= k < |sets| ensures |sets[k].value| <= LimitOf(sets[k].column) {
      var a := sets[k];
      assert a in sets;
      var i :| 0 <= i < |arms| && arms[i].value.Some? && a == Assign(arms[i].column, arms[i].value.value);
      ArmsByName(p, i);
      assert Within(arms[i]);
      Utf8LengthAtLeast(a.value);
    }
  }

  // What the whole verb does to the table: the set arms and the stamp, on the
  // principal's own live active row; a refused patch writes nothing.
  function AfterUpdate(rows: map<Uuid, Account>, principal: Uuid, p: Patch): map<Uuid, Account> {
    if IsEmpty(p) || !AllWithin(p) || !OwnLive(rows, principal) then rows
    else
      var row := rows[principal];
      rows[principal := row.(details := Patched(row.details, p), updatedBy := Some(PrintUuid(principal)))]
  }

  // The compiled statement means the functional update.
  lemma StatementMeans(rows: map<Uuid, Account>, principal: Uuid, p: Patch)
    requires !IsEmpty(p) && AllWithin(p)
    ensures Execute(rows, Statement(p, principal)) ==
            Ok((AfterUpdate(rows, principal, p), if OwnLive(rows, principal) then 1 else 0))
  {
    StatementReads(p, principal);
    ValidatedFits(p);
    HitsOwnLive(rows, ReadUpdate(Statement(p, principal)).value);
    hide Statement, SetArms, Arms, Patched, PrintUuid, AllWithin;
    if OwnLive(rows, principal) {
      AssignedIsPatched(rows[principal].details, p);
    }
  }

  // The update touches no column any other verb reads.
  lemma UpdateKeepsPrincipals(rows: map<Uuid, Account>, principal: Uuid, p: Patch)
    ensures UsersOf(AfterUpdate(rows, principal, p)) == UsersOf(rows)
    ensures OwnLive(AfterUpdate(rows, principal, p), principal) == OwnLive(rows, principal)
  {
    hide Patched, PrintUuid, AllWithin;
  }

  datatype View = View(id: Uuid, account: Account)

  class Accounts {
    var rows: map<Uuid, Account>
    const shared: bool

    constructor (shared: bool)
      ensures rows == map[] && this.shared == shared
    {
      rows := map[];
      this.shared := shared;
    }

    // The other sessions run.
    method Others()
      modifies this
      ensures !shared ==> rows == old(rows)
    {
      var found: map<Uuid, Account> := *;
      if shared {
        rows := found;
      }
    }

    // The read model: the principal's own row while it is live and active.
    function MyDetails(principal: Uuid): Result<View>
      reads this
    {
      if OwnLive(rows, principal) then Ok(View(principal, rows[principal])) else Err(NotFound(Principal(principal)))
    }

    // `update_my_details`: two statements, the update and the view, with the
    // other sessions before each.
    method UpdateMyDetails(principal: Uuid, p: Patch)
      returns (r: Result<View>, ghost found: map<Uuid, Account>, ghost written: map<Uuid, Account>)
      modifies this
      ensures written == AfterUpdate(found, principal, p)
      ensures IsEmpty(p) ==> r == Err(InvalidInput(NoFieldSet)) && rows == old(rows)
      ensures !IsEmpty(p) && FirstOver(Arms(p)).Some? ==>
                var arm := FirstOver(Arms(p)).value;
                r == Err(InvalidInput(TooLong(arm.column, arm.limit))) && rows == old(rows)
      ensures r.Ok? ==>
                && r.value.id == principal && principal in rows && r.value.account == rows[principal]
                && rows[principal].user.status == Active && !rows[principal].user.deleted
      ensures !IsEmpty(p) && AllWithin(p) ==>
                if principal in found && found[principal].user.status == Active && !found[principal].user.deleted then
                  && r.Ok? == (principal in rows && rows[principal].user.status == Active
                               && !rows[principal].user.deleted)
                  && (r.Err? ==> r == Err(NotFound(Principal(principal))))
                else r == Err(NotFound(Principal(principal))) && rows == written
      ensures !shared ==> found == old(rows) && rows == written
      ensures !shared && r.Ok? ==>
                && principal in old(rows)
                && r.value.account == old(rows)[principal].(
                     details := Patched(old(rows)[principal].details, p), updatedBy := Some(PrintUuid(principal)))
    {
      hide AllWithin, Patched, Statement, PrintUuid, ReadUpdate, Arms, Short;
      found, written := rows, rows;
      if IsEmpty(p) {
        return Err(InvalidInput(NoFieldSet)), found, written;
      }
      var valid := Validate(p);
      WithinIffNoneOver(p);
      if valid.Err? {
        return Err(valid.error), found, written;
      }
      var pieces := Build(p, principal);
      Others();
      found := rows;
      StatementMeans(rows, principal, p);
      var done := Execute(rows, pieces);
      if done.Err? {
        return Err(Db("")), found, written;
      }
      rows := done.value.0;
      written := rows;
      if done.value.1 != 1 {
        return Err(NotFound(Principal(principal))), found, written;
      }
      Others();
      r := MyDetails(principal);
    }
  }

  lemma WithinIffNoneOver(p: Patch)
    ensures AllWithin(p) <==> FirstOver(Arms(p)).None?
  {
    FirstOverFacts(Arms(p));
  }

  // The limits of `validate` are those of the table for plain ASCII text, and
  // stricter for any other: it counts bytes, the table characters.
  lemma {:induction false} BytesAndCharacters(s: string)
    ensures Utf8Length(s) == |s| <==> forall i :: 0 <= i < |s| ==> s[i] < 128 as char
  {
    if s != "" {
      BytesAndCharacters(s[1..]);
      Utf8LengthAtLeast(s[1..]);
      assert forall i :: 1 <= i < |s| ==> s[i] == s[1..][i - 1];
    }
  }
}
