// What it means that a method conducts a request: every statement it issues
// is the one the request's program names next, on the tables it finds, with
// other sessions running in between.
module Conduct {
  import opened Links
  import opened Schema
  import opened Protocol
  import opened Database

  // One statement of a request: where the request stood, the tables it left
  // at its last statement and finds now, and the environment's answers.
  datatype Moment = Moment(req: Req, left: Tables, found: Tables, choice: Choice)

  type Path = seq<Moment>

  // The request goes from r to r' along the path, and the tables from a to b.
  ghost predicate Conducted(e: Engine, shared: bool, a: Tables, r: Req, path: Path, b: Tables, r': Req) {
    if path == [] then a == b && r == r'
    else
      var m := path[|path| - 1];
      var move := MoveOf(e, m.found, m.req, m.choice, 0);
      && Conducted(e, shared, a, r, path[..|path| - 1], m.left, m.req)
      && Passes(shared, m.left, m.found)
      && b == Exec(m.found, move.stmt) && r' == move.next
  }

  lemma Start(e: Engine, shared: bool, a: Tables, r: Req)
    ensures Conducted(e, shared, a, r, [], a, r)
  {
  }

  lemma OneMore(
      e: Engine, shared: bool, a: Tables, r: Req, path: Path, left: Tables, found: Tables, q: Req, c: Choice,
          move: Move)
    requires Conducted(e, shared, a, r, path, left, q) && Passes(shared, left, found)
    requires MoveOf(e, found, q, c, 0) == move
    ensures Conducted(e, shared, a, r, path + [Moment(q, left, found, c)], Exec(found, move.stmt), move.next)
  {
    var longer := path + [Moment(q, left, found, c)];
    assert longer[..|longer| - 1] == path;
    hide MoveOf, Exec, Passes;
  }

  // A step that only reads.
  lemma OneRead(
      e: Engine, shared: bool, a: Tables, r: Req, path: Path, left: Tables, found: Tables, q: Req, c: Choice, next: Req)
    requires Conducted(e, shared, a, r, path, left, q) && Passes(shared, left, found)
    requires MoveOf(e, found, q, c, 0) == Stay(next)
    ensures Conducted(e, shared, a, r, path + [Moment(q, left, found, c)], found, next)
  {
    assert Exec(found, Nothing) == found;
    hide MoveOf, Exec, Passes;
    OneMore(e, shared, a, r, path, left, found, q, c, Stay(next));
  }

  lemma {:induction false} Joined(
      e: Engine, shared: bool, a: Tables, r: Req, p: Path, b: Tables, q: Req, p': Path, c: Tables, q': Req)
    requires Conducted(e, shared, a, r, p, b, q) && Conducted(e, shared, b, q, p', c, q')
    ensures Conducted(e, shared, a, r, p + p', c, q')
  {
    hide MoveOf, Exec, Passes;
    if p' == [] {
      assert p + p' == p;
    } else {
      var m := p'[|p'| - 1];
      Joined(e, shared, a, r, p, b, q, p'[..|p'| - 1], m.left, m.req);
      assert (p + p')[..|p + p'| - 1] == p + p'[..|p'| - 1];
    }
  }

  // A conducted request keeps the tables, moves every row forward, and
  // arrives where what it says is true.
  lemma {:induction false} ConductedKeeps(e: Engine, shared: bool, a: Tables, r: Req, path: Path, b: Tables, r': Req)
    requires Conducted(e, shared, a, r, path, b, r') && TablesOk(a) && ReqOk(a, r)
    ensures TablesOk(b) && ReqOk(b, r') && Evolves(a, b)
  {
    hide MoveOf, Exec, TablesOk, ReqOk, Evolves;
    if path == [] {
      EvolvesRefl(a);
    } else {
      var m := path[|path| - 1];
      var move := MoveOf(e, m.found, m.req, m.choice, 0);
      ConductedKeeps(e, shared, a, r, path[..|path| - 1], m.left, m.req);
      ReqStable(m.left, m.found, m.req);
      MoveOk(e, m.found, m.req, m.choice, 0);
      ExecKeepsTables(m.found, move.stmt);
      ExecEvolves(m.found, move.stmt);
      EvolvesTrans(a, m.left, m.found);
      EvolvesTrans(a, m.found, b);
    }
  }
}
