// The `rotated_to` links: disjoint, finite chains with one owner each, whose
// last row alone can be active.
module Lineage {
  import opened Prelude
  import opened Links
  import opened Schema
  import opened Protocol

  ghost predicate Ok(db: Tables) { TokensOk(db.users.Keys, db.tokens, db.births) }

  lemma Onward(db: Tables, t: Uuid)
    requires Ok(db) && t in db.tokens
    ensures db.tokens[t].birth < db.births
    ensures db.tokens[t].status == TokenRotated <==> db.tokens[t].rotatedTo.Some?
    ensures db.tokens[t].rotatedTo.Some? ==>
            var t' := db.tokens[t].rotatedTo.value;
            t' in db.tokens && db.tokens[t'].user == db.tokens[t].user && db.tokens[t].birth < db.tokens[t'].birth
  {
    assert TokenRowOk(db.users.Keys, db.tokens, db.births, db.tokens[t]);
  }

  // Following the links from a row until they end.
  ghost function Chain(db: Tables, t: Uuid): (chain: seq<Uuid>)
    requires Ok(db) && t in db.tokens
    ensures |chain| >= 1 && chain[0] == t && forall x :: x in chain ==> x in db.tokens
    decreases db.births - db.tokens[t].birth
  {
    Onward(db, t);
    if db.tokens[t].rotatedTo.None? then [t] else [t] + Chain(db, db.tokens[t].rotatedTo.value)
  }

  ghost function Tail(db: Tables, t: Uuid): Uuid
    requires Ok(db) && t in db.tokens
  {
    Chain(db, t)[|Chain(db, t)| - 1]
  }

  predicate OneOwner(db: Tables, chain: seq<Uuid>, user: Uuid) {
    forall i :: 0 <= i < |chain| ==> chain[i] in db.tokens && db.tokens[chain[i]].user == user
  }

  predicate RotatedInTurn(db: Tables, chain: seq<Uuid>) {
    forall i :: 0 <= i < |chain| - 1 ==>
      && chain[i] in db.tokens && db.tokens[chain[i]].status == TokenRotated
      && db.tokens[chain[i]].rotatedTo == Some(chain[i + 1])
  }

  // Born in order, so no row comes twice.
  predicate BornInOrder(db: Tables, chain: seq<Uuid>) {
    forall i, j :: 0 <= i < j < |chain| ==>
      chain[i] in db.tokens && chain[j] in db.tokens && db.tokens[chain[i]].birth < db.tokens[chain[j]].birth
  }

  predicate EndsUnrotated(db: Tables, t: Uuid) {
    t in db.tokens && db.tokens[t].status != TokenRotated && db.tokens[t].rotatedTo == None
  }

  lemma ChainExtends(db: Tables, t: Uuid, rest: seq<Uuid>)
    requires Ok(db) && t in db.tokens && rest != [] && db.tokens[t].rotatedTo == Some(rest[0])
    requires OneOwner(db, rest, db.tokens[rest[0]].user) && RotatedInTurn(db, rest) && BornInOrder(db, rest)
    ensures OneOwner(db, [t] + rest, db.tokens[t].user)
    ensures RotatedInTurn(db, [t] + rest) && BornInOrder(db, [t] + rest)
  {
    Onward(db, t);
    var chain := [t] + rest;
    assert OneOwner(db, chain, db.tokens[t].user);
    assert RotatedInTurn(db, chain);
    forall i, j | 0 <= i < j < |chain|
      ensures chain[i] in db.tokens && chain[j] in db.tokens && db.tokens[chain[i]].birth < db.tokens[chain[j]].birth
    {
      assert chain[j] == rest[j - 1];
      if i == 0 && j > 1 {
        assert db.tokens[rest[0]].birth < db.tokens[rest[j - 1]].birth;
      }
    }
  }

  // A chain has one owner, its rows come one after the other and never
  // again, every row but the last is rotated out to the next one, and the
  // last is not rotated.
  lemma {:induction false} ChainFacts(db: Tables, t: Uuid)
    requires Ok(db) && t in db.tokens
    ensures OneOwner(db, Chain(db, t), db.tokens[t].user)
    ensures RotatedInTurn(db, Chain(db, t)) && BornInOrder(db, Chain(db, t))
    ensures EndsUnrotated(db, Tail(db, t))
    decreases db.births - db.tokens[t].birth
  {
    Onward(db, t);
    if db.tokens[t].rotatedTo.Some? {
      var next := db.tokens[t].rotatedTo.value;
      ChainFacts(db, next);
      hide OneOwner, RotatedInTurn, BornInOrder, Ok;
      ChainExtends(db, t, Chain(db, next));
      assert Chain(db, t) == [t] + Chain(db, next);
      assert Tail(db, t) == Tail(db, next);
    }
  }

  // A row of a chain other than its first has its predecessor in the chain.
  lemma PredecessorInChain(db: Tables, t: Uuid, x: Uuid)
    requires Ok(db) && t in db.tokens && x in Chain(db, t) && x != t
    ensures exists p :: p in Chain(db, t) && db.tokens[p].rotatedTo == Some(x)
  {
    ChainFacts(db, t);
    var chain := Chain(db, t);
    var i :| 0 <= i < |chain| && chain[i] == x;
    assert chain[i - 1] in chain;
  }

  // Chains that meet share their end: of two rows with the same tail one
  // descends from the other.
  lemma {:induction false} SameTailComparable(db: Tables, a: Uuid, b: Uuid)
    requires Ok(db) && a in db.tokens && b in db.tokens && Tail(db, a) == Tail(db, b)
    ensures a in Chain(db, b) || b in Chain(db, a)
    decreases db.births - db.tokens[a].birth
  {
    Onward(db, a);
    if db.tokens[a].rotatedTo.None? {
      assert Tail(db, a) == a;
    } else {
      var next := db.tokens[a].rotatedTo.value;
      assert Tail(db, next) == Tail(db, a);
      SameTailComparable(db, next, b);
      if next in Chain(db, b) && next != b {
        PredecessorInChain(db, b, next);
        var p :| p in Chain(db, b) && db.tokens[p].rotatedTo == Some(next);
        assert p == a;
      } else {
        assert b in Chain(db, next);
        assert Chain(db, a) == [a] + Chain(db, next);
      }
    }
  }

  // At most one row of a chain is active, and it is the tail.
  lemma OneActivePerChain(db: Tables, a: Uuid, b: Uuid)
    requires Ok(db) && a in db.tokens && b in db.tokens
    requires IsActiveToken(db, a) && IsActiveToken(db, b) && Tail(db, a) == Tail(db, b)
    ensures a == b == Tail(db, a)
  {
    Onward(db, a);
    Onward(db, b);
    assert Chain(db, a) == [a] && Chain(db, b) == [b];
  }

  // Chains only grow at their end.
  lemma {:induction false} ChainGrows(a: Tables, b: Tables, t: Uuid)
    requires Ok(a) && Ok(b) && Evolves(a, b) && t in a.tokens
    ensures t in b.tokens && Chain(a, t) <= Chain(b, t)
    decreases a.births - a.tokens[t].birth
  {
    Onward(a, t);
    assert TokenMoves(a.tokens[t], b.tokens[t]);
    if a.tokens[t].rotatedTo.Some? {
      ChainGrows(a, b, a.tokens[t].rotatedTo.value);
    }
  }

  // In every reachable state the lineages are such chains, and from one
  // moment to a later one each grows at its end or stays.
  lemma ReachableLineages(e: Engine, acts: seq<Act>, m: nat, n: nat, a: Uuid, b: Uuid)
    requires m <= n <= |acts| && a in After(e, acts, m).db.tokens && b in After(e, acts, m).db.tokens
    ensures Ok(After(e, acts, m).db) && Ok(After(e, acts, n).db)
    ensures a in After(e, acts, n).db.tokens
    ensures Chain(After(e, acts, m).db, a) <= Chain(After(e, acts, n).db, a)
    ensures var db := After(e, acts, m).db;
            OneOwner(db, Chain(db, a), db.tokens[a].user) && RotatedInTurn(db, Chain(db, a))
            && BornInOrder(db, Chain(db, a)) && EndsUnrotated(db, Tail(db, a))
    ensures var db := After(e, acts, m).db;
            Tail(db, a) == Tail(db, b) ==>
              && (a in Chain(db, b) || b in Chain(db, a))
              && db.tokens[a].user == db.tokens[b].user
              && (IsActiveToken(db, a) && IsActiveToken(db, b) ==> a == b)
  {
    RunInv(e, acts, m);
    RunInv(e, acts, n);
    RunEvolves(e, acts, m, n);
    var db, later := After(e, acts, m).db, After(e, acts, n).db;
    hide After, Chain, Evolves;
    ChainGrows(db, later, a);
    ChainFacts(db, a);
    if Tail(db, a) == Tail(db, b) {
      SameTailComparable(db, a, b);
      ChainFacts(db, b);
      if IsActiveToken(db, a) && IsActiveToken(db, b) {
        OneActivePerChain(db, a, b);
      }
    }
  }
}
