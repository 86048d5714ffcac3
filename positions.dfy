/**
 * `get_portfolio_positions` and the resolution of held instrument keys.
 *
 * The open-position dictionary is a sequence of positions whose tokens are
 * its keys, in insertion order, as a Python dict keeps them.
 */
module Positions {
  import opened Common
  import opened AgentTypes

  /** A position is open when it holds shares and is intraday. */
  predicate IsOpen(p: Position) {
    p.quantity != 0 && p.product == IntradayProduct
  }

  predicate HasToken(d: seq<Position>, t: string) {
    exists q :: q in d && q.instrumentToken == t
  }

  predicate DistinctTokens(d: seq<Position>) {
    forall i, j :: 0 <= i < j < |d| ==> d[i].instrumentToken != d[j].instrumentToken
  }

  /** The dictionary's keys, in insertion order. */
  function Tokens(d: seq<Position>): (r: seq<string>)
    ensures |r| == |d|
    ensures forall i :: 0 <= i < |d| ==> r[i] == d[i].instrumentToken
    decreases |d|
  {
    if d == [] then [] else [d[0].instrumentToken] + Tokens(d[1..])
  }

  /** The place of key `t` in the dictionary, or its length when absent. */
  function IndexOfToken(d: seq<Position>, t: string): (i: nat)
    ensures i <= |d|
    ensures i < |d| ==> d[i].instrumentToken == t
    ensures forall k :: 0 <= k < i ==> d[k].instrumentToken != t
    decreases |d|
  {
    if d == [] then 0
    else if d[0].instrumentToken == t then 0
    else 1 + IndexOfToken(d[1..], t)
  }

  /**
   * `d[p.instrument_token] = p`: a new key goes to the end, an existing key
   * keeps its place and takes the new value.
   */
  function Put(d: seq<Position>, p: Position): seq<Position> {
    var i := IndexOfToken(d, p.instrumentToken);
    if i == |d| then d + [p] else d[i := p]
  }

  /**
   * After a store the value is present, every other value was there
   * before, the keys are the old ones plus the new one, a new key is
   * appended, an existing key keeps the key order, and keys stay distinct.
   */
  lemma PutFacts(d: seq<Position>, p: Position)
    ensures var r := Put(d, p);
      && p in r
      && (forall q :: q in r ==> q == p || q in d)
      && (forall t :: HasToken(r, t) <==> HasToken(d, t) || t == p.instrumentToken)
      && (!HasToken(d, p.instrumentToken) ==> r == d + [p])
      && (HasToken(d, p.instrumentToken) ==> Tokens(r) == Tokens(d))
      && (DistinctTokens(d) ==> DistinctTokens(r))
  {
    var i := IndexOfToken(d, p.instrumentToken);
    if i == |d| {
      assert !HasToken(d, p.instrumentToken);
      assert (d + [p])[|d|] == p;
    } else {
      assert HasToken(d, p.instrumentToken) by { assert d[i] in d; }
      PutExistingValues(d, p, i);
      PutExistingKeys(d, p, i);
    }
  }

  lemma PutExistingValues(d: seq<Position>, p: Position, i: nat)
    requires i < |d|
    ensures p in d[i := p]
    ensures forall q :: q in d[i := p] ==> q == p || q in d
  {
    var r := d[i := p];
    assert r[i] == p;
    forall q | q in r ensures q == p || q in d {
      var k :| 0 <= k < |r| && r[k] == q;
      if k != i {
        assert d[k] == q;
      }
    }
  }

  lemma PutExistingKeys(d: seq<Position>, p: Position, i: nat)
    requires i < |d| && d[i].instrumentToken == p.instrumentToken
    ensures Tokens(d[i := p]) == Tokens(d)
    ensures forall t :: HasToken(d[i := p], t) <==> HasToken(d, t)
  {
    var r := d[i := p];
    forall k | 0 <= k < |d| ensures Tokens(r)[k] == Tokens(d)[k] { }
    forall t ensures HasToken(r, t) <==> HasToken(d, t) {
      if HasToken(d, t) {
        var q :| q in d && q.instrumentToken == t;
        var k :| 0 <= k < |d| && d[k] == q;
        assert r[k] in r && r[k].instrumentToken == t;
      }
      if HasToken(r, t) {
        var q :| q in r && q.instrumentToken == t;
        var k :| 0 <= k < |r| && r[k] == q;
        assert d[k] in d && d[k].instrumentToken == t;
      }
    }
  }

  /** The dictionary after adding each open position of `ps`, in order. */
  function OpenPositionsFrom(d: seq<Position>, ps: seq<Position>): seq<Position>
    decreases |ps|
  {
    if ps == [] then d
    else OpenPositionsFrom(if IsOpen(ps[0]) then Put(d, ps[0]) else d, ps[1..])
  }

  lemma {:induction false} OpenPositionsFromFacts(d: seq<Position>, ps: seq<Position>)
    ensures forall t :: HasToken(OpenPositionsFrom(d, ps), t) <==>
              HasToken(d, t) || exists p :: p in ps && IsOpen(p) && p.instrumentToken == t
    ensures forall q :: q in OpenPositionsFrom(d, ps) ==> q in d || (q in ps && IsOpen(q))
    ensures DistinctTokens(d) ==> DistinctTokens(OpenPositionsFrom(d, ps))
    decreases |ps|
  {
    if ps != [] {
      var d' := if IsOpen(ps[0]) then Put(d, ps[0]) else d;
      PutFacts(d, ps[0]);
      OpenPositionsFromFacts(d', ps[1..]);
      assert forall q :: q in ps[1..] ==> q in ps;
      forall q | q in ps && q != ps[0] ensures q in ps[1..] {
        var k :| 0 <= k < |ps| && ps[k] == q;
        assert ps[1..][k - 1] == q;
      }
    }
  }

  /** The open positions of a broker snapshot, keyed by token. */
  function OpenPositions(ps: seq<Position>): (r: seq<Position>)
    ensures forall q :: q in r ==> q in ps && IsOpen(q)
    ensures DistinctTokens(r)
  {
    OpenPositionsFromFacts([], ps);
    OpenPositionsFrom([], ps)
  }

  /**
   * The open positions hold exactly the tokens of positions with a non-zero
   * quantity and the intraday product, each key once, every value such a
   * position; the dictionary is empty exactly when no position is open.
   */
  lemma OpenPositionsFacts(ps: seq<Position>)
    ensures var r := OpenPositions(ps);
      && (forall t :: HasToken(r, t) <==> exists p :: p in ps && IsOpen(p) && p.instrumentToken == t)
      && (forall q :: q in r ==> q in ps && IsOpen(q))
      && DistinctTokens(r)
      && (r == [] <==> forall p :: p in ps ==> !IsOpen(p))
  {
    OpenPositionsFromFacts([], ps);
    var r := OpenPositionsFrom([], ps);
    assert r != [] ==> r[0] in r;
    assert forall p :: p in ps && IsOpen(p) ==> HasToken(r, p.instrumentToken);
  }

  /** The open-position keys are tokens the broker reported. */
  lemma OpenKeysAreReported(ps: seq<Position>, t: string)
    requires t in Tokens(OpenPositions(ps))
    ensures exists p :: p in ps && p.instrumentToken == t && p.quantity != 0 && p.product == "I"
  {
    var r := OpenPositions(ps);
    OpenPositionsFacts(ps);
    var i :| 0 <= i < |r| && Tokens(r)[i] == t;
    assert HasToken(r, t) by { assert r[i] in r; }
  }

  /** `get_portfolio_positions`. */
  method GetPortfolioPositions(fetch: PositionsFetch) returns (r: PortfolioPositions)
    ensures fetch.FetchRaised? ==> r == BareEmptyDict
    ensures fetch.Fetched? ==> r.PositionsPair? && r.all == fetch.data
    ensures fetch.Fetched? && fetch.data.Some? ==> r.open == OpenPositions(fetch.data.value)
    ensures fetch.Fetched? && fetch.data.None? ==> r.open == []
  {
    match fetch
    case FetchRaised =>
      return BareEmptyDict;
    case Fetched(all) =>
      var open: seq<Position> := [];
      if all.Some? && all.value != [] {
        var ps := all.value;
        var i := 0;
        while i < |ps|
          invariant 0 <= i <= |ps|
          invariant OpenPositionsFrom(open, ps[i..]) == OpenPositionsFrom([], ps)
        {
          assert ps[i..][1..] == ps[i + 1..];
          if ps[i].quantity != 0 && ps[i].product == "I" {
            open := Put(open, ps[i]);
          }
          i := i + 1;
        }
      }
      return PositionsPair(all, open);
  }

  /** The instrument records of `keys`, in key order, skipping keys that do not resolve. */
  function Resolved(keys: seq<string>, lookup: map<string, Instrument>): (r: seq<Instrument>)
    ensures |r| <= |keys|
    ensures forall x :: x in r ==> exists k :: k in keys && k in lookup && lookup[k] == x
    ensures forall k :: k in keys && k in lookup ==> lookup[k] in r
    ensures (forall k :: k in keys ==> k in lookup) ==>
              |r| == |keys| && forall i :: 0 <= i < |keys| ==> r[i] == lookup[keys[i]]
    decreases |keys|
  {
    if keys == [] then []
    else
      var rest := Resolved(keys[1..], lookup);
      assert forall k :: k in keys[1..] ==> k in keys;
      assert forall k :: k in keys ==> k == keys[0] || k in keys[1..];
      if keys[0] in lookup then [lookup[keys[0]]] + rest else rest
  }

  /** A single key resolves to its record, or to nothing when the lookup misses. */
  lemma ResolvedSingle(k: string, lookup: map<string, Instrument>)
    ensures Resolved([k], lookup) == if k in lookup then [lookup[k]] else []
  {
    assert [k][1..] == [];
  }

  /** Resolving a list of keys resolves each part in turn, so records keep key order. */
  lemma {:induction false} ResolvedAppend(a: seq<string>, b: seq<string>, lookup: map<string, Instrument>)
    ensures Resolved(a + b, lookup) == Resolved(a, lookup) + Resolved(b, lookup)
    decreases |a|
  {
    if a == [] {
      assert a + b == b;
    } else {
      assert (a + b)[0] == a[0];
      assert (a + b)[1..] == a[1..] + b;
      ResolvedAppend(a[1..], b, lookup);
    }
  }
}
