/**
 * Choosing what to trade when no position is held: `get_instruments_to_trade`
 * and the filter, sort and select steps of `auto_pick_instrument_to_trade`.
 * The market-context gathering and the oracle's choice among the compared
 * candidates are inputs (`picks`).
 */
module AutoPick {
  import opened Common
  import opened AgentTypes

  // ---------------------------------------------------------------------
  // `key.split(":")[1]`
  // ---------------------------------------------------------------------

  /** The index of the first `c` in `s`, or `|s|` when there is none. */
  function FirstIndexOf(s: string, c: char): (i: nat)
    ensures i <= |s|
    ensures i < |s| ==> s[i] == c
    ensures forall k :: 0 <= k < i ==> s[k] != c
    decreases |s|
  {
    if s == [] then 0
    else if s[0] == c then 0
    else 1 + FirstIndexOf(s[1..], c)
  }

  /** The second ':'-separated field of `key`; `None` where Python's index raises. */
  function SecondField(key: string): (r: Option<string>)
    ensures r.Some? <==> ':' in key
    ensures r.Some? ==> ':' !in r.value
  {
    var i := FirstIndexOf(key, ':');
    if i == |key| then None
    else
      var rest := key[i + 1..];
      Some(rest[..FirstIndexOf(rest, ':')])
  }

  lemma {:induction false} FirstIndexOfPrefix(a: string, c: char, b: string)
    requires c !in a
    ensures FirstIndexOf(a + b, c) == |a| + FirstIndexOf(b, c)
    decreases |a|
  {
    if a == [] {
      assert a + b == b;
    } else {
      assert (a + b)[0] == a[0] && a[0] in a;
      assert (a + b)[1..] == a[1..] + b;
      FirstIndexOfPrefix(a[1..], c, b);
    }
  }

  /** Splitting undoes joining: the second field of `a:b...` is `b`. */
  lemma SecondFieldOfJoined(a: string, b: string, rest: string)
    requires ':' !in a && ':' !in b
    requires rest == [] || rest[0] == ':'
    ensures SecondField(a + ":" + b + rest) == Some(b)
  {
    var key := a + ":" + b + rest;
    assert key == a + (":" + b + rest);
    FirstIndexOfPrefix(a, ':', ":" + b + rest);
    assert FirstIndexOf(":" + b + rest, ':') == 0;
    assert key[|a| + 1..] == b + rest;
    FirstIndexOfPrefix(b, ':', rest);
    if rest != [] {
      assert FirstIndexOf(rest, ':') == 0;
    }
    assert (b + rest)[..|b|] == b;
  }

  // ---------------------------------------------------------------------
  // The affordability filter
  // ---------------------------------------------------------------------

  /** The candidate built from an affordable quote whose key has a second field. */
  function CandidateOf(q: Quote): Option<Candidate> {
    match SecondField(q.key)
    case None => None
    case Some(name) => Some(Candidate(q.instrumentToken, q.lastPrice, name))
  }

  /** `acc + xs`, unless `xs` is an exception. */
  function Extend(acc: seq<Candidate>, o: Outcome<seq<Candidate>>): Outcome<seq<Candidate>> {
    match o
    case Raised(f) => Raised(f)
    case Returned(xs) => Returned(acc + xs)
  }

  lemma ExtendEmpty(o: Outcome<seq<Candidate>>)
    ensures Extend([], o) == o
  {
    if o.Returned? {
      assert [] + o.value == o.value;
    }
  }

  lemma ExtendTwice(acc: seq<Candidate>, c: Candidate, o: Outcome<seq<Candidate>>)
    ensures Extend(acc, Extend([c], o)) == Extend(acc + [c], o)
  {
    if o.Returned? {
      assert acc + ([c] + o.value) == (acc + [c]) + o.value;
    }
  }

  /**
   * The candidates priced within the available margin, in quote order; the
   * first affordable quote whose key has no ':' raises.
   */
  function Affordable(quotes: seq<Quote>, margin: real): (r: Outcome<seq<Candidate>>)
    ensures r.Raised? ==> r.fault == MalformedQuoteKey
    ensures r.Returned? ==> |r.value| <= |quotes|
    decreases |quotes|
  {
    if quotes == [] then Returned([])
    else
      var q := quotes[0];
      if q.lastPrice <= margin then
        match CandidateOf(q)
        case None => Raised(MalformedQuoteKey)
        case Some(c) => Extend([c], Affordable(quotes[1..], margin))
      else Affordable(quotes[1..], margin)
  }

  /**
   * The filter keeps exactly the candidates of the affordable quotes, and
   * raises exactly when an affordable quote's key has no second field.
   */
  lemma {:induction false} AffordableFacts(quotes: seq<Quote>, margin: real)
    ensures var r := Affordable(quotes, margin);
      && (r.Raised? <==> exists q :: q in quotes && q.lastPrice <= margin && ':' !in q.key)
      && (r.Raised? ==> r.fault == MalformedQuoteKey)
      && (r.Returned? ==> forall c :: c in r.value ==> c.lastPrice <= margin)
      && (r.Returned? ==> forall c :: c in r.value <==>
            exists q :: q in quotes && q.lastPrice <= margin && CandidateOf(q) == Some(c))
    decreases |quotes|
  {
    if quotes != [] {
      var q := quotes[0];
      AffordableFacts(quotes[1..], margin);
      assert quotes == [q] + quotes[1..];
      assert forall x :: x in quotes <==> x == q || x in quotes[1..];
    }
  }

  // ---------------------------------------------------------------------
  // `sorted(..., key=last_price, reverse=True)`
  // ---------------------------------------------------------------------

  predicate SortedByPriceDesc(s: seq<Candidate>) {
    forall i, j :: 0 <= i < j < |s| ==> s[j].lastPrice <= s[i].lastPrice
  }

  /** Places `c` ahead of the first element that is not dearer than it. */
  function InsertByPrice(c: Candidate, s: seq<Candidate>): (r: seq<Candidate>)
    requires SortedByPriceDesc(s)
    ensures forall x :: x in r ==> x == c || x in s
    ensures SortedByPriceDesc(r)
    ensures multiset(r) == multiset(s) + multiset{c}
    decreases |s|
  {
    if s == [] || s[0].lastPrice <= c.lastPrice then [c] + s
    else
      var rest := InsertByPrice(c, s[1..]);
      assert s == [s[0]] + s[1..];
      assert forall x :: x in s[1..] ==> x.lastPrice <= s[0].lastPrice;
      assert forall x :: x in rest ==> x.lastPrice <= s[0].lastPrice;
      [s[0]] + rest
  }

  /** The candidates, dearest first; candidates of equal price keep their order. */
  function SortByPriceDesc(s: seq<Candidate>): (r: seq<Candidate>)
    ensures SortedByPriceDesc(r)
    ensures multiset(r) == multiset(s)
    decreases |s|
  {
    if s == [] then []
    else
      assert s == [s[0]] + s[1..];
      InsertByPrice(s[0], SortByPriceDesc(s[1..]))
  }

  // ---------------------------------------------------------------------
  // Selecting the candidates to compare
  // ---------------------------------------------------------------------

  function Min(a: nat, b: nat): nat {
    if a <= b then a else b
  }

  /**
   * `random.sample(pool, k)`: `k` draws without replacement, the `n`-th
   * draw taking the element at `rng(n)` modulo what is left.
   */
  function Sample(pool: seq<Candidate>, k: nat, rng: nat -> nat, drawn: nat): (r: seq<Candidate>)
    requires k <= |pool|
    ensures |r| == k
    ensures multiset(r) <= multiset(pool)
    decreases k
  {
    if k == 0 then []
    else
      var j := rng(drawn) % |pool|;
      var left := pool[..j] + pool[j + 1..];
      assert pool == pool[..j] + [pool[j]] + pool[j + 1..];
      assert multiset(pool) == multiset(left) + multiset{pool[j]};
      [pool[j]] + Sample(left, k - 1, rng, drawn + 1)
  }

  /** The candidates to compare: a random sample, or the first `n` of the ranked list. */
  function Select(ranked: seq<Candidate>, n: nat, randomSelect: bool, rng: nat -> nat): (r: seq<Candidate>)
    ensures |r| == Min(n, |ranked|)
    ensures multiset(r) <= multiset(ranked)
    ensures !randomSelect ==> r == ranked[..Min(n, |ranked|)]
  {
    var k := Min(n, |ranked|);
    if randomSelect then Sample(ranked, k, rng, 0)
    else
      assert ranked == ranked[..k] + ranked[k..];
      ranked[..k]
  }

  /**
   * The affordability filter when the margin read may have failed: the
   * margin is subscripted once per quote, so a `None` margin raises at the
   * first quote and not at all when there is none.
   */
  function FilterByMargin(quotes: seq<Quote>, margin: Option<real>): (r: Outcome<seq<Candidate>>)
    ensures margin.None? ==> (r.Raised? <==> quotes != [])
    ensures margin.None? && r.Returned? ==> r.value == []
    ensures r.Raised? ==> r.fault == (if margin.None? then MarginIsNone else MalformedQuoteKey)
  {
    match margin
    case None => if quotes == [] then Returned([]) else Raised(MarginIsNone)
    case Some(m) => Affordable(quotes, m)
  }

  function StocksToCompareSpec(quotes: seq<Quote>, margin: Option<real>, n: nat, randomSelect: bool, rng: nat -> nat)
    : Outcome<seq<Candidate>>
  {
    match FilterByMargin(quotes, margin)
    case Raised(f) => Raised(f)
    case Returned(affordable) => Returned(Select(SortByPriceDesc(affordable), n, randomSelect, rng))
  }

  /** The affordability loop of auto-pick. */
  method FilterAffordable(quotes: seq<Quote>, margin: Option<real>) returns (r: Outcome<seq<Candidate>>)
    ensures r == FilterByMargin(quotes, margin)
  {
    var affordable: seq<Candidate> := [];
    var i := 0;
    assert quotes[0..] == quotes;
    if margin.Some? {
      ExtendEmpty(Affordable(quotes, margin.value));
    }
    while i < |quotes|
      invariant 0 <= i <= |quotes|
      invariant margin.None? ==> i == 0 && affordable == []
      invariant margin.Some? ==>
        Affordable(quotes, margin.value) == Extend(affordable, Affordable(quotes[i..], margin.value))
    {
      if margin.None? {
        return Raised(MarginIsNone);
      }
      var m := margin.value;
      var q := quotes[i];
      var tail := Affordable(quotes[i + 1..], m);
      assert quotes[i..][0] == q && quotes[i..][1..] == quotes[i + 1..];
      if q.lastPrice <= m {
        var name := SecondField(q.key);
        if name.None? {
          assert Affordable(quotes[i..], m) == Raised(MalformedQuoteKey);
          return Raised(MalformedQuoteKey);
        }
        var c := Candidate(q.instrumentToken, q.lastPrice, name.value);
        assert Affordable(quotes[i..], m) == Extend([c], tail);
        ExtendTwice(affordable, c, tail);
        affordable := affordable + [c];
      } else {
        assert Affordable(quotes[i..], m) == tail;
      }
      i := i + 1;
    }
    assert quotes[i..] == [] && affordable + [] == affordable;
    return Returned(affordable);
  }

  /** The filter, sort and select steps of auto-pick. */
  method StocksToCompare(quotes: seq<Quote>, margin: Option<real>, n: nat, randomSelect: bool, rng: nat -> nat)
    returns (r: Outcome<seq<Candidate>>)
    ensures r == StocksToCompareSpec(quotes, margin, n, randomSelect, rng)
  {
    var affordable := FilterAffordable(quotes, margin);
    if affordable.Raised? {
      return Raised(affordable.fault);
    }
    var ranked := SortByPriceDesc(affordable.value);
    return Returned(Select(ranked, n, randomSelect, rng));
  }

  /** In a list ranked dearest first, nothing left after the first `k` is dearer than them. */
  lemma TopOfRanked(ranked: seq<Candidate>, k: nat)
    requires SortedByPriceDesc(ranked) && k <= |ranked|
    ensures SortedByPriceDesc(ranked[..k])
    ensures forall x, c :: x in multiset(ranked) - multiset(ranked[..k]) && c in ranked[..k]
              ==> x.lastPrice <= c.lastPrice
  {
    assert ranked == ranked[..k] + ranked[k..];
    assert multiset(ranked) == multiset(ranked[..k]) + multiset(ranked[k..]);
    forall x, c | x in multiset(ranked) - multiset(ranked[..k]) && c in ranked[..k]
      ensures x.lastPrice <= c.lastPrice
    {
      assert x in ranked[k..];
      var j :| k <= j < |ranked| && ranked[j] == x;
      var i :| 0 <= i < k && ranked[i] == c;
    }
  }

  /**
   * What auto-pick compares: no more than `n` candidates, all affordable and
   * drawn from the filtered list; when ranked, they are the dearest ones,
   * dearest first.
   */
  lemma CompareSetFacts(quotes: seq<Quote>, margin: real, n: nat, randomSelect: bool, rng: nat -> nat)
    requires Affordable(quotes, margin).Returned?
    ensures
      var affordable := Affordable(quotes, margin).value;
      var compared := StocksToCompareSpec(quotes, Some(margin), n, randomSelect, rng).value;
      && |compared| == Min(n, |affordable|)
      && multiset(compared) <= multiset(affordable)
      && (forall c :: c in compared ==> c.lastPrice <= margin)
      && (!randomSelect ==> SortedByPriceDesc(compared))
      && (!randomSelect ==> forall x, c :: x in multiset(affordable) - multiset(compared) && c in compared
                                        ==> x.lastPrice <= c.lastPrice)
  {
    var affordable := Affordable(quotes, margin).value;
    var ranked := SortByPriceDesc(affordable);
    var compared := Select(ranked, n, randomSelect, rng);
    assert |ranked| == |affordable| by {
      assert |multiset(ranked)| == |multiset(affordable)|;
    }
    forall c | c in compared ensures c.lastPrice <= margin {
      assert c in multiset(compared);
      assert c in affordable by {
        assert c in multiset(affordable);
      }
      AffordableFacts(quotes, margin);
    }
    if !randomSelect {
      TopOfRanked(ranked, Min(n, |ranked|));
    }
  }

  // ---------------------------------------------------------------------
  // `auto_pick_instrument_to_trade` and `get_instruments_to_trade`
  // ---------------------------------------------------------------------

  /** The instrument record built from one pick. */
  function InstrumentOfPick(p: Pick): Instrument {
    Instrument(p.instrumentKey, p.stockName, p.stockName)
  }

  function PicksToInstruments(picks: seq<Pick>): (r: seq<Instrument>)
    ensures |r| == |picks|
    ensures forall i :: 0 <= i < |picks| ==> r[i] == InstrumentOfPick(picks[i])
  {
    seq(|picks|, i requires 0 <= i < |picks| => InstrumentOfPick(picks[i]))
  }

  /** The calls made and the value produced while choosing instruments. */
  datatype Selection = Selection(events: seq<Event>, value: Outcome<InstrumentsValue>)

  function AutoPickSpec(
    cfg: AgentConfig, margin: Option<real>, universe: Option<seq<Quote>>, rng: nat -> nat, picks: Option<seq<Pick>>)
    : (r: Selection)
    ensures |r.events| <= 1
    ensures picks.None? ==> r.value.Raised?
    ensures r.value.Returned? ==> r.value.value.InstrumentList?
    ensures universe.None? ==> r == Selection([], Raised(QuotesAreNone))
    ensures universe.Some? && universe.value != [] && margin.None? ==> r == Selection([], Raised(MarginIsNone))
  {
    if universe.None? then Selection([], Raised(QuotesAreNone))
    else
    match StocksToCompareSpec(universe.value, margin, cfg.selectStockCountToCompare, cfg.randomSelectStocks, rng)
    case Raised(f) => Selection([], Raised(f))
    case Returned(compared) =>
      var events := [CompareCandidates(compared)];
      if picks.None? then Selection(events, Raised(PicksNotIterable))
      else Selection(events, Returned(InstrumentList(PicksToInstruments(picks.value))))
  }

  /** On the fixed-stock path the single record itself is returned, not a list. */
  function InstrumentsToTradeSpec(
    cfg: AgentConfig, margin: Option<real>, universe: Option<seq<Quote>>, rng: nat -> nat,
    picks: Option<seq<Pick>>, fixedStock: Option<Instrument>): Selection
  {
    if cfg.autoPickStock then AutoPickSpec(cfg, margin, universe, rng, picks)
    else Selection([], Returned(InstrumentRecord(fixedStock)))
  }

  /** `auto_pick_instrument_to_trade`. */
  method AutoPickInstrumentToTrade(
    cfg: AgentConfig, margin: Option<real>, universe: Option<seq<Quote>>, rng: nat -> nat, picks: Option<seq<Pick>>)
    returns (s: Selection)
    ensures s == AutoPickSpec(cfg, margin, universe, rng, picks)
  {
    if universe.None? {
      return Selection([], Raised(QuotesAreNone));
    }
    var compared := StocksToCompare(universe.value, margin, cfg.selectStockCountToCompare, cfg.randomSelectStocks, rng);
    if compared.Raised? {
      return Selection([], Raised(compared.fault));
    }
    var events := [CompareCandidates(compared.value)];
    if picks.None? {
      return Selection(events, Raised(PicksNotIterable));
    }
    var ps := picks.value;
    var instruments: seq<Instrument> := [];
    var i := 0;
    while i < |ps|
      invariant 0 <= i <= |ps|
      invariant |instruments| == i
      invariant forall k :: 0 <= k < i ==> instruments[k] == InstrumentOfPick(ps[k])
    {
      instruments := instruments + [Instrument(ps[i].instrumentKey, ps[i].stockName, ps[i].stockName)];
      i := i + 1;
    }
    assert instruments == PicksToInstruments(ps);
    return Selection(events, Returned(InstrumentList(instruments)));
  }

  /** `get_instruments_to_trade`. */
  method GetInstrumentsToTrade(
    cfg: AgentConfig, margin: Option<real>, universe: Option<seq<Quote>>, rng: nat -> nat,
    picks: Option<seq<Pick>>, fixedStock: Option<Instrument>)
    returns (s: Selection)
    ensures s == InstrumentsToTradeSpec(cfg, margin, universe, rng, picks, fixedStock)
  {
    if cfg.autoPickStock {
      s := AutoPickInstrumentToTrade(cfg, margin, universe, rng, picks);
    } else {
      s := Selection([], Returned(InstrumentRecord(fixedStock)));
    }
  }
}
