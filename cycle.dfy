/**
 * One run of `make_decision`, stated as a function of its inputs: the
 * clock, and per client what the broker, the instrument tables and the
 * decision oracle answer. Its result is the sequence of collaborator calls
 * (events), the risk state afterwards and the exception, if any, that
 * escaped the cycle. The class `Agent.TradingAgent` is proved to follow it.
 */
module DecisionCycle {
  import opened Common
  import opened AgentTypes
  import opened RiskManagement
  import opened Formatting
  import opened Positions
  import opened AutoPick
  import opened Orders

  /** What the collaborators answer while one instrument is processed. */
  datatype InstrumentRound = InstrumentRound(
    availableMargin: real,                   // the margin re-read for this instrument
    positions: PositionsFetch,               // the positions re-read for this instrument
    previousDecisions: seq<PreviousDecision>,  // today's stored decisions for it
    reply: OracleReply)                      // the oracle's answer

  /** What the collaborators answer while one broker client is processed. */
  datatype ClientInputs = ClientInputs(
    availableMargin: Option<real>,         // the margin read at the start of the client's turn (None: no data)
    positions: PositionsFetch,             // the positions read at the start of the client's turn
    lookup: map<string, Instrument>,       // instrument key -> record, where one exists
    universe: Option<seq<Quote>>,          // last prices of the auto-pick universe (None: no data)
    rng: nat -> nat,                       // the random draws of `random.sample`
    picks: Option<seq<Pick>>,              // the oracle's choice among the compared stocks
    fixedStock: Option<Instrument>,        // the configured stock's record (None: not found)
    rounds: nat -> InstrumentRound)        // the answers for the j-th instrument

  /** Events so far, the risk state, and the exception that stopped the cycle. */
  datatype Progress = Progress(events: seq<Event>, risk: RiskState, fault: Option<Fault>)

  /** `q` carried on after `p`. */
  function Then(p: Progress, q: Progress): Progress {
    Progress(p.events + q.events, q.risk, q.fault)
  }

  /** The oracle entry point chosen by whether the client held positions. */
  function Request(client: nat, present: bool, key: string, remaining: nat, history: string): Event {
    if present then RequestManagePosition(client, key, remaining, history)
    else RequestNewEntry(client, key, remaining, history)
  }

  /**
   * What follows saving the oracle's answer: read the decision, validate a
   * non-empty one and, when approved with a truthy current price, trade.
   * The check for a decision without an action only logs, so such a
   * decision still reaches the risk gate.
   */
  function Act(lim: Limits, client: nat, reply: OracleReply, risk: RiskState): (r: Progress)
    ensures r.risk.dailyPnl == risk.dailyPnl && r.risk.halted == risk.halted
  {
    match reply
    case NoReply => Progress([], risk, Some(ReplyIsNone))
    case Reply(NullResponse) => Progress([], risk, Some(ResponseIsNone))
    case Reply(DecisionDict(d)) =>
      if d.IsEmpty() then Progress([], risk, None)
      else
        var v := Validate(lim, risk, d);
        if !v.verdict.Approved() || !Truthy(d.currentPrice) then Progress([], v.state, None)
        else
          match ExecuteTrade(d, d.currentPrice.value, d.quantity.GetOr(0))
          case Raised(f) => Progress([], v.state, Some(f))
          case Returned(None) => Progress([], v.state, None)
          case Returned(Some(o)) => Progress([PlaceOrder(client, o)], v.state, None)
  }

  /**
   * Acting on an answer places at most one order, for this client, and only
   * the BUY or SELL the saved decision asks for; it does so exactly when the
   * decision is non-empty, approved by the risk gate, carries a truthy price,
   * the keys `execute_trade` subscripts and a BUY or SELL action. The risk
   * state changes only by counting that trade.
   */
  lemma ActFacts(lim: Limits, client: nat, reply: OracleReply, risk: RiskState)
    ensures var r := Act(lim, client, reply, risk);
      && |r.events| <= 1
      && (r.events != [] ==>
            r.events[0].PlaceOrder? && r.events[0].client == client
            && CarriesDecision(SaveDecision(reply))
            && OrderOfDecision(r.events[0].order, reply.response.decision))
      && (r.events != [] <==>
            && reply.Reply? && reply.response.DecisionDict?
            && var d := reply.response.decision;
               && !d.IsEmpty()
               && Assess(lim, risk, d).Approved()
               && Truthy(d.currentPrice)
               && d.instrumentKey.Some? && d.orderType.Some?
               && (d.action == Some("BUY") || d.action == Some("SELL")))
      && RiskStep(lim, risk, r.risk, r.events)
  {
    var r := Act(lim, client, reply, risk);
    if r.events != [] {
      var o := r.events[0].order;
      assert r.events == [PlaceOrder(client, o)];
      assert CountBuyOrders(r.events) == (if o.side == "BUY" then 1 else 0);
    }
  }

  /**
   * One instrument: re-read the positions, ask the oracle, save its answer,
   * then act on it. The check for an empty market quote only logs, so the
   * quote is not an input here.
   */
  function Round(lim: Limits, client: nat, present: bool, inst: Instrument, remaining: nat,
                 r: InstrumentRound, risk: RiskState): (q: Progress)
    ensures q.risk.dailyPnl == risk.dailyPnl && q.risk.halted == risk.halted
  {
    if r.positions.FetchRaised? then Progress([], risk, Some(PositionsNotUnpackable))
    else
      var history := FormatPreviousDecision(r.previousDecisions);
      var a := Act(lim, client, r.reply, risk);
      Progress([Request(client, present, inst.instrumentKey, remaining, history), SaveDecision(r.reply)] + a.events,
               a.risk, a.fault)
  }

  /** The instruments from the `j`-th on, after `p`; an exception ends the loop. */
  function InstrumentLoop(lim: Limits, client: nat, present: bool, insts: seq<Instrument>, j: nat,
                          rounds: nat -> InstrumentRound, p: Progress): (q: Progress)
    requires j <= |insts|
    ensures q.risk.dailyPnl == p.risk.dailyPnl && q.risk.halted == p.risk.halted
    decreases |insts| - j
  {
    if j == |insts| || p.fault.Some? then p
    else
      var q := Round(lim, client, present, insts[j], |insts| - j, rounds(j), p.risk);
      InstrumentLoop(lim, client, present, insts, j + 1, rounds, Then(p, q))
  }

  /** The open positions a client's turn starts from. */
  function OpenAtStart(data: Option<seq<Position>>): seq<Position> {
    if data.Some? then OpenPositions(data.value) else []
  }

  /**
   * What a client's turn sets out to do before its first round: the calls
   * made while choosing the instruments, whether the client held positions,
   * the instruments chosen, and the exception raised while choosing. None of
   * it depends on the risk state, so the plans of all clients can be read
   * off the inputs ahead of the cycle.
   */
  datatype Plan = Plan(events: seq<Event>, present: bool, insts: seq<Instrument>, fault: Option<Fault>)

  /**
   * Choosing a client's instruments: its held instruments when it has open
   * positions, otherwise what `get_instruments_to_trade` returns. Iterating
   * a record visits its keys: none for the empty record, and for any other
   * the first key string cannot be subscripted.
   */
  function ClientPlan(cfg: AgentConfig, inp: ClientInputs): (r: Plan)
    ensures r.present ==> r.events == [] && r.fault.None?
  {
    match inp.positions
    case FetchRaised => Plan([], false, [], Some(PositionsNotUnpackable))
    case Fetched(data) =>
      var open := OpenAtStart(data);
      if open != [] then Plan([], true, Resolved(Tokens(open), inp.lookup), None)
      else
        var sel := InstrumentsToTradeSpec(cfg, inp.availableMargin, inp.universe, inp.rng, inp.picks, inp.fixedStock);
        match sel.value
        case Raised(f) => Plan(sel.events, false, [], Some(f))
        case Returned(InstrumentList(insts)) => Plan(sel.events, false, insts, None)
        case Returned(InstrumentRecord(None)) => Plan(sel.events, false, [], None)
        case Returned(InstrumentRecord(Some(_))) => Plan(sel.events, false, [], Some(RecordKeysIterated))
  }

  /** The plan of each client, in client order. */
  function Plans(cfg: AgentConfig, inputs: seq<ClientInputs>): (r: seq<Plan>)
    ensures |r| == |inputs|
    decreases |inputs|
  {
    if inputs == [] then [] else Plans(cfg, inputs[..|inputs| - 1]) + [ClientPlan(cfg, inputs[|inputs| - 1])]
  }

  lemma {:induction false} PlanAt(cfg: AgentConfig, inputs: seq<ClientInputs>, k: nat)
    requires k < |inputs|
    ensures Plans(cfg, inputs)[k] == ClientPlan(cfg, inputs[k])
    decreases |inputs|
  {
    if k < |inputs| - 1 {
      PlanAt(cfg, inputs[..|inputs| - 1], k);
    }
  }

  /** One client's turn: carry out its plan, processing each chosen instrument. */
  function ClientTurn(lim: Limits, client: nat, plan: Plan, rounds: nat -> InstrumentRound, risk: RiskState): (r: Progress)
    ensures r.risk.dailyPnl == risk.dailyPnl && r.risk.halted == risk.halted
  {
    if plan.fault.Some? then Progress(plan.events, risk, plan.fault)
    else Then(Progress(plan.events, risk, None),
              InstrumentLoop(lim, client, plan.present, plan.insts, 0, rounds, Progress([], risk, None)))
  }

  /** The clients from the `i`-th on, after `p`; an exception ends the loop. */
  function ClientsLoop(lim: Limits, plans: seq<Plan>, inputs: seq<ClientInputs>, i: nat, p: Progress): (q: Progress)
    requires |plans| == |inputs| && i <= |inputs|
    ensures q.risk.dailyPnl == p.risk.dailyPnl && q.risk.halted == p.risk.halted
    decreases |inputs| - i
  {
    if i == |inputs| || p.fault.Some? then p
    else ClientsLoop(lim, plans, inputs, i + 1, Then(p, ClientTurn(lim, i, plans[i], inputs[i].rounds, p.risk)))
  }

  /** One more client's turn, or the end of the loop. */
  lemma ClientsLoopStep(lim: Limits, plans: seq<Plan>, inputs: seq<ClientInputs>, i: nat, p: Progress)
    requires |plans| == |inputs| && i <= |inputs|
    ensures i == |inputs| || p.fault.Some? ==> ClientsLoop(lim, plans, inputs, i, p) == p
    ensures i < |inputs| && p.fault.None? ==>
      ClientsLoop(lim, plans, inputs, i, p) ==
        ClientsLoop(lim, plans, inputs, i + 1, Then(p, ClientTurn(lim, i, plans[i], inputs[i].rounds, p.risk)))
  {
  }

  /** The `exit_all_positions` call of each client, in order. */
  function ExitAllEvents(n: nat): (r: seq<Event>)
    ensures |r| == n
    ensures forall i :: 0 <= i < n ==> r[i] == ExitAll(i)
  {
    if n == 0 then [] else ExitAllEvents(n - 1) + [ExitAll(n - 1)]
  }

  /** The agent's state between cycles. */
  datatype AgentState = AgentState(timerPending: bool, eodSquaringOff: bool, exited: bool, risk: RiskState)

  datatype CycleResult = CycleResult(events: seq<Event>, state: AgentState, fault: Option<Fault>)

  /**
   * `make_decision` at time `now`. The timer that triggered the cycle has
   * fired, so none is pending on entry; a new one is started only at the end
   * of a cycle that raised nothing. At or after the close the agent squares
   * off once and then does nothing.
   */
  function Cycle(cfg: AgentConfig, lim: Limits, s: AgentState, now: nat, inputs: seq<ClientInputs>): (r: CycleResult)
    ensures r.state.risk.dailyPnl == s.risk.dailyPnl && r.state.risk.halted == s.risk.halted
  {
    if now >= cfg.marketCloseTime then
      if s.eodSquaringOff then CycleResult([], s.(timerPending := false), None)
      else CycleResult(ExitAllEvents(|inputs|), s.(timerPending := false, eodSquaringOff := true, exited := true), None)
    else
      var p := ClientsLoop(lim, Plans(cfg, inputs), inputs, 0, Progress([], s.risk, None));
      CycleResult(p.events, s.(timerPending := p.fault.None? && !s.eodSquaringOff, risk := p.risk), p.fault)
  }

  /** A clock reading and the collaborators' answers for one cycle. */
  datatype Tick = Tick(now: nat, inputs: seq<ClientInputs>)

  /**
   * A trading day: the first cycle is started directly, each later one only
   * by the timer the previous cycle left pending.
   */
  function Run(cfg: AgentConfig, lim: Limits, s: AgentState, ticks: seq<Tick>): (r: CycleResult)
    ensures r.state.risk.dailyPnl == s.risk.dailyPnl && r.state.risk.halted == s.risk.halted
    decreases |ticks|
  {
    if ticks == [] then CycleResult([], s, None)
    else
      var c := Cycle(cfg, lim, s, ticks[0].now, ticks[0].inputs);
      if !c.state.timerPending then c
      else
        var rest := Run(cfg, lim, c.state, ticks[1..]);
        CycleResult(c.events + rest.events, rest.state, rest.fault)
  }

  // ---------------------------------------------------------------------
  // Properties of event traces
  // ---------------------------------------------------------------------

  /** The decision an oracle answer carries, if it carries one. */
  predicate CarriesDecision(e: Event) {
    e.SaveDecision? && e.reply.Reply? && e.reply.response.DecisionDict?
  }

  /** Order `o` is what `execute_trade` sends for decision `d`. */
  predicate OrderOfDecision(o: Order, d: Decision) {
    && IsIntradayDayOrder(o)
    && (o.side == "BUY" || o.side == "SELL")
    && Some(o.side) == d.action
    && Some(o.instrumentKey) == d.instrumentKey
    && Some(o.orderType) == d.orderType
    && o.price != 0.0 && Some(o.price) == d.currentPrice
    && o.quantity == d.quantity.GetOr(0)
    && o.stopLoss == OrZero(d.stopLoss) && o.takeProfit == OrZero(d.takeProfit)
  }

  /**
   * Every order is placed right after the oracle answer it comes from was
   * saved, and is that answer's BUY or SELL, intraday, for the day, priced.
   */
  predicate OrdersFollowSavedDecisions(es: seq<Event>) {
    forall k :: 0 <= k < |es| && es[k].PlaceOrder? ==>
      k > 0 && CarriesDecision(es[k - 1]) && OrderOfDecision(es[k].order, es[k - 1].reply.response.decision)
  }

  function CountBuyOrders(es: seq<Event>): nat
    decreases |es|
  {
    if es == [] then 0
    else (if es[0].PlaceOrder? && es[0].order.side == "BUY" then 1 else 0) + CountBuyOrders(es[1..])
  }

  /** The instrument keys the oracle was asked about, in order. */
  function RequestedKeys(es: seq<Event>): seq<string>
    decreases |es|
  {
    if es == [] then []
    else if es[0].RequestNewEntry? || es[0].RequestManagePosition? then [es[0].instrumentKey] + RequestedKeys(es[1..])
    else RequestedKeys(es[1..])
  }

  /** The counts of instruments still to process that the oracle was told, in order. */
  function RequestedRemaining(es: seq<Event>): seq<nat>
    decreases |es|
  {
    if es == [] then []
    else if es[0].RequestNewEntry? || es[0].RequestManagePosition? then [es[0].remaining] + RequestedRemaining(es[1..])
    else RequestedRemaining(es[1..])
  }

  /** `n, n - 1, ..., 1`. */
  function CountDown(n: nat): (r: seq<nat>)
    ensures |r| == n
    ensures forall i :: 0 <= i < n ==> r[i] == n - i
  {
    if n == 0 then [] else [n] + CountDown(n - 1)
  }

  /** Every oracle request is to the entry point `present` selects. */
  predicate RequestsAre(es: seq<Event>, present: bool) {
    forall k :: 0 <= k < |es| ==> (es[k].RequestNewEntry? ==> !present) && (es[k].RequestManagePosition? ==> present)
  }

  lemma RequestsAreAppend(a: seq<Event>, b: seq<Event>, present: bool)
    requires RequestsAre(a, present) && RequestsAre(b, present)
    ensures RequestsAre(a + b, present)
  {
    forall k | |a| <= k < |a + b| ensures (a + b)[k] == b[k - |a|] { }
  }

  /** No comparison of auto-pick candidates. */
  predicate NoCompare(es: seq<Event>) {
    forall k :: 0 <= k < |es| ==> !es[k].CompareCandidates?
  }

  lemma NoCompareAppend(a: seq<Event>, b: seq<Event>)
    requires NoCompare(a) && NoCompare(b)
    ensures NoCompare(a + b)
  {
    forall k | |a| <= k < |a + b| ensures (a + b)[k] == b[k - |a|] { }
  }

  /** No `exit_all_positions` call. */
  predicate NoExit(es: seq<Event>) {
    forall k :: 0 <= k < |es| ==> !es[k].ExitAll?
  }

  lemma NoExitAppend(a: seq<Event>, b: seq<Event>)
    requires NoExit(a) && NoExit(b)
    ensures NoExit(a + b)
  {
    forall k | |a| <= k < |a + b| ensures (a + b)[k] == b[k - |a|] { }
  }

  /**
   * The risk state moved from `s0` to `s1` only through validations that
   * emitted `es`: P&L and the halt flag are untouched, every BUY order was
   * counted, and a count within the cap stays within it.
   */
  predicate RiskStep(lim: Limits, s0: RiskState, s1: RiskState, es: seq<Event>) {
    && s1.dailyPnl == s0.dailyPnl
    && s1.halted == s0.halted
    && s0.tradesToday + CountBuyOrders(es) <= s1.tradesToday
    && (s0.tradesToday <= lim.maxTradesPerDay ==> s1.tradesToday <= lim.maxTradesPerDay)
  }

  /** The facts every stretch of a cycle keeps. */
  predicate Sound(lim: Limits, s0: RiskState, p: Progress) {
    OrdersFollowSavedDecisions(p.events) && NoExit(p.events) && RiskStep(lim, s0, p.risk, p.events)
  }

  lemma {:induction false} CountBuyOrdersAppend(a: seq<Event>, b: seq<Event>)
    ensures CountBuyOrders(a + b) == CountBuyOrders(a) + CountBuyOrders(b)
    decreases |a|
  {
    if a == [] {
      assert a + b == b;
    } else {
      assert (a + b)[1..] == a[1..] + b;
      CountBuyOrdersAppend(a[1..], b);
    }
  }

  lemma {:induction false} RequestedKeysAppend(a: seq<Event>, b: seq<Event>)
    ensures RequestedKeys(a + b) == RequestedKeys(a) + RequestedKeys(b)
    decreases |a|
  {
    if a == [] {
      assert a + b == b;
    } else {
      assert (a + b)[1..] == a[1..] + b;
      RequestedKeysAppend(a[1..], b);
    }
  }

  lemma {:induction false} RequestedRemainingAppend(a: seq<Event>, b: seq<Event>)
    ensures RequestedRemaining(a + b) == RequestedRemaining(a) + RequestedRemaining(b)
    decreases |a|
  {
    if a == [] {
      assert a + b == b;
    } else {
      assert (a + b)[1..] == a[1..] + b;
      RequestedRemainingAppend(a[1..], b);
    }
  }

  /** Joining two traces: the second may not open with an order. */
  lemma OrdersAppend(a: seq<Event>, b: seq<Event>)
    requires OrdersFollowSavedDecisions(a) && OrdersFollowSavedDecisions(b)
    requires b != [] ==> !b[0].PlaceOrder?
    ensures OrdersFollowSavedDecisions(a + b)
  {
    var es := a + b;
    forall k | 0 <= k < |es| && es[k].PlaceOrder?
      ensures k > 0 && CarriesDecision(es[k - 1]) && OrderOfDecision(es[k].order, es[k - 1].reply.response.decision)
    {
      if k >= |a| {
        assert es[k] == b[k - |a|];
        if k > |a| {
          assert es[k - 1] == b[k - 1 - |a|];
        }
      } else {
        assert es[k] == a[k];
        assert es[k - 1] == a[k - 1];
      }
    }
  }

  /** Joining two stretches of a cycle. */
  lemma SoundThen(lim: Limits, s0: RiskState, p: Progress, q: Progress)
    requires Sound(lim, s0, p) && Sound(lim, p.risk, q)
    requires q.events != [] ==> !q.events[0].PlaceOrder?
    ensures Sound(lim, s0, Then(p, q))
  {
    CountBuyOrdersAppend(p.events, q.events);
    OrdersAppend(p.events, q.events);
    NoExitAppend(p.events, q.events);
  }

  // ---------------------------------------------------------------------
  // One instrument
  // ---------------------------------------------------------------------

  /** A round opens with its oracle request, or emits nothing. */
  lemma RoundShape(lim: Limits, client: nat, present: bool, inst: Instrument, remaining: nat,
                   r: InstrumentRound, risk: RiskState)
    ensures var q := Round(lim, client, present, inst, remaining, r, risk);
      && (q.events == [] <==> r.positions.FetchRaised?)
      && (q.events != [] ==> q.events[0] == Request(client, present, inst.instrumentKey, remaining,
                                                    FormatPreviousDecision(r.previousDecisions)))
      && (q.events != [] ==> q.events[1] == SaveDecision(r.reply))
      && RequestedKeys(q.events) == (if q.events == [] then [] else [inst.instrumentKey])
      && RequestsAre(q.events, present)
      && NoCompare(q.events)
  {
    var q := Round(lim, client, present, inst, remaining, r, risk);
    ActFacts(lim, client, r.reply, risk);
    if q.events != [] {
      var a := Act(lim, client, r.reply, risk);
      RequestSaveActEvents(client, present, inst.instrumentKey, remaining,
                           FormatPreviousDecision(r.previousDecisions), r.reply, a.events);
    }
  }

  /** The trace of a round that got past reading the positions. */
  lemma RequestSaveActEvents(client: nat, present: bool, key: string, remaining: nat, history: string,
                             reply: OracleReply, t: seq<Event>)
    requires |t| <= 1
    requires t != [] ==> && t[0].PlaceOrder? && CarriesDecision(SaveDecision(reply))
                         && OrderOfDecision(t[0].order, reply.response.decision)
    ensures var es := [Request(client, present, key, remaining, history), SaveDecision(reply)] + t;
      && RequestedKeys(es) == [key]
      && RequestedRemaining(es) == [remaining]
      && RequestsAre(es, present)
      && NoCompare(es)
      && NoExit(es)
      && OrdersFollowSavedDecisions(es)
      && CountBuyOrders(es) == CountBuyOrders(t)
      && ((exists e :: e in es && e.PlaceOrder?) <==> t != [])
  {
    var es := [Request(client, present, key, remaining, history), SaveDecision(reply)] + t;
    assert es[1..][1..] == t;
    assert RequestedKeys(t) == [] && RequestedRemaining(t) == [] by {
      if t != [] {
        assert t[1..] == [];
      }
    }
    if t != [] {
      assert es[2] in es;
    }
  }

  /** A round keeps the trace and risk facts. */
  lemma RoundSound(lim: Limits, client: nat, present: bool, inst: Instrument, remaining: nat,
                   r: InstrumentRound, risk: RiskState)
    ensures Sound(lim, risk, Round(lim, client, present, inst, remaining, r, risk))
  {
    var q := Round(lim, client, present, inst, remaining, r, risk);
    ActFacts(lim, client, r.reply, risk);
    if q.events != [] {
      var a := Act(lim, client, r.reply, risk);
      RequestSaveActEvents(client, present, inst.instrumentKey, remaining,
                           FormatPreviousDecision(r.previousDecisions), r.reply, a.events);
    }
  }

  /**
   * An order is placed for an instrument exactly when the oracle returned a
   * non-empty decision that the risk gate approves, with a truthy current
   * price, the keys `execute_trade` subscripts, and a BUY or SELL action.
   */
  lemma RoundOrderConditions(lim: Limits, client: nat, present: bool, inst: Instrument, remaining: nat,
                             r: InstrumentRound, risk: RiskState)
    ensures var q := Round(lim, client, present, inst, remaining, r, risk);
      (exists e :: e in q.events && e.PlaceOrder?) <==>
        && r.positions.Fetched? && r.reply.Reply? && r.reply.response.DecisionDict?
        && var d := r.reply.response.decision;
           && !d.IsEmpty()
           && Assess(lim, risk, d).Approved()
           && Truthy(d.currentPrice)
           && d.instrumentKey.Some? && d.orderType.Some?
           && (d.action == Some("BUY") || d.action == Some("SELL"))
  {
    var q := Round(lim, client, present, inst, remaining, r, risk);
    ActFacts(lim, client, r.reply, risk);
    if q.events != [] {
      var a := Act(lim, client, r.reply, risk);
      RequestSaveActEvents(client, present, inst.instrumentKey, remaining,
                           FormatPreviousDecision(r.previousDecisions), r.reply, a.events);
    }
  }

  /**
   * A non-empty decision without an action goes down the BUY path of the
   * risk gate: when the gate's checks pass it uses up one of the day's
   * trades, and with a price `execute_trade` then raises on a missing key.
   */
  lemma ActionlessDecisionConsumesTrade(lim: Limits, client: nat, present: bool, inst: Instrument,
                                        remaining: nat, r: InstrumentRound, risk: RiskState, d: Decision)
    requires r.positions.Fetched? && r.reply == Reply(DecisionDict(d))
    requires !d.IsEmpty() && d.action.None?
    requires !risk.halted && risk.tradesToday < lim.maxTradesPerDay && lim.minConfidence <= ConfidenceOf(d)
    ensures var q := Round(lim, client, present, inst, remaining, r, risk);
      && q.risk.tradesToday == risk.tradesToday + 1
      && (Truthy(d.currentPrice) ==> q.fault.Some? && q.fault.value.DecisionKeyMissing?)
      && (forall e :: e in q.events ==> !e.PlaceOrder?)
  {
  }

  /**
   * A reply holding none of the nine decision keys, only the oracle client's
   * `cost_info`, is not `{}`: with a minimum confidence of 0 or less it takes
   * the BUY path with confidence 0 and uses up one of the day's trades.
   */
  lemma CostInfoOnlyDecisionConsumesTrade(lim: Limits, client: nat, present: bool, inst: Instrument,
                                          remaining: nat, r: InstrumentRound, risk: RiskState)
    requires r.positions.Fetched?
    requires r.reply == Reply(DecisionDict(Decision(None, None, None, None, None, None, None, None, None, true)))
    requires !risk.halted && risk.tradesToday < lim.maxTradesPerDay && lim.minConfidence <= 0.0
    ensures var q := Round(lim, client, present, inst, remaining, r, risk);
      && q.risk.tradesToday == risk.tradesToday + 1
      && q.fault.None?
      && (forall e :: e in q.events ==> !e.PlaceOrder?)
  {
    ActionlessDecisionConsumesTrade(lim, client, present, inst, remaining, r, risk, r.reply.response.decision);
  }

  // ---------------------------------------------------------------------
  // The loops
  // ---------------------------------------------------------------------

  lemma {:induction false} InstrumentLoopSound(lim: Limits, client: nat, present: bool, insts: seq<Instrument>,
                                               j: nat, rounds: nat -> InstrumentRound, s0: RiskState, p: Progress)
    requires j <= |insts|
    requires Sound(lim, s0, p)
    ensures Sound(lim, s0, InstrumentLoop(lim, client, present, insts, j, rounds, p))
    decreases |insts| - j
  {
    if j < |insts| && p.fault.None? {
      var r := Round(lim, client, present, insts[j], |insts| - j, rounds(j), p.risk);
      RoundAfterSound(lim, client, present, insts[j], |insts| - j, rounds(j), s0, p);
      InstrumentLoopSound(lim, client, present, insts, j + 1, rounds, s0, Then(p, r));
    }
  }

  /** A round carried on after a sound stretch keeps it sound. */
  lemma RoundAfterSound(lim: Limits, client: nat, present: bool, inst: Instrument, remaining: nat,
                        r: InstrumentRound, s0: RiskState, p: Progress)
    requires Sound(lim, s0, p)
    ensures Sound(lim, s0, Then(p, Round(lim, client, present, inst, remaining, r, p.risk)))
  {
    RoundSound(lim, client, present, inst, remaining, r, p.risk);
    RoundShape(lim, client, present, inst, remaining, r, p.risk);
    SoundThen(lim, s0, p, Round(lim, client, present, inst, remaining, r, p.risk));
  }

  lemma {:induction false} InstrumentLoopRequests(lim: Limits, client: nat, present: bool, insts: seq<Instrument>,
                                                  j: nat, rounds: nat -> InstrumentRound, p: Progress)
    requires j <= |insts|
    requires RequestsAre(p.events, present)
    ensures RequestsAre(InstrumentLoop(lim, client, present, insts, j, rounds, p).events, present)
    decreases |insts| - j
  {
    if j < |insts| && p.fault.None? {
      var r := Round(lim, client, present, insts[j], |insts| - j, rounds(j), p.risk);
      RoundShape(lim, client, present, insts[j], |insts| - j, rounds(j), p.risk);
      RequestsAreAppend(p.events, r.events, present);
      InstrumentLoopRequests(lim, client, present, insts, j + 1, rounds, Then(p, r));
    }
  }

  /** A loop that raised nothing asked the oracle about each instrument, in order. */
  lemma {:induction false} InstrumentLoopKeys(lim: Limits, client: nat, present: bool, insts: seq<Instrument>,
                                              j: nat, rounds: nat -> InstrumentRound, p: Progress)
    requires j <= |insts|
    ensures var q := InstrumentLoop(lim, client, present, insts, j, rounds, p);
      p.fault.None? && q.fault.None? ==> RequestedKeys(q.events) == RequestedKeys(p.events) + KeysOf(insts[j..])
    decreases |insts| - j
  {
    if j < |insts| && p.fault.None? {
      var r := Round(lim, client, present, insts[j], |insts| - j, rounds(j), p.risk);
      RoundAfterKeys(lim, client, present, insts, j, rounds(j), p);
      InstrumentLoopKeys(lim, client, present, insts, j + 1, rounds, Then(p, r));
    } else if j == |insts| {
      assert insts[j..] == [];
    }
  }

  /** A round that raised nothing asked about its instrument, after the keys asked before it. */
  lemma RoundAfterKeys(lim: Limits, client: nat, present: bool, insts: seq<Instrument>, j: nat,
                       r: InstrumentRound, p: Progress)
    requires j < |insts|
    ensures var q := Then(p, Round(lim, client, present, insts[j], |insts| - j, r, p.risk));
      q.fault.None? ==>
        RequestedKeys(q.events) + KeysOf(insts[j + 1..]) == RequestedKeys(p.events) + KeysOf(insts[j..])
  {
    var q := Round(lim, client, present, insts[j], |insts| - j, r, p.risk);
    RoundShape(lim, client, present, insts[j], |insts| - j, r, p.risk);
    if q.fault.None? {
      KeysOfFrom(insts, j);
      RequestedKeysStep(p.events, q.events, insts[j].instrumentKey, KeysOf(insts[j + 1..]));
    }
  }

  lemma KeysOfFrom(insts: seq<Instrument>, j: nat)
    requires j < |insts|
    ensures KeysOf(insts[j..]) == [insts[j].instrumentKey] + KeysOf(insts[j + 1..])
  {
    assert insts[j..][1..] == insts[j + 1..];
  }

  lemma RequestedKeysStep(a: seq<Event>, b: seq<Event>, key: string, rest: seq<string>)
    requires RequestedKeys(b) == [key]
    ensures RequestedKeys(a + b) + rest == RequestedKeys(a) + ([key] + rest)
  {
    RequestedKeysAppend(a, b);
    AppendAssoc(RequestedKeys(a), [key], rest);
  }

  /** The instrument keys of a list of records. */
  function KeysOf(insts: seq<Instrument>): (r: seq<string>)
    ensures |r| == |insts|
    ensures forall i :: 0 <= i < |insts| ==> r[i] == insts[i].instrumentKey
    decreases |insts|
  {
    if insts == [] then [] else [insts[0].instrumentKey] + KeysOf(insts[1..])
  }

  /** A plan at most compares candidates: no order, no exit, no request; a client with positions compares nothing. */
  predicate PlanShape(plan: Plan) {
    && |plan.events| <= 1
    && (forall k :: 0 <= k < |plan.events| ==> plan.events[k].CompareCandidates?)
    && (plan.present ==> plan.events == [])
  }

  /** Choosing the instruments at most compares candidates. */
  lemma ClientPlanShape(cfg: AgentConfig, inp: ClientInputs)
    ensures PlanShape(ClientPlan(cfg, inp))
  {
    if inp.positions.Fetched? && OpenAtStart(inp.positions.data) == [] {
      var sel := InstrumentsToTradeSpec(cfg, inp.availableMargin, inp.universe, inp.rng, inp.picks, inp.fixedStock);
      assert sel.events == [] || (|sel.events| == 1 && sel.events[0].CompareCandidates?);
    }
  }

  lemma PlansShape(cfg: AgentConfig, inputs: seq<ClientInputs>, k: nat)
    requires k < |inputs|
    ensures PlanShape(Plans(cfg, inputs)[k])
  {
    PlanAt(cfg, inputs, k);
    ClientPlanShape(cfg, inputs[k]);
  }

  /**
   * The client's instruments as chosen at the start of its turn: the held
   * ones whose keys resolve, in key order, when it has open positions;
   * otherwise the list `get_instruments_to_trade` returned, if it returned one.
   */
  lemma ClientPlanChoice(cfg: AgentConfig, inp: ClientInputs)
    requires inp.positions.Fetched?
    ensures var plan := ClientPlan(cfg, inp);
      var open := OpenAtStart(inp.positions.data);
      && plan.present == (open != [])
      && (open != [] ==> plan.fault.None? && plan.insts == Resolved(Tokens(open), inp.lookup))
      && (open == [] && plan.fault.None? ==>
            var sel := InstrumentsToTradeSpec(cfg, inp.availableMargin, inp.universe, inp.rng, inp.picks, inp.fixedStock);
            plan.insts == (if sel.value.value.InstrumentList? then sel.value.value.items else []))
  {
  }

  lemma {:induction false} ClientTurnSound(lim: Limits, client: nat, plan: Plan, rounds: nat -> InstrumentRound,
                                           risk: RiskState)
    requires PlanShape(plan)
    ensures var q := ClientTurn(lim, client, plan, rounds, risk);
      Sound(lim, risk, q) && (q.events != [] ==> !q.events[0].PlaceOrder?)
  {
    var p := Progress(plan.events, risk, None);
    assert CountBuyOrders(plan.events) == 0 by {
      if plan.events != [] {
        assert plan.events[1..] == [];
      }
    }
    assert Sound(lim, risk, p);
    if plan.fault.None? {
      var start := Progress([], risk, None);
      var q := InstrumentLoop(lim, client, plan.present, plan.insts, 0, rounds, start);
      InstrumentLoopSound(lim, client, plan.present, plan.insts, 0, rounds, risk, start);
      InstrumentLoopFirst(lim, client, plan.present, plan.insts, 0, rounds, start);
      SoundThen(lim, risk, p, q);
    }
  }

  /** A stretch of rounds adds events only behind the ones it started with. */
  lemma {:induction false} InstrumentLoopFirst(lim: Limits, client: nat, present: bool, insts: seq<Instrument>,
                                               j: nat, rounds: nat -> InstrumentRound, p: Progress)
    requires j <= |insts|
    requires p.events != [] ==> !p.events[0].PlaceOrder?
    ensures var q := InstrumentLoop(lim, client, present, insts, j, rounds, p);
      q.events != [] ==> !q.events[0].PlaceOrder?
    decreases |insts| - j
  {
    if j < |insts| && p.fault.None? {
      var r := Round(lim, client, present, insts[j], |insts| - j, rounds(j), p.risk);
      RoundShape(lim, client, present, insts[j], |insts| - j, rounds(j), p.risk);
      InstrumentLoopFirst(lim, client, present, insts, j + 1, rounds, Then(p, r));
    }
  }

  lemma {:induction false} ClientsLoopSound(cfg: AgentConfig, lim: Limits, inputs: seq<ClientInputs>, i: nat,
                                            s0: RiskState, p: Progress)
    requires i <= |inputs|
    requires Sound(lim, s0, p)
    ensures Sound(lim, s0, ClientsLoop(lim, Plans(cfg, inputs), inputs, i, p))
    decreases |inputs| - i
  {
    if i < |inputs| && p.fault.None? {
      var q := ClientTurn(lim, i, Plans(cfg, inputs)[i], inputs[i].rounds, p.risk);
      PlansShape(cfg, inputs, i);
      ClientTurnSound(lim, i, Plans(cfg, inputs)[i], inputs[i].rounds, p.risk);
      SoundThen(lim, s0, p, q);
      ClientsLoopSound(cfg, lim, inputs, i + 1, s0, Then(p, q));
    }
  }

  // ---------------------------------------------------------------------
  // One client's turn
  // ---------------------------------------------------------------------

  /**
   * A client holding open positions trades exactly the held instruments
   * whose keys resolve, in key order, asks the position-management entry
   * point, and never auto-picks. A client holding none asks the new-entry
   * point about the instruments `get_instruments_to_trade` chose.
   */
  lemma ClientTurnInstruments(cfg: AgentConfig, lim: Limits, client: nat, inp: ClientInputs, risk: RiskState)
    requires inp.positions.Fetched?
    ensures var q := ClientTurn(lim, client, ClientPlan(cfg, inp), inp.rounds, risk);
      var open := OpenAtStart(inp.positions.data);
      && RequestsAre(q.events, open != [])
      && (open != [] ==> NoCompare(q.events))
      && (open != [] && q.fault.None? ==> RequestedKeys(q.events) == KeysOf(Resolved(Tokens(open), inp.lookup)))
      && (open == [] && q.fault.None? ==>
            var sel := InstrumentsToTradeSpec(cfg, inp.availableMargin, inp.universe, inp.rng, inp.picks, inp.fixedStock);
            RequestedKeys(q.events) == (if sel.value.value.InstrumentList? then KeysOf(sel.value.value.items) else []))
  {
    ClientPlanShape(cfg, inp);
    ClientPlanChoice(cfg, inp);
    ClientTurnRequests(lim, client, ClientPlan(cfg, inp), inp.rounds, risk);
  }

  /** A turn asks the entry point its plan selects, about the planned instruments, in order. */
  lemma ClientTurnRequests(lim: Limits, client: nat, plan: Plan, rounds: nat -> InstrumentRound, risk: RiskState)
    requires PlanShape(plan)
    ensures var q := ClientTurn(lim, client, plan, rounds, risk);
      && RequestsAre(q.events, plan.present)
      && (plan.present ==> NoCompare(q.events))
      && (q.fault.None? ==> RequestedKeys(q.events) == KeysOf(plan.insts))
  {
    assert RequestedKeys(plan.events) == [] by {
      if plan.events != [] {
        assert plan.events[1..] == [];
      }
    }
    if plan.fault.None? {
      var start := Progress([], risk, None);
      var q := InstrumentLoop(lim, client, plan.present, plan.insts, 0, rounds, start);
      InstrumentLoopRequests(lim, client, plan.present, plan.insts, 0, rounds, start);
      InstrumentLoopKeys(lim, client, plan.present, plan.insts, 0, rounds, start);
      InstrumentLoopNoCompare(lim, client, plan.present, plan.insts, 0, rounds, start);
      RequestedKeysAppend(plan.events, q.events);
      RequestsAreAppend(plan.events, q.events, plan.present);
      assert plan.insts[0..] == plan.insts;
    }
  }

  lemma {:induction false} InstrumentLoopNoCompare(lim: Limits, client: nat, present: bool, insts: seq<Instrument>,
                                                   j: nat, rounds: nat -> InstrumentRound, p: Progress)
    requires j <= |insts|
    requires NoCompare(p.events)
    ensures NoCompare(InstrumentLoop(lim, client, present, insts, j, rounds, p).events)
    decreases |insts| - j
  {
    if j < |insts| && p.fault.None? {
      var r := Round(lim, client, present, insts[j], |insts| - j, rounds(j), p.risk);
      RoundShape(lim, client, present, insts[j], |insts| - j, rounds(j), p.risk);
      NoCompareAppend(p.events, r.events);
      InstrumentLoopNoCompare(lim, client, present, insts, j + 1, rounds, Then(p, r));
    }
  }

  /**
   * A per-instrument loop that raised nothing asked the oracle about the
   * k-th instrument with the count of instruments not yet processed, itself
   * included: `n, n - 1, ..., 1` for `n` instruments.
   */
  lemma RemainingCountsDown(lim: Limits, client: nat, present: bool, insts: seq<Instrument>,
                            rounds: nat -> InstrumentRound, risk: RiskState)
    ensures var q := InstrumentLoop(lim, client, present, insts, 0, rounds, Progress([], risk, None));
      q.fault.None? ==>
        && |RequestedKeys(q.events)| == |RequestedRemaining(q.events)| == |insts|
        && forall k :: 0 <= k < |insts| ==>
             RequestedKeys(q.events)[k] == insts[k].instrumentKey && RequestedRemaining(q.events)[k] == |insts| - k
  {
    var start := Progress([], risk, None);
    InstrumentLoopKeys(lim, client, present, insts, 0, rounds, start);
    InstrumentLoopRemaining(lim, client, present, insts, 0, rounds, start);
    assert insts[0..] == insts;
  }

  lemma {:induction false} InstrumentLoopRemaining(lim: Limits, client: nat, present: bool, insts: seq<Instrument>,
                                                   j: nat, rounds: nat -> InstrumentRound, p: Progress)
    requires j <= |insts|
    ensures var q := InstrumentLoop(lim, client, present, insts, j, rounds, p);
      p.fault.None? && q.fault.None? ==>
        RequestedRemaining(q.events) == RequestedRemaining(p.events) + CountDown(|insts| - j)
    decreases |insts| - j
  {
    if j < |insts| && p.fault.None? {
      var r := Round(lim, client, present, insts[j], |insts| - j, rounds(j), p.risk);
      RoundAfterRemaining(lim, client, present, insts, j, rounds(j), p);
      InstrumentLoopRemaining(lim, client, present, insts, j + 1, rounds, Then(p, r));
    } else if j == |insts| {
      assert RequestedRemaining(p.events) + CountDown(0) == RequestedRemaining(p.events);
    }
  }

  /** A round that raised nothing told the oracle its count, after the counts told before it. */
  lemma RoundAfterRemaining(lim: Limits, client: nat, present: bool, insts: seq<Instrument>, j: nat,
                            r: InstrumentRound, p: Progress)
    requires j < |insts|
    ensures var q := Then(p, Round(lim, client, present, insts[j], |insts| - j, r, p.risk));
      q.fault.None? ==>
        RequestedRemaining(q.events) + CountDown(|insts| - (j + 1))
          == RequestedRemaining(p.events) + CountDown(|insts| - j)
  {
    var q := Round(lim, client, present, insts[j], |insts| - j, r, p.risk);
    RoundRemaining(lim, client, present, insts[j], |insts| - j, r, p.risk);
    if q.fault.None? {
      CountDownStep(|insts| - j);
      RequestedRemainingStep(p.events, q.events, |insts| - j, CountDown(|insts| - (j + 1)));
    }
  }

  /** A round that raised nothing made one request, carrying its count. */
  lemma RoundRemaining(lim: Limits, client: nat, present: bool, inst: Instrument, remaining: nat,
                       r: InstrumentRound, risk: RiskState)
    ensures var q := Round(lim, client, present, inst, remaining, r, risk);
      q.fault.None? ==> RequestedRemaining(q.events) == [remaining]
  {
    if r.positions.Fetched? {
      var a := Act(lim, client, r.reply, risk);
      ActFacts(lim, client, r.reply, risk);
      RequestSaveActEvents(client, present, inst.instrumentKey, remaining,
                           FormatPreviousDecision(r.previousDecisions), r.reply, a.events);
    }
  }

  lemma CountDownStep(n: nat)
    requires n > 0
    ensures CountDown(n) == [n] + CountDown(n - 1)
  {
  }

  lemma RequestedRemainingStep(a: seq<Event>, b: seq<Event>, n: nat, rest: seq<nat>)
    requires RequestedRemaining(b) == [n]
    ensures RequestedRemaining(a + b) + rest == RequestedRemaining(a) + ([n] + rest)
  {
    RequestedRemainingAppend(a, b);
    AppendAssoc(RequestedRemaining(a), [n], rest);
  }

  // ---------------------------------------------------------------------
  // The cycle and the day
  // ---------------------------------------------------------------------

  /**
   * At or after the close a cycle trades nothing, asks nothing and leaves no
   * timer: the first such cycle squares off every client once and marks the
   * agent, later ones do nothing at all.
   */
  lemma EndOfDayIsTerminal(cfg: AgentConfig, lim: Limits, s: AgentState, now: nat, inputs: seq<ClientInputs>)
    requires now >= cfg.marketCloseTime
    ensures var c := Cycle(cfg, lim, s, now, inputs);
      && !c.state.timerPending && c.state.eodSquaringOff && c.fault.None?
      && c.state.risk == s.risk
      && (s.eodSquaringOff ==> c.events == [] && c.state.exited == s.exited)
      && (!s.eodSquaringOff ==> c.events == ExitAllEvents(|inputs|) && c.state.exited)
      && (forall e :: e in c.events ==> e.ExitAll?)
  {
  }

  /**
   * A new cycle is scheduled exactly when this one ran before the close,
   * raised nothing, and the agent is not squaring off.
   */
  lemma NextCycleScheduled(cfg: AgentConfig, lim: Limits, s: AgentState, now: nat, inputs: seq<ClientInputs>)
    ensures Cycle(cfg, lim, s, now, inputs).state.timerPending <==>
      now < cfg.marketCloseTime && Cycle(cfg, lim, s, now, inputs).fault.None? && !s.eodSquaringOff
  {
  }

  /**
   * A cycle places only orders backed by the oracle answer saved just before
   * them, never changes the P&L or the halt flag, counts every BUY order
   * against the day's trades, and keeps the trade count within the cap.
   */
  lemma CycleSound(cfg: AgentConfig, lim: Limits, s: AgentState, now: nat, inputs: seq<ClientInputs>)
    ensures var c := Cycle(cfg, lim, s, now, inputs);
      OrdersFollowSavedDecisions(c.events) && RiskStep(lim, s.risk, c.state.risk, c.events)
    ensures var c := Cycle(cfg, lim, s, now, inputs);
      now < cfg.marketCloseTime ==> NoExit(c.events)
  {
    if now < cfg.marketCloseTime {
      ClientsLoopSound(cfg, lim, inputs, 0, s.risk, Progress([], s.risk, None));
    } else {
      var c := Cycle(cfg, lim, s, now, inputs);
      assert CountBuyOrders(c.events) == 0 by {
        NoOrdersCounted(c.events);
      }
    }
  }

  lemma {:induction false} NoOrdersCounted(es: seq<Event>)
    requires forall e :: e in es ==> !e.PlaceOrder?
    ensures CountBuyOrders(es) == 0
    decreases |es|
  {
    if es != [] {
      assert es[0] in es;
      assert forall e :: e in es[1..] ==> e in es;
      NoOrdersCounted(es[1..]);
    }
  }

  /**
   * Over a whole day the agent places no more BUY orders than the risk
   * gate's daily cap leaves, and the square-off is the last thing it does.
   */
  lemma {:induction false} DayWithinTradeCap(cfg: AgentConfig, lim: Limits, s: AgentState, ticks: seq<Tick>)
    requires 0 <= s.risk.tradesToday <= lim.maxTradesPerDay
    ensures var r := Run(cfg, lim, s, ticks);
      && CountBuyOrders(r.events) <= lim.maxTradesPerDay - s.risk.tradesToday
      && s.risk.tradesToday <= r.state.risk.tradesToday <= lim.maxTradesPerDay
      && r.state.risk.halted == s.risk.halted
      && OrdersFollowSavedDecisions(r.events)
    decreases |ticks|
  {
    if ticks != [] {
      var c := Cycle(cfg, lim, s, ticks[0].now, ticks[0].inputs);
      CycleSound(cfg, lim, s, ticks[0].now, ticks[0].inputs);
      if c.state.timerPending {
        var rest := Run(cfg, lim, c.state, ticks[1..]);
        DayWithinTradeCap(cfg, lim, c.state, ticks[1..]);
        CountBuyOrdersAppend(c.events, rest.events);
        RunOpensWithoutOrder(cfg, lim, c.state, ticks[1..]);
        OrdersAppend(c.events, rest.events);
      }
    }
  }

  /** No day's trace opens with an order. */
  lemma {:induction false} RunOpensWithoutOrder(cfg: AgentConfig, lim: Limits, s: AgentState, ticks: seq<Tick>)
    ensures var r := Run(cfg, lim, s, ticks);
      r.events != [] ==> !r.events[0].PlaceOrder?
    decreases |ticks|
  {
    if ticks != [] {
      var c := Cycle(cfg, lim, s, ticks[0].now, ticks[0].inputs);
      if ticks[0].now < cfg.marketCloseTime {
        ClientsLoopFirst(cfg, lim, ticks[0].inputs, 0, Progress([], s.risk, None));
      }
      if c.state.timerPending {
        RunOpensWithoutOrder(cfg, lim, c.state, ticks[1..]);
      }
    }
  }

  lemma {:induction false} ClientsLoopFirst(cfg: AgentConfig, lim: Limits, inputs: seq<ClientInputs>, i: nat, p: Progress)
    requires i <= |inputs|
    requires p.events != [] ==> !p.events[0].PlaceOrder?
    ensures var q := ClientsLoop(lim, Plans(cfg, inputs), inputs, i, p);
      q.events != [] ==> !q.events[0].PlaceOrder?
    decreases |inputs| - i
  {
    if i < |inputs| && p.fault.None? {
      var q := ClientTurn(lim, i, Plans(cfg, inputs)[i], inputs[i].rounds, p.risk);
      PlansShape(cfg, inputs, i);
      ClientTurnSound(lim, i, Plans(cfg, inputs)[i], inputs[i].rounds, p.risk);
      ClientsLoopFirst(cfg, lim, inputs, i + 1, Then(p, q));
    }
  }

  /** Once an `exit_all_positions` call is made, nothing but such calls follows it in the day. */
  lemma {:induction false} SquareOffEndsTheDay(cfg: AgentConfig, lim: Limits, s: AgentState, ticks: seq<Tick>, k: nat)
    requires var r := Run(cfg, lim, s, ticks); k < |r.events| && r.events[k].ExitAll?
    ensures var r := Run(cfg, lim, s, ticks);
      forall m :: k <= m < |r.events| ==> r.events[m].ExitAll?
    decreases |ticks|
  {
    var r := Run(cfg, lim, s, ticks);
    var c := Cycle(cfg, lim, s, ticks[0].now, ticks[0].inputs);
    CycleSound(cfg, lim, s, ticks[0].now, ticks[0].inputs);
    if c.state.timerPending {
      var rest := Run(cfg, lim, c.state, ticks[1..]);
      assert ticks[0].now < cfg.marketCloseTime;
      if k < |c.events| {
        assert false;
      }
      assert r.events[k] == rest.events[k - |c.events|];
      SquareOffEndsTheDay(cfg, lim, c.state, ticks[1..], k - |c.events|);
      forall m | k <= m < |r.events| ensures r.events[m].ExitAll? {
        assert r.events[m] == rest.events[m - |c.events|];
      }
    } else if ticks[0].now < cfg.marketCloseTime {
      assert false;
    }
  }
}
