/**
 * The trading agent object: the pending decision timer and the end-of-day
 * flag are fields the methods update in place, the risk manager is a
 * separate object the cycle validates against, and every collaborator call
 * is appended to `trace`. `MakeDecision` is proved to follow
 * `DecisionCycle.Cycle`.
 */
module Agent {
  import opened Common
  import opened AgentTypes
  import opened RiskManagement
  import opened Formatting
  import opened Positions
  import opened AutoPick
  import opened Orders
  import opened DecisionCycle

  class TradingAgent {
    const config: AgentConfig
    const clientCount: nat
    const riskManager: RiskManager

    var decisionTimerPending: bool
    var isEodSquaringOff: bool
    var exited: bool
    /** The collaborator calls made so far. */
    var trace: seq<Event>

    function State(): AgentState
      reads this, riskManager
    {
      AgentState(decisionTimerPending, isEodSquaringOff, exited, riskManager.State())
    }

    constructor (config: AgentConfig, clientCount: nat, riskConfig: RiskConfig, leverageOnIntraday: int)
      ensures this.config == config && this.clientCount == clientCount
      ensures fresh(riskManager)
      ensures riskManager.RiskLimits() == Limits(riskConfig.minConfidenceThreshold.GetOr(DefaultMinConfidenceThreshold),
                                                 riskConfig.maxTradesPerDay.GetOr(DefaultMaxTradesPerDay),
                                                 riskConfig.maxDailyLossPct.GetOr(DefaultMaxDailyLossPct))
      ensures riskManager.maxPositionSize == riskConfig.maxPositionSize.GetOr(DefaultMaxPositionSize)
      ensures riskManager.stopLossPct == riskConfig.stopLossPct.GetOr(DefaultStopLossPct)
      ensures riskManager.takeProfitPct == riskConfig.takeProfitPct.GetOr(DefaultTakeProfitPct)
      ensures riskManager.leverageOnIntraday == leverageOnIntraday
      ensures State() == AgentState(false, false, false, InitialState)
      ensures trace == []
    {
      this.config := config;
      this.clientCount := clientCount;
      riskManager := new RiskManager(riskConfig, leverageOnIntraday);
      decisionTimerPending := false;
      isEodSquaringOff := false;
      exited := false;
      trace := [];
    }

    /** `_start_decision_timer`: any pending timer is replaced; none is started at end of day. */
    method StartDecisionTimer()
      modifies this
      ensures decisionTimerPending <==> !isEodSquaringOff
      ensures isEodSquaringOff == old(isEodSquaringOff) && exited == old(exited) && trace == old(trace)
    {
      decisionTimerPending := false;
      if !isEodSquaringOff {
        decisionTimerPending := true;
      }
    }

    /** `stop`: cancels the timer and ends the agent. */
    method Stop()
      modifies this
      ensures !decisionTimerPending && exited
      ensures isEodSquaringOff == old(isEodSquaringOff) && trace == old(trace)
    {
      decisionTimerPending := false;
      exited := true;
    }

    /** `square_off_all_positions`: exits every client's positions once, then stops. */
    method SquareOffAllPositions()
      modifies this
      ensures isEodSquaringOff && !decisionTimerPending && exited
      ensures trace == old(trace) + ExitAllEvents(clientCount)
    {
      isEodSquaringOff := true;
      decisionTimerPending := false;
      var i := 0;
      while i < clientCount
        invariant 0 <= i <= clientCount
        invariant isEodSquaringOff && !decisionTimerPending
        invariant trace == old(trace) + ExitAllEvents(i)
      {
        trace := trace + [ExitAll(i)];
        i := i + 1;
      }
      Stop();
    }

    /** The body of the per-instrument loop of `make_decision`. */
    method ProcessInstrument(client: nat, present: bool, inst: Instrument, remaining: nat, r: InstrumentRound)
      returns (fault: Option<Fault>)
      modifies this`trace, riskManager
      ensures var q := Round(riskManager.RiskLimits(), client, present, inst, remaining, r, old(riskManager.State()));
        trace == old(trace) + q.events && riskManager.State() == q.risk && fault == q.fault
    {
      var current := GetPortfolioPositions(r.positions);
      if current.BareEmptyDict? {
        return Some(PositionsNotUnpackable);
      }
      var history := FormatPreviousDecision(r.previousDecisions);
      var asked := [Request(client, present, inst.instrumentKey, remaining, history), SaveDecision(r.reply)];
      trace := trace + asked;
      ghost var a := Act(riskManager.RiskLimits(), client, r.reply, riskManager.State());
      fault := ActOnReply(client, r.reply, r.availableMargin);
      AppendAssoc(old(trace), asked, a.events);
    }

    /** What follows saving the oracle's answer: validate the decision and, when approved, trade. */
    method ActOnReply(client: nat, reply: OracleReply, availableMargin: real) returns (fault: Option<Fault>)
      modifies this`trace, riskManager
      ensures var a := Act(riskManager.RiskLimits(), client, reply, old(riskManager.State()));
        trace == old(trace) + a.events && riskManager.State() == a.risk && fault == a.fault
    {
      if reply.NoReply? {
        return Some(ReplyIsNone);
      }
      var response := reply.response;
      if response.NullResponse? {
        return Some(ResponseIsNone);
      }
      // A decision without an action is only logged; processing goes on.
      var d := response.decision;
      var price := d.currentPrice;
      if !d.IsEmpty() {
        var approved := riskManager.ValidateDecision(d, availableMargin, price);
        if approved && Truthy(price) {
          var quantity := d.quantity.GetOr(0);
          var t := ExecuteTrade(d, price.value, quantity);
          if t.Raised? {
            return Some(t.fault);
          }
          if t.value.Some? {
            trace := trace + [PlaceOrder(client, t.value.value)];
          }
        }
      }
      return None;
    }

    /** The records of the held instrument keys that resolve, in key order. */
    method ResolveHeld(keys: seq<string>, lookup: map<string, Instrument>) returns (insts: seq<Instrument>)
      ensures insts == Resolved(keys, lookup)
    {
      insts := [];
      var k := 0;
      while k < |keys|
        invariant 0 <= k <= |keys|
        invariant insts == Resolved(keys[..k], lookup)
      {
        assert keys[..k + 1] == keys[..k] + [keys[k]];
        ResolvedAppend(keys[..k], [keys[k]], lookup);
        ResolvedSingle(keys[k], lookup);
        if keys[k] in lookup {
          insts := insts + [lookup[keys[k]]];
        }
        k := k + 1;
      }
      assert keys[..k] == keys;
    }

    /** The per-instrument loop of `make_decision`, counting down the instruments left. */
    method ProcessInstruments(client: nat, present: bool, insts: seq<Instrument>, rounds: nat -> InstrumentRound)
      returns (fault: Option<Fault>)
      modifies this`trace, riskManager
      ensures var q := InstrumentLoop(riskManager.RiskLimits(), client, present, insts, 0, rounds,
                                      Progress([], old(riskManager.State()), None));
        trace == old(trace) + q.events && riskManager.State() == q.risk && fault == q.fault
    {
      var lim := riskManager.RiskLimits();
      ghost var p := Progress([], riskManager.State(), None);
      ghost var target := InstrumentLoop(lim, client, present, insts, 0, rounds, p);
      var remaining := |insts|;
      var j := 0;
      fault := None;
      while j < |insts| && fault.None?
        invariant 0 <= j <= |insts| && remaining == |insts| - j
        invariant fault == p.fault
        invariant trace == old(trace) + p.events && p.risk == riskManager.State()
        invariant InstrumentLoop(lim, client, present, insts, j, rounds, p) == target
      {
        ghost var q := Round(lim, client, present, insts[j], remaining, rounds(j), p.risk);
        fault := ProcessInstrument(client, present, insts[j], remaining, rounds(j));
        AppendAssoc(old(trace), p.events, q.events);
        p := Then(p, q);
        remaining := remaining - 1;
        j := j + 1;
      }
    }

    /**
     * The start of the `i`-th client's turn in `make_decision`: its open
     * positions when it has any, otherwise the instruments
     * `get_instruments_to_trade` returns, iterated.
     */
    method ChoosePlan(inputs: seq<ClientInputs>, i: nat) returns (plan: Plan)
      requires i < |inputs|
      ensures plan == Plans(config, inputs)[i]
    {
      PlanAt(config, inputs, i);
      var inp := inputs[i];
      var positions := GetPortfolioPositions(inp.positions);
      if positions.BareEmptyDict? {
        return Plan([], false, [], Some(PositionsNotUnpackable));
      }
      if positions.open != [] {
        var insts := ResolveHeld(Tokens(positions.open), inp.lookup);
        return Plan([], true, insts, None);
      }
      var sel := GetInstrumentsToTrade(config, inp.availableMargin, inp.universe, inp.rng, inp.picks, inp.fixedStock);
      if sel.value.Raised? {
        return Plan(sel.events, false, [], Some(sel.value.fault));
      }
      match sel.value.value
      case InstrumentRecord(record) =>
        // Iterating a record visits its keys: none for the empty record,
        // and for any other the first key string cannot be subscripted.
        if record.None? {
          return Plan(sel.events, false, [], None);
        }
        return Plan(sel.events, false, [], Some(RecordKeysIterated));
      case InstrumentList(items) =>
        return Plan(sel.events, false, items, None);
    }

    /** One client's turn of `make_decision`, once its instruments are chosen. */
    method ProcessClient(client: nat, plan: Plan, rounds: nat -> InstrumentRound) returns (fault: Option<Fault>)
      modifies this`trace, riskManager
      ensures var q := ClientTurn(riskManager.RiskLimits(), client, plan, rounds, old(riskManager.State()));
        trace == old(trace) + q.events && riskManager.State() == q.risk && fault == q.fault
    {
      trace := trace + plan.events;
      if plan.fault.Some? {
        return plan.fault;
      }
      ghost var q := InstrumentLoop(riskManager.RiskLimits(), client, plan.present, plan.insts, 0, rounds,
                                    Progress([], riskManager.State(), None));
      fault := ProcessInstruments(client, plan.present, plan.insts, rounds);
      AppendAssoc(old(trace), plan.events, q.events);
    }

    /** The per-client loop of `make_decision`. */
    method ProcessClients(inputs: seq<ClientInputs>) returns (fault: Option<Fault>)
      modifies this`trace, riskManager
      ensures var q := ClientsLoop(riskManager.RiskLimits(), Plans(config, inputs), inputs, 0,
                                   Progress([], old(riskManager.State()), None));
        trace == old(trace) + q.events && riskManager.State() == q.risk && fault == q.fault
    {
      var lim := riskManager.RiskLimits();
      ghost var plans := Plans(config, inputs);
      ghost var p := Progress([], riskManager.State(), None);
      ghost var target := ClientsLoop(lim, plans, inputs, 0, p);
      var i := 0;
      fault := None;
      while i < |inputs| && fault.None?
        invariant 0 <= i <= |inputs|
        invariant fault == p.fault
        invariant trace == old(trace) + p.events && p.risk == riskManager.State()
        invariant ClientsLoop(lim, plans, inputs, i, p) == target
      {
        ghost var q := ClientTurn(lim, i, plans[i], inputs[i].rounds, p.risk);
        ClientsLoopStep(lim, plans, inputs, i, p);
        var plan := ChoosePlan(inputs, i);
        fault := ProcessClient(i, plan, inputs[i].rounds);
        AppendAssoc(old(trace), p.events, q.events);
        p := Then(p, q);
        i := i + 1;
      }
      ClientsLoopStep(lim, plans, inputs, i, p);
    }

    /**
     * `make_decision` at clock reading `now`, with the collaborators' answers
     * for each client; the result is the exception that escaped, if any.
     */
    method MakeDecision(now: nat, inputs: seq<ClientInputs>) returns (raised: Option<Fault>)
      requires |inputs| == clientCount
      modifies this, riskManager
      ensures var c := Cycle(config, riskManager.RiskLimits(), old(State()), now, inputs);
        trace == old(trace) + c.events && State() == c.state && raised == c.fault
    {
      // The timer that started this cycle has fired.
      decisionTimerPending := false;
      if now >= config.marketCloseTime {
        if !isEodSquaringOff {
          SquareOffAllPositions();
        }
        return None;
      }
      raised := ProcessClients(inputs);
      if raised.None? {
        StartDecisionTimer();
      }
    }
  }
}
