/**
 * The pre-trade risk gate and the daily circuit breaker.
 *
 * The gate's rules are stated once, as functions over a value-level
 * `RiskState`; the class `RiskManager` holds that state in mutable fields
 * and its methods are proved to follow the functions.
 */
module RiskManagement {
  import opened Common

  // Defaults used when the risk configuration omits a key.
  const DefaultMaxPositionSize: real := 15000.0
  const DefaultStopLossPct: real := 0.005
  const DefaultTakeProfitPct: real := 0.01
  const DefaultMinConfidenceThreshold: real := 0.75
  const DefaultMaxTradesPerDay: int := 20
  const DefaultMaxDailyLossPct: real := 0.02

  /** The risk configuration dictionary; every key is optional. */
  datatype RiskConfig = RiskConfig(
    maxPositionSize: Option<real>,
    stopLossPct: Option<real>,
    takeProfitPct: Option<real>,
    minConfidenceThreshold: Option<real>,
    maxTradesPerDay: Option<int>,
    maxDailyLossPct: Option<real>)

  /** The parameters the gate and the breaker compare against. */
  datatype Limits = Limits(minConfidence: real, maxTradesPerDay: int, maxDailyLossPct: real)

  /** The mutable part of the risk manager, for one trading day. */
  datatype RiskState = RiskState(tradesToday: int, dailyPnl: real, halted: bool)

  const InitialState: RiskState := RiskState(0, 0.0, false)

  /** Which rule decided a validation, in the order the rules are tried. */
  datatype Verdict =
    | RejectHold
    | RejectHalted
    | RejectTradeCap
    | RejectLowConfidence
    | ApproveSell
    | ApproveBuy
  {
    predicate Approved() {
      this == ApproveSell || this == ApproveBuy
    }
  }

  /** The outcome of one validation: the verdict and the state after it. */
  datatype Validation = Validation(verdict: Verdict, state: RiskState)

  /** The confidence a decision is judged by; a missing score counts as 0. */
  function ConfidenceOf(d: Decision): real {
    d.confidenceScore.GetOr(0.0)
  }

  /**
   * The ordered, short-circuiting checks: HOLD, halted, trade cap,
   * confidence, then SELL against everything else (which takes the BUY path,
   * a missing action included).
   */
  function Assess(lim: Limits, s: RiskState, d: Decision): (v: Verdict)
    ensures v == RejectHold <==> d.action == Some("HOLD")
    ensures v.Approved() <==>
              && d.action != Some("HOLD")
              && !s.halted
              && s.tradesToday < lim.maxTradesPerDay
              && lim.minConfidence <= ConfidenceOf(d)
    ensures v == ApproveSell <==> v.Approved() && d.action == Some("SELL")
    ensures v == RejectLowConfidence ==> !s.halted && s.tradesToday < lim.maxTradesPerDay
  {
    if d.action == Some("HOLD") then RejectHold
    else if s.halted then RejectHalted
    else if s.tradesToday >= lim.maxTradesPerDay then RejectTradeCap
    else if ConfidenceOf(d) < lim.minConfidence then RejectLowConfidence
    else if d.action == Some("SELL") then ApproveSell
    else ApproveBuy
  }

  /** `validate_decision`: the verdict, and a trade counted only for an approved BUY. */
  function Validate(lim: Limits, s: RiskState, d: Decision): (r: Validation)
    ensures r.verdict == Assess(lim, s, d)
    ensures r.verdict != ApproveBuy ==> r.state == s
    ensures r.verdict == ApproveBuy ==> r.state == s.(tradesToday := s.tradesToday + 1)
  {
    var v := Assess(lim, s, d);
    Validation(v, if v == ApproveBuy then s.(tradesToday := s.tradesToday + 1) else s)
  }

  /**
   * `update_pnl`: books the P&L and latches the halt when the day's P&L
   * falls strictly below minus the allowed loss.
   */
  function AfterPnl(lim: Limits, s: RiskState, pnl: real, startingCapital: real): (r: RiskState)
    ensures r.dailyPnl == s.dailyPnl + pnl
    ensures r.tradesToday == s.tradesToday
    ensures r.halted <==> s.halted || s.dailyPnl + pnl < -(startingCapital * lim.maxDailyLossPct)
  {
    var booked := s.dailyPnl + pnl;
    var maxLossAmount := startingCapital * lim.maxDailyLossPct;
    if booked < -maxLossAmount then s.(dailyPnl := booked, halted := true)
    else s.(dailyPnl := booked)
  }

  /**
   * `calculate_quantity`: the whole number of shares that fits in the
   * maximum position size (floor division), or 0 for a non-positive price.
   */
  function CalculateQuantity(maxPositionSize: real, price: real): (q: int)
    ensures price <= 0.0 ==> q == 0
    ensures price > 0.0 ==> q as real * price <= maxPositionSize < (q + 1) as real * price
  {
    if price <= 0.0 then 0
    else
      var q := (maxPositionSize / price).Floor;
      FloorScales(maxPositionSize, price, q);
      q
  }

  lemma FloorScales(m: real, p: real, q: int)
    requires p > 0.0 && q == (m / p).Floor
    ensures q as real * p <= m < (q + 1) as real * p
  {
    var x := m / p;
    assert q as real <= x < (q + 1) as real;
    assert x * p == m;
    assert q as real * p <= x * p;
    assert x * p < (q + 1) as real * p;
  }

  /** A call on the risk manager: a validation or a booked P&L. */
  datatype RiskEvent = Validated(d: Decision) | PnlBooked(pnl: real, startingCapital: real)

  function Step(lim: Limits, s: RiskState, e: RiskEvent): RiskState {
    match e
    case Validated(d) => Validate(lim, s, d).state
    case PnlBooked(pnl, cap) => AfterPnl(lim, s, pnl, cap)
  }

  /** The state after a sequence of calls, applied in order. */
  function Replay(lim: Limits, s: RiskState, es: seq<RiskEvent>): RiskState
    decreases |es|
  {
    if es == [] then s else Replay(lim, Step(lim, s, es[0]), es[1..])
  }

  /** The number of validations whose action takes the BUY path. */
  function BuyPathCount(es: seq<RiskEvent>): nat
    decreases |es|
  {
    if es == [] then 0
    else
      var here := if es[0].Validated? && es[0].d.action != Some("HOLD") && es[0].d.action != Some("SELL") then 1 else 0;
      here + BuyPathCount(es[1..])
  }

  /** The circuit breaker is a latch: no call sequence clears it. */
  lemma {:induction false} HaltIsPermanent(lim: Limits, s: RiskState, es: seq<RiskEvent>)
    requires s.halted
    ensures Replay(lim, s, es).halted
    decreases |es|
  {
    if es != [] {
      HaltIsPermanent(lim, Step(lim, s, es[0]), es[1..]);
    }
  }

  /** Once halted, every later decision is rejected, SELL included. */
  lemma NothingApprovedAfterHalt(lim: Limits, s: RiskState, es: seq<RiskEvent>, d: Decision)
    requires s.halted
    ensures !Assess(lim, Replay(lim, s, es), d).Approved()
  {
    HaltIsPermanent(lim, s, es);
  }

  /** The trade counter only moves up, and never past the cap it started under. */
  lemma {:induction false} TradeCapRespected(lim: Limits, s: RiskState, es: seq<RiskEvent>)
    ensures s.tradesToday <= Replay(lim, s, es).tradesToday
    ensures s.tradesToday <= lim.maxTradesPerDay ==> Replay(lim, s, es).tradesToday <= lim.maxTradesPerDay
    ensures s.tradesToday > lim.maxTradesPerDay ==> Replay(lim, s, es).tradesToday == s.tradesToday
    decreases |es|
  {
    if es != [] {
      TradeCapRespected(lim, Step(lim, s, es[0]), es[1..]);
    }
  }

  /** Starting from a fresh manager, `trades_today` never exceeds `max_trades_per_day`. */
  lemma FreshManagerWithinCap(lim: Limits, es: seq<RiskEvent>)
    requires lim.maxTradesPerDay >= 0
    ensures 0 <= Replay(lim, InitialState, es).tradesToday <= lim.maxTradesPerDay
  {
    TradeCapRespected(lim, InitialState, es);
  }

  /** HOLD and SELL never consume the daily cap: only BUY-path validations count. */
  lemma {:induction false} OnlyBuyPathCounts(lim: Limits, s: RiskState, es: seq<RiskEvent>)
    ensures Replay(lim, s, es).tradesToday <= s.tradesToday + BuyPathCount(es)
    decreases |es|
  {
    if es != [] {
      OnlyBuyPathCounts(lim, Step(lim, s, es[0]), es[1..]);
    }
  }

  /** A rejected validation changes nothing, so repeating it gives the same answer. */
  lemma RejectionIsRepeatable(lim: Limits, s: RiskState, d: Decision)
    requires !Assess(lim, s, d).Approved()
    ensures Validate(lim, Validate(lim, s, d).state, d) == Validate(lim, s, d)
  {
  }

  /** Two approved BUYs under a cap of 2: a third confident BUY is refused by the cap alone. */
  lemma ThirdBuyHitsCap(d: Decision)
    requires d.action == Some("BUY") && d.confidenceScore == Some(0.9)
    ensures
      var lim := Limits(0.75, 2, 0.02);
      var first := Validate(lim, InitialState, d);
      var second := Validate(lim, first.state, d);
      first.verdict == ApproveBuy && second.verdict == ApproveBuy &&
      Validate(lim, second.state, d).verdict == RejectTradeCap
  {
  }

  /** A loss of 2500 on capital 100000 at 2% trips the breaker; a later loss keeps it tripped. */
  lemma LossLimitScenario()
    ensures
      var lim := Limits(0.75, 20, 0.02);
      var s1 := AfterPnl(lim, InitialState, -2500.0, 100000.0);
      var s2 := AfterPnl(lim, s1, -1500.0, 100000.0);
      s1.halted && s2.halted && s2.dailyPnl == -4000.0
  {
  }

  /**
   * The risk manager object. The configuration is fixed at construction;
   * `tradesToday`, `dailyPnl` and `isTradingHalted` change through
   * `ValidateDecision` and `UpdatePnl` only.
   */
  class RiskManager {
    const maxPositionSize: real
    const stopLossPct: real
    const takeProfitPct: real
    const minConfidenceThreshold: real
    const maxTradesPerDay: int
    const maxDailyLossPct: real
    const leverageOnIntraday: int

    var tradesToday: int
    var dailyPnl: real
    var isTradingHalted: bool

    function RiskLimits(): Limits {
      Limits(minConfidenceThreshold, maxTradesPerDay, maxDailyLossPct)
    }

    function State(): RiskState
      reads this
    {
      RiskState(tradesToday, dailyPnl, isTradingHalted)
    }

    constructor (config: RiskConfig, leverageOnIntraday: int)
      ensures maxPositionSize == config.maxPositionSize.GetOr(DefaultMaxPositionSize)
      ensures stopLossPct == config.stopLossPct.GetOr(DefaultStopLossPct)
      ensures takeProfitPct == config.takeProfitPct.GetOr(DefaultTakeProfitPct)
      ensures minConfidenceThreshold == config.minConfidenceThreshold.GetOr(DefaultMinConfidenceThreshold)
      ensures maxTradesPerDay == config.maxTradesPerDay.GetOr(DefaultMaxTradesPerDay)
      ensures maxDailyLossPct == config.maxDailyLossPct.GetOr(DefaultMaxDailyLossPct)
      ensures this.leverageOnIntraday == leverageOnIntraday
      ensures State() == InitialState
    {
      maxPositionSize := config.maxPositionSize.GetOr(DefaultMaxPositionSize);
      stopLossPct := config.stopLossPct.GetOr(DefaultStopLossPct);
      takeProfitPct := config.takeProfitPct.GetOr(DefaultTakeProfitPct);
      minConfidenceThreshold := config.minConfidenceThreshold.GetOr(DefaultMinConfidenceThreshold);
      maxTradesPerDay := config.maxTradesPerDay.GetOr(DefaultMaxTradesPerDay);
      maxDailyLossPct := config.maxDailyLossPct.GetOr(DefaultMaxDailyLossPct);
      this.leverageOnIntraday := leverageOnIntraday;
      tradesToday := 0;
      dailyPnl := 0.0;
      isTradingHalted := false;
    }

    /**
     * `validate_decision`. The available margin, the quantity and the
     * current price are read by the source but decide nothing.
     */
    method ValidateDecision(decision: Decision, availableMargin: real, currentPrice: Option<real>)
      returns (approved: bool)
      modifies this
      ensures approved == Assess(RiskLimits(), old(State()), decision).Approved()
      ensures State() == Validate(RiskLimits(), old(State()), decision).state
    {
      var action := decision.action;
      var confidence := decision.confidenceScore.GetOr(0.0);
      var quantity := decision.quantity.GetOr(0);
      if action == Some("HOLD") {
        return false;
      }
      if isTradingHalted {
        return false;
      }
      if tradesToday >= maxTradesPerDay {
        return false;
      }
      if confidence < minConfidenceThreshold {
        return false;
      }
      if action == Some("SELL") {
        return true;
      }
      tradesToday := tradesToday + 1;
      return true;
    }

    /** `update_pnl`. */
    method UpdatePnl(pnl: real, startingCapital: real)
      modifies this
      ensures State() == AfterPnl(RiskLimits(), old(State()), pnl, startingCapital)
    {
      dailyPnl := dailyPnl + pnl;
      var maxLossAmount := startingCapital * maxDailyLossPct;
      if dailyPnl < -maxLossAmount {
        isTradingHalted := true;
      }
    }
  }
}
