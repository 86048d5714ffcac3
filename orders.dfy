/** `execute_trade`, `execute_buy` and `execute_sell`: a validated decision becomes at most one order. */
module Orders {
  import opened Common
  import opened AgentTypes

  /** `x or 0.0`: an absent (or zero) price level becomes 0.0. */
  function OrZero(x: Option<real>): real {
    if x.Some? then x.value else 0.0
  }

  /** An order as the agent always sends it: intraday, valid for the day. */
  predicate IsIntradayDayOrder(o: Order) {
    o.product == IntradayProduct && o.validity == DayValidity
  }

  /** `execute_buy`: a BUY order, unless there is no price. */
  function ExecuteBuy(key: string, quantity: int, price: real, orderType: string, stopLoss: real, takeProfit: real)
    : (r: Option<Order>)
    ensures r.Some? <==> price != 0.0
    ensures r.Some? ==> IsIntradayDayOrder(r.value) && r.value.side == "BUY"
    ensures r.Some? ==> r.value.instrumentKey == key && r.value.quantity == quantity && r.value.price == price
    ensures r.Some? ==> r.value.orderType == orderType && r.value.stopLoss == stopLoss && r.value.takeProfit == takeProfit
  {
    if price == 0.0 then None
    else Some(Order(key, quantity, "BUY", orderType, price, "I", "DAY", stopLoss, takeProfit))
  }

  /** `execute_sell`: a SELL order, unless there is no price. */
  function ExecuteSell(key: string, quantity: int, price: real, orderType: string, stopLoss: real, takeProfit: real)
    : (r: Option<Order>)
    ensures r.Some? <==> price != 0.0
    ensures r.Some? ==> IsIntradayDayOrder(r.value) && r.value.side == "SELL"
    ensures r.Some? ==> r.value.instrumentKey == key && r.value.quantity == quantity && r.value.price == price
    ensures r.Some? ==> r.value.orderType == orderType && r.value.stopLoss == stopLoss && r.value.takeProfit == takeProfit
  {
    if price == 0.0 then None
    else Some(Order(key, quantity, "SELL", orderType, price, "I", "DAY", stopLoss, takeProfit))
  }

  /**
   * `execute_trade`: reads the decision's instrument key, action and order
   * type by subscript (an absent one raises), then dispatches BUY and SELL;
   * any other action places nothing.
   */
  function ExecuteTrade(decision: Decision, price: real, quantity: int): (r: Outcome<Option<Order>>)
    ensures r.Raised? <==>
              decision.instrumentKey.None? || decision.action.None? || decision.orderType.None?
    ensures r.Returned? ==>
              (r.value.Some? <==> (decision.action == Some("BUY") || decision.action == Some("SELL")) && price != 0.0)
    ensures r.Returned? && r.value.Some? ==>
              var o := r.value.value;
              && IsIntradayDayOrder(o)
              && Some(o.side) == decision.action
              && Some(o.instrumentKey) == decision.instrumentKey
              && Some(o.orderType) == decision.orderType
              && o.quantity == quantity && o.price == price
              && o.stopLoss == OrZero(decision.stopLoss)
              && o.takeProfit == OrZero(decision.takeProfit)
  {
    if decision.instrumentKey.None? then Raised(DecisionKeyMissing("instrument_key"))
    else if decision.action.None? then Raised(DecisionKeyMissing("action"))
    else if decision.orderType.None? then Raised(DecisionKeyMissing("order_type"))
    else
      var instrument := decision.instrumentKey.value;
      var action := decision.action.value;
      var orderType := decision.orderType.value;
      var stopLoss := OrZero(decision.stopLoss);
      var takeProfit := OrZero(decision.takeProfit);
      if action == "BUY" then Returned(ExecuteBuy(instrument, quantity, price, orderType, stopLoss, takeProfit))
      else if action == "SELL" then Returned(ExecuteSell(instrument, quantity, price, orderType, stopLoss, takeProfit))
      else Returned(None)
  }
}
