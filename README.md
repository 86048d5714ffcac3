# Intraday trading agent: decision cycle and risk gate

This project models the core of an LLM-driven intraday trading agent for
the Indian equity market and proves properties of it. Two Python classes
make up that core.

- `RiskManager` (`risk_manager.py`) holds the daily counters: trades
  taken today, the day's P&L and the circuit-breaker flag. Its
  `validate_decision` is the ordered pre-trade gate: HOLD, halted, daily
  trade cap, minimum confidence, then SELL against everything else.
- `TradingAgent` (`trading_agent.py`) runs the periodic decision cycle,
  `make_decision`. For every broker client it reads the open intraday
  positions. It then either manages the held instruments or picks new
  ones, by auto-pick or the fixed stock. For each instrument it asks the
  oracle (the LLM) for a decision, saves the answer, passes it through the
  risk gate and, when approved, places a BUY or SELL order. At or after
  market close it squares off every client once and stops.

The model is written in the shape of the source.

- The risk manager and the agent are classes whose methods update fields
  in place.
- Each method is proved equal to a pure specification function:
  - `RiskManagement.Validate` and `RiskManagement.AfterPnl` for the risk
    manager;
  - `DecisionCycle.Round`, `InstrumentLoop`, `ClientTurn`, `ClientsLoop`
    and `Cycle` for the decision cycle.
- The agent records every call it makes on a collaborator as an `Event`
  in the field `trace`. These are oracle requests, saved answers, order
  placements, candidate comparisons and `exit_all_positions`.
- The properties are lemmas about those functions and about
  `DecisionCycle.Run`, a whole trading day of cycles.

Collaborator answers are inputs, never computed:

- broker positions, instrument lookups, quotes and the available margin
  (on the auto-pick path a failed margin or last-price read is `None`);
- the oracle's replies and picks;
- the stored decision history;
- the clock and the random draws.

A Python exception that escapes `make_decision` is a `Fault` value. It ends
the cycle, and no new timer is started.

Modules:

- `Common`: `Option` and the oracle's decision record.
- `AgentTypes`: positions, quotes, orders, events and faults.
- `RiskManagement`: `risk_manager.py`.
- `Orders`: `execute_trade`, `execute_buy` and `execute_sell`.
- `Formatting`: `format_previous_decision`.
- `Positions`: `get_portfolio_positions` and the resolution of held keys.
- `AutoPick`: `get_instruments_to_trade` and the filter, sort and select
  steps of `auto_pick_instrument_to_trade`.
- `DecisionCycle`: the specification of `make_decision` and its
  properties.
- `Agent`: the `TradingAgent` class.

What the code does, and the model with it:

- `make_decision` has no `try`. An exception raised while one instrument
  is processed ends the whole cycle (trading_agent.py:139-203).
- The oracle entry point is chosen per client. A client that holds any
  open position uses the position-management entry point for every
  instrument (trading_agent.py:124-135, 168-171).
- The two branches that log "Skipping cycle." (trading_agent.py:147 and
  188) only log and fall through, the second under the comment
  `# Restart timer for next cycle` (trading_agent.py:189). So a decision
  without an `action` still reaches the risk gate, takes its BUY path and
  uses up one of the day's trades
  (`DecisionCycle.ActionlessDecisionConsumesTrade`).
- The class docstring of `RiskManager` lists "Calculating appropriate
  position sizes based on risk capital" (risk_manager.py:12).
  `validate_decision` reads the available margin and the quantity but
  decides nothing with them; `calculate_quantity` is never called by the
  agent.
- `get_portfolio_positions` returns a bare `{}` when the broker call
  raises (trading_agent.py:279-281). Unpacking it into two names raises,
  and the model reports `PositionsNotUnpackable`.
- When auto-pick is off, `get_instruments_to_trade` returns a single
  instrument record, not a list (trading_agent.py:349). Iterating a
  record visits its keys. An empty record gives no instruments. A
  non-empty one fails at the first `['trading_symbol']` subscript of a
  key string (`RecordKeysIterated`).

## Model

| member | source | states |
|---|---|---|
| RiskManagement.Assess | risk_manager.py:41-87 | A decision is approved exactly when its action is not HOLD, trading is not halted, fewer than the daily cap of trades have been taken, and its confidence (0 when absent) meets the threshold. HOLD is rejected whatever the state. An approved decision is a SELL approval exactly when the action is SELL; every other action, a missing one included, takes the BUY path. A low-confidence rejection happens only once the halt and cap checks have passed. |
| RiskManagement.Validate | risk_manager.py:41-87 | The verdict is `Assess`'s. The risk state changes only on an approved BUY, which adds exactly one to the day's trades. |
| RiskManagement.AfterPnl | risk_manager.py:105-123 | The P&L is added to the day's total and the trade count is unchanged. The halt flag is set exactly when it was already set or the new total is strictly below minus starting capital times the allowed loss fraction. |
| RiskManagement.CalculateQuantity | risk_manager.py:89-103 | A price of zero or less gives 0. Otherwise the quantity is the largest whole number of shares whose cost stays within the maximum position size. |
| RiskManagement.HaltIsPermanent | risk_manager.py:113-119 | Once trading is halted, no sequence of validations and P&L updates clears the flag. |
| RiskManagement.NothingApprovedAfterHalt | risk_manager.py:65-68 | After a halt, no decision of any kind is approved for the rest of the day. |
| RiskManagement.TradeCapRespected | risk_manager.py:70-73 | The trade count never decreases. If it starts within the daily cap it stays within it, and a count already above the cap never moves. |
| RiskManagement.FreshManagerWithinCap | risk_manager.py:35-37 | From the initial state, the day's trade count stays between 0 and the cap whatever happens. |
| RiskManagement.OnlyBuyPathCounts | risk_manager.py:80-87 | The trade count grows by at most the number of validations that went down the BUY path. |
| RiskManagement.RejectionIsRepeatable | risk_manager.py:57-78 | A rejected validation leaves the state as it was, so repeating it gives the same verdict and state. |
| RiskManagement.ThirdBuyHitsCap | risk_manager.py:70-87 | With a cap of 2, two confident BUYs are approved and a third is refused by the trade cap. |
| RiskManagement.LossLimitScenario | risk_manager.py:105-119 | A loss of 2500 on capital 100000 at a 2% limit halts trading, and a further loss leaves it halted with the losses summed. |
| RiskManagement.RiskManager.constructor | risk_manager.py:17-37 | Each parameter takes the configured value or its default (15000, 0.005, 0.01, 0.75, 20, 0.02). The day starts with no trades, zero P&L and trading not halted. |
| RiskManagement.RiskManager.ValidateDecision | risk_manager.py:41-87 | The answer is `Assess`'s approval, and the new counters are `Validate`'s state. |
| RiskManagement.RiskManager.UpdatePnl | risk_manager.py:105-123 | The new counters are `AfterPnl` of the old ones. |
| Orders.ExecuteBuy | trading_agent.py:230-238 | An order is placed exactly when the price is non-zero. It is an intraday DAY BUY with the given key, quantity, price, order type, stop loss and take profit. |
| Orders.ExecuteSell | trading_agent.py:240-247 | The same, for a SELL. |
| Orders.ExecuteTrade | trading_agent.py:211-228 | It raises exactly when the decision lacks its instrument key, action or order type. Otherwise it places an order exactly when the action is BUY or SELL and the price is non-zero. That order carries the decision's side, key and order type, the given quantity and price, and the stop loss and take profit, each taken as 0 when absent. |
| Formatting.FormatPreviousDecision | trading_agent.py:392-403 | The history is empty exactly when there are no previous decisions. Otherwise it opens with the block rule. |
| Formatting.Block | trading_agent.py:393-401 | One decision's block opens with the block rule. |
| Formatting.FormatAppend | trading_agent.py:392-403 | The history of two lists joined is the two histories one blank line apart, so each decision contributes exactly its own block. |
| Formatting.FormatSingle | trading_agent.py:392-403 | A single decision is rendered as its block alone, with `None` for an absent stop loss or take profit. |
| Positions.PutFacts | trading_agent.py:276 | Storing a position by token: the value is present afterwards, every other value was there before, and the keys are the old keys plus this token. A new token is appended at the end. An existing token keeps the key order. Keys stay distinct. |
| Positions.OpenPositionsFacts | trading_agent.py:272-276 | The open-position dictionary's keys are exactly the tokens of reported positions with a non-zero quantity and the intraday product, each once. Every value is such a position. The dictionary is empty exactly when no position qualifies. |
| Positions.OpenKeysAreReported | trading_agent.py:272-276 | Every open-position key is the token of a reported intraday position with a non-zero quantity. |
| Positions.GetPortfolioPositions | trading_agent.py:267-281 | A failed broker call yields the bare empty dictionary. Otherwise the result is the reported positions together with `OpenPositions` of them, and no open positions when nothing was reported. |
| Positions.Resolved | trading_agent.py:131-135 | No more instruments than keys, and every one is the lookup of some key. The record of every key that resolves is included. When every key resolves, they are exactly the lookups, in key order. |
| Positions.ResolvedSingle | trading_agent.py:132-135 | One key gives its record when the lookup finds it and nothing otherwise. |
| Positions.ResolvedAppend | trading_agent.py:131-135 | Resolving two key lists one after the other gives the two results joined, so the records come in key order and a key that does not resolve is simply skipped. |
| Positions.OpenPositions | trading_agent.py:272-276 | Every value is a reported position with a non-zero quantity and the intraday product, and no token appears twice. |
| AutoPick.SecondField | trading_agent.py:305 | There is a second ':'-separated field exactly when the key contains ':', and that field contains no ':'. |
| AutoPick.SecondFieldOfJoined | trading_agent.py:305 | Splitting undoes joining: the second field of `a:b` (optionally followed by more fields) is `b`. |
| AutoPick.Affordable | trading_agent.py:299-307 | The only exception the filter raises is the malformed-key one, and it keeps no more candidates than there are quotes. |
| AutoPick.AffordableFacts | trading_agent.py:299-307 | The filter raises exactly when some quote priced within the margin has a key without ':'. Otherwise the candidates are exactly those built from the quotes priced within the margin. |
| AutoPick.FilterByMargin | trading_agent.py:299-307 | When the margin read returned `None`, the filter raises exactly when there is at least one quote, since the margin is subscripted inside the loop (trading_agent.py:301), and otherwise gives no candidates. Its only exceptions are that one and the malformed-key one. |
| AutoPick.FilterAffordable | trading_agent.py:299-307 | The loop computes `FilterByMargin`: `Affordable` for a margin that was read, the `None`-margin exception at the first quote otherwise. |
| AutoPick.SortByPriceDesc | trading_agent.py:308 | The result is ordered by price, dearest first, and is a permutation of the input. |
| AutoPick.Sample | trading_agent.py:314 | Exactly `k` candidates, drawn without replacement from the pool. |
| AutoPick.Select | trading_agent.py:311-316 | `min(n, len)` candidates drawn from the ranked list. Without random selection they are its first `n`. |
| AutoPick.StocksToCompare | trading_agent.py:299-316 | The method computes `StocksToCompareSpec`. |
| AutoPick.TopOfRanked | trading_agent.py:308-316 | A prefix of a ranked list is ranked, and nothing outside it is dearer than anything in it. |
| AutoPick.CompareSetFacts | trading_agent.py:299-316 | At most `n` candidates are compared, all affordable and drawn from the filtered list. Without random selection they are the dearest ones, dearest first. |
| AutoPick.AutoPickSpec | trading_agent.py:293-341 | At most one comparison request is made. A `None` last-price answer raises at `len(ltp_data)` (trading_agent.py:297) before any request. A `None` margin with at least one quote raises in the filter before any request. When the oracle returns `None` the pick raises, and a pick that raises nothing returns a list of instruments. |
| AutoPick.AutoPickInstrumentToTrade | trading_agent.py:293-341 | The method computes `AutoPickSpec`: one comparison request for the selected candidates, then an instrument per pick. It raises when the oracle returned `None` instead of a list of picks, since iterating `None` fails (trading_agent.py:331); an empty list of picks gives no instruments and raises nothing. |
| AutoPick.GetInstrumentsToTrade | trading_agent.py:343-349 | Auto-pick when enabled. Otherwise the fixed stock's single record (not a list), with no collaborator call. |
| DecisionCycle.Act | trading_agent.py:173-200 | Acting on an answer never changes the day's P&L or the halt flag. |
| DecisionCycle.ActFacts | trading_agent.py:173-200 | Acting on an answer places at most one order, for this client. The order is the BUY or SELL of the decision just saved. It is placed exactly when the decision is non-empty, approved, has a truthy current price and has the keys `execute_trade` subscripts. The P&L and halt flag are unchanged, and a BUY order is counted as a trade. |
| DecisionCycle.Round | trading_agent.py:139-203 | One instrument's round never changes the day's P&L or the halt flag. |
| DecisionCycle.InstrumentLoop | trading_agent.py:139-203 | The per-instrument loop, ending at the first exception, never changes the day's P&L or the halt flag. |
| DecisionCycle.RoundShape | trading_agent.py:145-173 | A round emits nothing exactly when re-reading the positions failed. Otherwise it opens with a request to the entry point the client's positions select, with the instrument key, the remaining count and the formatted history. The saved answer comes next. |
| DecisionCycle.RoundSound | trading_agent.py:139-203 | A round places orders only right after the answer they come from, and never squares off. Of the risk state it changes only the trade count, which grows by at least one per BUY order placed and stays within the cap when it started there. |
| DecisionCycle.RoundOrderConditions | trading_agent.py:187-200 | An instrument's round places an order exactly when the positions were read, the oracle returned a non-empty decision approved by the risk gate, the decision has a truthy price and the keys `execute_trade` reads, and its action is BUY or SELL. |
| DecisionCycle.CostInfoOnlyDecisionConsumesTrade | trading_agent.py:187-200 | A reply holding only the oracle client's `cost_info` is not `{}`. With a minimum confidence of 0 or less it passes the gate with confidence 0, uses up one of the day's trades, places no order and raises nothing. |
| DecisionCycle.ActionlessDecisionConsumesTrade | trading_agent.py:187-200 | A non-empty decision with no action, once past the gate's checks, adds one to the day's trades and places no order. When it carries a price, `execute_trade` then raises on the missing key. |
| DecisionCycle.RemainingCountsDown | trading_agent.py:138-202 | In a per-instrument loop that raised nothing, the k-th oracle request is about the k-th instrument and carries the count `n - k` of instruments not yet processed, itself included, so the counts sent are `n, n-1, …, 1`. |
| DecisionCycle.InstrumentLoopRemaining | trading_agent.py:138-202 | From the `j`-th instrument on, a loop that raised nothing appends the counts `n - j, …, 1` to those already sent. |
| DecisionCycle.InstrumentLoopKeys | trading_agent.py:139-203 | A per-instrument loop that raised nothing asked the oracle about each instrument once, in order. |
| DecisionCycle.ClientPlan | trading_agent.py:122-135 | A client that holds open positions makes no selection call and raises nothing while its instruments are chosen. |
| DecisionCycle.ClientTurn | trading_agent.py:122-203 | A client's turn never changes the day's P&L or the halt flag. |
| DecisionCycle.ClientsLoop | trading_agent.py:122-203 | The loop over clients, ending at the first exception, never changes the day's P&L or the halt flag. |
| DecisionCycle.ClientPlanChoice | trading_agent.py:122-135 | A client with open positions trades the held instruments whose keys resolve, in key order, and raises nothing while choosing them. A client without any trades what `get_instruments_to_trade` returned. |
| DecisionCycle.ClientTurnInstruments | trading_agent.py:122-203 | Every request goes to the entry point selected by whether the client held positions. A client with positions never auto-picks. A turn that raised nothing asked about exactly the chosen instruments, in order. |
| DecisionCycle.Cycle | trading_agent.py:111-209 | A cycle never changes the day's P&L or the halt flag: `make_decision` does not call `update_pnl`. |
| DecisionCycle.Run | trading_agent.py:111-209 | Over a day of cycles started by the timer, the P&L and the halt flag stay as they were. |
| DecisionCycle.EndOfDayIsTerminal | trading_agent.py:116-120 | At or after the close a cycle raises nothing, trades nothing and leaves no timer. The first such cycle calls `exit_all_positions` once per client and stops the agent. Later ones do nothing. |
| DecisionCycle.NextCycleScheduled | trading_agent.py:111-209 | A next cycle is scheduled exactly when this one ran before the close, raised nothing, and the agent is not squaring off. |
| DecisionCycle.CycleSound | trading_agent.py:111-209 | A cycle places only orders backed by the answer saved just before them. It never changes the P&L or the halt flag, counts every BUY order against the day's trades and keeps the count within the cap. Before the close it never squares off. |
| DecisionCycle.DayWithinTradeCap | trading_agent.py:197-200 | Over a whole day, no more BUY orders are placed than the cap leaves. The trade count stays within the cap, the halt flag is untouched, and every order follows its saved answer. |
| DecisionCycle.SquareOffEndsTheDay | trading_agent.py:283-291 | Once an `exit_all_positions` call is made, nothing but such calls follows it for the rest of the day. |
| Agent.TradingAgent.constructor | trading_agent.py:30-53 | A fresh risk manager whose confidence threshold, daily trade cap, daily loss limit, maximum position size, stop loss and take profit are each the configured value or its default, with the given intraday leverage. No timer is pending, the agent is not squaring off or stopped, and no call has been made. |
| Agent.TradingAgent.StartDecisionTimer | trading_agent.py:78-85 | Any pending timer is replaced. A new one is pending exactly when the agent is not squaring off. |
| Agent.TradingAgent.Stop | trading_agent.py:250-257 | The timer is cancelled and the agent is stopped. |
| Agent.TradingAgent.SquareOffAllPositions | trading_agent.py:283-291 | It marks the end-of-day square-off, cancels the timer, calls `exit_all_positions` once per client in order, and stops the agent. |
| Agent.TradingAgent.ProcessInstrument | trading_agent.py:139-203 | The calls, risk state and exception are those of `Round`. |
| Agent.TradingAgent.ActOnReply | trading_agent.py:173-200 | The calls, risk state and exception are those of `Act`. |
| Agent.TradingAgent.ResolveHeld | trading_agent.py:131-135 | The loop computes `Resolved` of the held keys. |
| Agent.TradingAgent.ProcessInstruments | trading_agent.py:138-203 | The calls, risk state and exception are those of `InstrumentLoop` from the first instrument. |
| Agent.TradingAgent.ChoosePlan | trading_agent.py:122-135 | The client's plan is `Plans(...)[i]`: held instruments or the chosen ones, with the calls and the exception of choosing them. |
| Agent.TradingAgent.ProcessClient | trading_agent.py:122-203 | The calls, risk state and exception are those of `ClientTurn`. |
| Agent.TradingAgent.ProcessClients | trading_agent.py:122-203 | The calls, risk state and exception are those of `ClientsLoop` over all clients. |
| Agent.TradingAgent.MakeDecision | trading_agent.py:111-209 | The calls, the new agent and risk state, and the escaping exception are those of `Cycle` at the given clock reading. |

## Left out

- Collaborators are inputs or events, not code: the broker client, the LLM client, the database, the news fetcher, the NSE 500 fetcher, the chart and technical analysers. Their answers are fields of `ClientInputs` and `InstrumentRound`; what the agent sends them is recorded in `trace`.
- The market quote, candles, technical summary, news, chart paths, margin object and per-instrument position dictionary passed to the oracle are not modelled. Of the request, only the entry point, client, instrument key, remaining count and formatted history are kept.
- The "no market data" check only logs (trading_agent.py:146-148), so the quote does not change the flow and is not an input.
- The re-read of the positions inside the per-instrument loop (trading_agent.py:153-154) matters to the flow only when it raises; the open-position entry it builds for the oracle is not modelled.
- Threads and timers: the recurring `Timer` is the flag `decisionTimerPending`, and a fired timer is the next element of `DecisionCycle.Run`'s ticks. Concurrent callbacks (`on_market_data`, `update_portfolio_positions`, `save_order_details`) are not modelled.
- `time.sleep` and logging are left out.
- The clock is a parameter: microseconds after midnight compared with the close time.
- `sys.exit` in `stop` is the `exited` flag. The model does not end the process, so later cycles are still described.
- Exceptions raised inside `exit_all_positions`, `place_order` or the oracle calls are not modelled. The broker and oracle answers are taken as returned values.
- Prices, margin, confidence and P&L are mathematical reals; floating-point rounding is not modelled.
- `AutoPick.SortByPriceDesc`: the contract states ordering and permutation only; that equally priced candidates keep their input order, as Python's stable `sorted` guarantees, is not stated.
- `AutoPick.Sample`: `random.sample` is a draw without replacement driven by the input `rng`; its distribution is not modelled.
- `get_instruments_to_trade` always uses the first client's session (trading_agent.py:344) for the quotes, so the quotes are an input of each call; the margin it filters by is the current client's `portfolio_margin` (trading_agent.py:123, 129, 301), as in the model, `None` included.
- The NSE 500 key list, its 499-key limit and the LTP request (trading_agent.py:294-296) are left out; the quotes are the input `universe`, `None` when the last-price read failed. The per-candidate summaries sent to the oracle (trading_agent.py:319-327) are reduced to the compared candidates.
- The extra fields copied from each pick (`last_price`, `confidence_score`, `thought`, trading_agent.py:336-338) are not modelled; a pick without the fields that are read would raise in Python and is not representable.
- JSON `null` and an absent key are not distinguished: both are `None` in the decision record. So `llm_decision.get('current_price', 0.0)` and a stored `null` give the same (falsy) price. The behaviours of the source that differ as a result:
  - `"confidence_score": null` makes `confidence < threshold` raise `TypeError` (risk_manager.py:76); the model takes the confidence as 0 and rejects the decision.
  - `action`, `instrument_key` or `order_type` present but `null` is read by `decision[...]` without a `KeyError` (trading_agent.py:213-215); the model raises `DecisionKeyMissing`.
  - `"quantity": null` passes `None` to `place_order` (trading_agent.py:199-200); the model passes 0.
- `RiskManagement.RiskManager.ValidateDecision`: `portfolio.get('available_margin', 0)` is assumed to succeed. The margin re-read for each instrument (trading_agent.py:153) is a number in the model; when that read returns `None`, the source raises `AttributeError` at risk_manager.py:55 and the model does not. The margin value is passed but unused, as in the source.
- `calculate_quantity` and `update_pnl` are never called by the agent; they are modelled on their own (`RiskManagement.CalculateQuantity` as a function of the configured maximum position size), and `DecisionCycle.Cycle` never changes the P&L or the halt flag.
- `start`, authentication, profile and margin fetching at start-up, and the Flask API and `main.py` entry points are not part of this model.
