/**
 * The values the decision cycle reads from its collaborators (broker,
 * decision oracle, instrument universe) and the calls it makes on them,
 * recorded as events.
 */
module AgentTypes {
  import opened Common

  /** The product code of an intraday position or order. */
  const IntradayProduct: string := "I"
  /** The validity every order is placed with. */
  const DayValidity: string := "DAY"

  /** A broker-reported position. */
  datatype Position = Position(instrumentToken: string, quantity: int, product: string)

  /**
   * What reading the broker's positions gave: the list (or `None`, which the
   * broker wrapper returns when its own call fails), or an exception raised
   * while reading them (the wrapper raises when it has no session).
   */
  datatype PositionsFetch = Fetched(data: Option<seq<Position>>) | FetchRaised

  /**
   * What `get_portfolio_positions` returns: the pair (all positions, open
   * positions keyed by instrument token, in insertion order), or the bare
   * empty dictionary of its exception handler.
   */
  datatype PortfolioPositions =
    | PositionsPair(all: Option<seq<Position>>, open: seq<Position>)
    | BareEmptyDict

  /** An instrument record: key, trading symbol and company name. */
  datatype Instrument = Instrument(instrumentKey: string, tradingSymbol: string, name: string)

  /**
   * The instrument set a cycle iterates: a list, or (on the fixed-stock
   * path) a single instrument record, `None` standing for the empty record.
   */
  datatype InstrumentsValue =
    | InstrumentList(items: seq<Instrument>)
    | InstrumentRecord(record: Option<Instrument>)

  /** A last-traded-price entry, keyed like `NSE_EQ:SYMBOL`. */
  datatype Quote = Quote(key: string, instrumentToken: string, lastPrice: real)

  /** An affordable instrument considered by auto-pick. */
  datatype Candidate = Candidate(instrumentKey: string, lastPrice: real, stockName: string)

  /** One instrument the oracle picked out of the compared candidates. */
  datatype Pick = Pick(instrumentKey: string, stockName: string)

  /** The arguments of one `place_order` call. */
  datatype Order = Order(
    instrumentKey: string,
    quantity: int,
    side: string,
    orderType: string,
    price: real,
    product: string,
    validity: string,
    stopLoss: real,
    takeProfit: real)

  /** The `response` part of the oracle's answer: `None` or a decision dictionary. */
  datatype Response = NullResponse | DecisionDict(decision: Decision)

  /** The oracle's answer: `None` (its call failed) or a record holding a response. */
  datatype OracleReply = NoReply | Reply(response: Response)

  /** An exception that escapes the decision cycle. */
  datatype Fault =
    | PositionsNotUnpackable   // unpacking the bare `{}` into two names
    | RecordKeysIterated       // iterating a single record yields its key strings
    | PicksNotIterable         // the oracle gave no list of picks
    | MalformedQuoteKey        // `key.split(":")[1]` on a key without ':'
    | MarginIsNone             // subscripting the `None` a failed margin read returns
    | QuotesAreNone            // `len` of the `None` a failed last-price read returns
    | ReplyIsNone              // subscripting a `None` oracle answer
    | ResponseIsNone           // calling `.get` on a `None` response
    | DecisionKeyMissing(key: string)  // `decision[key]` on an absent key

  /** A computation's value, or the exception it raised. */
  datatype Outcome<+T> = Returned(value: T) | Raised(fault: Fault)

  /** A call the cycle makes on a collaborator, in the order it makes them. */
  datatype Event =
    | CompareCandidates(candidates: seq<Candidate>)
    | RequestNewEntry(client: nat, instrumentKey: string, remaining: nat, history: string)
    | RequestManagePosition(client: nat, instrumentKey: string, remaining: nat, history: string)
    | SaveDecision(reply: OracleReply)
    | PlaceOrder(client: nat, order: Order)
    | ExitAll(client: nat)

  /** The agent's configuration. */
  datatype AgentConfig = AgentConfig(
    autoPickStock: bool,
    randomSelectStocks: bool,
    selectStockCountToCompare: nat,
    marketCloseTime: nat)   // microseconds after midnight
}
