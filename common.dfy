/** Values shared by the risk gate and the decision cycle. */
module Common {

  /** A value that may be absent: a missing dictionary key or a `None`. */
  datatype Option<+T> = None | Some(value: T) {
    /** The value, or `default` when absent (Python's `d.get(key, default)`). */
    function GetOr(default: T): T {
      match this
      case Some(v) => v
      case None => default
    }
  }

  /**
   * The decision dictionary returned by the decision oracle. Every key is
   * optional: the source reads each one with `.get(...)` or `[...]`, and
   * `None` here stands for a key the dictionary does not hold. `otherKeys`
   * says whether the dictionary holds any key besides these nine, such as
   * the `cost_info` the oracle client adds whenever it has usage figures;
   * such a key is never read, but it makes the dictionary non-empty.
   */
  datatype Decision = Decision(
    action: Option<string>,
    instrumentKey: Option<string>,
    confidenceScore: Option<real>,
    quantity: Option<int>,
    orderType: Option<string>,
    stopLoss: Option<real>,
    takeProfit: Option<real>,
    currentPrice: Option<real>,
    thought: Option<string>,
    otherKeys: bool)
  {
    /** The empty dictionary `{}`, which Python treats as false. */
    predicate IsEmpty() {
      this == Decision(None, None, None, None, None, None, None, None, None, false)
    }
  }

  /** Python truthiness of an optional number: present and non-zero. */
  predicate Truthy(x: Option<real>) {
    x.Some? && x.value != 0.0
  }

  /** Concatenation regroups freely: traces are extended one stretch at a time. */
  lemma AppendAssoc<T>(a: seq<T>, b: seq<T>, c: seq<T>)
    ensures (a + b) + c == a + (b + c)
  {
  }
}
