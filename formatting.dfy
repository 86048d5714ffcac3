/** `format_previous_decision`: the same-day decision history shown to the oracle. */
module Formatting {
  import opened Common

  /** A stored decision; the optional fields render as `None` when absent. */
  datatype PreviousDecision = PreviousDecision(
    decisionOn: string,
    action: string,
    stockPrice: string,
    stopLoss: Option<string>,
    takeProfit: Option<string>,
    thought: string)

  const BlockRule: string := "-------------\n"
  const BlockSeparator: string := "\n\n"

  /** Python's `str` of an optional value. */
  function Render(x: Option<string>): string {
    x.GetOr("None")
  }

  /** The text block of one decision. */
  function Block(d: PreviousDecision): (r: string)
    ensures |r| >= |BlockRule| && r[..|BlockRule|] == BlockRule
  {
    BlockRule
    + "Decision Time: " + d.decisionOn + "\n"
    + "Action: " + d.action + "\n"
    + "Stock Price: ₹" + d.stockPrice + "\n"
    + "Stop Loss: ₹" + Render(d.stopLoss) + "\n"
    + "Take Profit: ₹" + Render(d.takeProfit) + "\n"
    + "Thought: " + d.thought
  }

  function Blocks(ds: seq<PreviousDecision>): (r: seq<string>)
    ensures |r| == |ds|
    decreases |ds|
  {
    if ds == [] then [] else [Block(ds[0])] + Blocks(ds[1..])
  }

  /** `sep.join(parts)`. */
  function Join(sep: string, parts: seq<string>): string
    decreases |parts|
  {
    if |parts| == 0 then ""
    else if |parts| == 1 then parts[0]
    else parts[0] + sep + Join(sep, parts[1..])
  }

  function FormatPreviousDecision(ds: seq<PreviousDecision>): (r: string)
    ensures ds == [] <==> r == ""
    ensures ds != [] ==> |r| >= |BlockRule| && r[..|BlockRule|] == BlockRule
  {
    var bs := Blocks(ds);
    if ds == [] then ""
    else
      assert bs[0] == Block(ds[0]);
      JoinStartsWithFirst(BlockSeparator, bs);
      Join(BlockSeparator, bs)
  }

  lemma {:induction false} JoinStartsWithFirst(sep: string, parts: seq<string>)
    requires parts != []
    ensures |Join(sep, parts)| >= |parts[0]| && Join(sep, parts)[..|parts[0]|] == parts[0]
  {
    if |parts| > 1 {
      var rest := sep + Join(sep, parts[1..]);
      assert Join(sep, parts) == parts[0] + rest;
      assert (parts[0] + rest)[..|parts[0]|] == parts[0];
    }
  }

  /** Joining a concatenation puts one separator between the two joins. */
  lemma {:induction false} JoinAppend(sep: string, a: seq<string>, b: seq<string>)
    requires a != [] && b != []
    ensures Join(sep, a + b) == Join(sep, a) + sep + Join(sep, b)
    decreases |a|
  {
    if |a| == 1 {
      assert (a + b)[1..] == b;
    } else {
      assert (a + b)[1..] == a[1..] + b;
      JoinAppend(sep, a[1..], b);
    }
  }

  lemma {:induction false} BlocksAppend(a: seq<PreviousDecision>, b: seq<PreviousDecision>)
    ensures Blocks(a + b) == Blocks(a) + Blocks(b)
    decreases |a|
  {
    if a == [] {
      assert a + b == b;
    } else {
      assert (a + b)[1..] == a[1..] + b;
      BlocksAppend(a[1..], b);
    }
  }

  /**
   * The history of a longer list is the history of its two parts, one
   * blank line apart: each decision contributes exactly its own block.
   */
  lemma FormatAppend(a: seq<PreviousDecision>, b: seq<PreviousDecision>)
    requires a != [] && b != []
    ensures FormatPreviousDecision(a + b)
         == FormatPreviousDecision(a) + BlockSeparator + FormatPreviousDecision(b)
  {
    BlocksAppend(a, b);
    JoinAppend(BlockSeparator, Blocks(a), Blocks(b));
  }

  /** A single decision is rendered as its block alone. */
  lemma FormatSingle(d: PreviousDecision)
    ensures FormatPreviousDecision([d]) == Block(d)
  {
    assert [d][1..] == [];
  }
}
