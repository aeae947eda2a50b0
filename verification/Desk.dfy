/** What the backtest and the paper engine share: account, order queue, risk gates and marks,
    and the three phases that move them through one group of bars. */
module Desk {
  import opened Collections
  import opened Market
  import opened Oms
  import opened Venue
  import opened Risk

  datatype Desk = Desk(account: Account, pending: seq<Order>, risk: RiskState, marks: map<string, real>)

  datatype Rules = Rules(costs: Costs, cal: Calendar, limits: Limits)

  function NewDesk(initialEquity: real, risk: RiskState): Desk {
    Desk(NewAccount(initialEquity), [], risk, map[])
  }

  /** Phase 1 for one bar: everything queued for its symbol fills at its open. */
  function OpenBar(d: Desk, costs: Costs, b: Bar): Desk {
    d.(account := ApplyFills(d.account, FillsOf(costs, Filter(d.pending, OrderFor(b.symbol)), b.open, b.time)),
       pending := Filter(d.pending, OrderNotFor(b.symbol)))
  }

  predicate OpensPositive(group: seq<Bar>) {
    forall b :: b in group ==> b.open > 0.0
  }

  /** Phase 1 for a group; a non-positive open raises there and leaves later bars unprocessed. */
  function OpenGroup(d: Desk, costs: Costs, group: seq<Bar>): Desk
    decreases |group|
  {
    if group == [] || group[0].open <= 0.0 then d
    else OpenGroup(OpenBar(d, costs, group[0]), costs, group[1..])
  }

  function MarkGroup(marks: map<string, real>, group: seq<Bar>): map<string, real>
    decreases |group|
  {
    if group == [] then marks else MarkGroup(marks[group[0].symbol := group[0].close], group[1..])
  }

  /** Phase 2: refresh marks, record equity once, update the drawdown gates once. */
  function CloseGroup(d: Desk, rules: Rules, group: seq<Bar>, closeTime: int): Desk {
    var marks := MarkGroup(d.marks, group);
    d.(marks := marks,
       account := RecordEquity(d.account, closeTime, marks),
       risk := RiskUpdate(d.risk, rules.cal, rules.limits, closeTime, Equity(d.account, marks)))
  }

  /** Phase 3 for one decision: the gated targets become delta orders at the back of the queue. */
  function QueueTargets(d: Desk, allowed: seq<Target>, submitTime: int): Desk {
    var orders := DeltaOrders(d.account.book, allowed, submitTime, d.account.orderSeq);
    d.(account := d.account.(orderSeq := d.account.orderSeq + |orders|), pending := d.pending + orders)
  }

  lemma {:induction false} ApplyFillsHistory(a: Account, fills: seq<Fill>)
    ensures var a' := ApplyFills(a, fills);
      a'.fills == a.fills + fills && a'.curve == a.curve && a'.orderSeq == a.orderSeq
    decreases |fills|
  {
    if fills != [] {
      ApplyFillsHistory(ApplyFill(a, fills[0]), fills[1..]);
      assert fills == [fills[0]] + fills[1..];
    }
  }

  lemma {:induction false} OpenKeepsRecord(d: Desk, costs: Costs, group: seq<Bar>)
    ensures var d' := OpenGroup(d, costs, group);
      d'.marks == d.marks && d'.risk == d.risk && d'.account.curve == d.account.curve
    decreases |group|
  {
    if group != [] && group[0].open > 0.0 {
      hide FillsOf, Filter, ApplyFills;
      ApplyFillsHistory(d.account, FillsOf(costs, Filter(d.pending, OrderFor(group[0].symbol)), group[0].open, group[0].time));
      OpenKeepsRecord(OpenBar(d, costs, group[0]), costs, group[1..]);
    }
  }

  /** What trading in and out of `q` at one open costs: slippage and fee twice over, to the cent,
      and the position is back where it was. */
  lemma RoundTripCost(a: Account, costs: Costs, buy: Order, sell: Order, open: real, time: int)
    requires buy.side.Buy? && sell.side.Sell? && buy.symbol == sell.symbol && buy.quantity == sell.quantity
    ensures var a' := ApplyFill(ApplyFill(a, FillOf(costs, buy, open, time)), FillOf(costs, sell, open, time));
      && a'.cash == a.cash - 2.0 * (buy.quantity * open) * (costs.slippageBps + costs.feeBps) / BPS
      && forall s :: QtyOf(a'.book, s) == QtyOf(a.book, s)
  {
    var q, s, f := buy.quantity, costs.slippageBps / BPS, costs.feeBps / BPS;
    var up, down := FillOf(costs, buy, open, time), FillOf(costs, sell, open, time);
    LegCost(q, open, s, f, costs, up, 1.0);
    LegCost(q, open, s, f, costs, down, -1.0);
  }

  /** One leg: notional moves by the slippage, and the fee is charged on the slipped notional. */
  lemma LegCost(q: real, open: real, s: real, f: real, costs: Costs, leg: Fill, sign: real)
    requires s == costs.slippageBps / BPS && f == costs.feeBps / BPS
    requires leg.quantity == q && leg.price == open * (1.0 + sign * costs.slippageBps / BPS)
    requires leg.fee == q * leg.price * costs.feeBps / BPS
    ensures Notional(q, leg.price) == (q * open) * (1.0 + sign * s)
    ensures leg.fee == ((q * open) * (1.0 + sign * s)) * f
  {
    assert sign * costs.slippageBps / BPS == sign * s;
    assert q * (open * (1.0 + sign * s)) == (q * open) * (1.0 + sign * s);
    assert q * leg.price * costs.feeBps / BPS == (q * leg.price) * f;
  }

}
