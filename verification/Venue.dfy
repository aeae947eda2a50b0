/** The simulated venue: a queue of orders filled at the next open (mre/venue.py). */
module Venue {
  import opened Collections
  import opened Market

  const BPS: real := 10000.0

  datatype Costs = Costs(feeBps: real, slippageBps: real)

  function OrderFor(symbol: string): Order -> bool {
    (o: Order) => o.symbol == symbol
  }

  function OrderNotFor(symbol: string): Order -> bool {
    (o: Order) => o.symbol != symbol
  }

  function FillPrice(costs: Costs, side: Side, open: real): real {
    open * (1.0 + (if side.Buy? then 1.0 else -1.0) * costs.slippageBps / BPS)
  }

  function FillOf(costs: Costs, o: Order, open: real, time: int): Fill {
    var price := FillPrice(costs, o.side, open);
    Fill(o.id, o.symbol, o.side, o.quantity, price, o.quantity * price * costs.feeBps / BPS, time)
  }

  function FillsOf(costs: Costs, orders: seq<Order>, open: real, time: int): (fs: seq<Fill>)
    ensures |fs| == |orders|
    ensures forall i :: 0 <= i < |fs| ==> fs[i] == FillOf(costs, orders[i], open, time)
  {
    seq(|orders|, i requires 0 <= i < |orders| => FillOf(costs, orders[i], open, time))
  }

  lemma FillsOfNext(costs: Costs, xs: seq<Order>, o: Order, open: real, time: int)
    ensures FillsOf(costs, xs + [o], open, time) == FillsOf(costs, xs, open, time) + [FillOf(costs, o, open, time)]
    ensures xs + [] == xs
  {
    hide FillOf;
  }

  /** Slippage is never in the trader's favour, and with slippage at most 100% no fill price
      is negative and no fee is a rebate. */
  lemma FillIsAdverse(costs: Costs, o: Order, open: real, time: int)
    requires 0.0 <= costs.feeBps && 0.0 <= costs.slippageBps
    requires open > 0.0 && o.quantity >= 0.0
    ensures var f := FillOf(costs, o, open, time);
      && Signed(f.side, f.quantity) * f.price >= Signed(o.side, o.quantity) * open
      && (costs.slippageBps <= BPS ==> f.price >= 0.0 && f.fee >= 0.0)
  {
    var slip := costs.slippageBps / BPS;
    var price := FillPrice(costs, o.side, open);
    assert price == if o.side.Buy? then open + open * slip else open - open * slip;
    assert open * slip >= 0.0;
    if o.side.Buy? {
      assert o.quantity * price >= o.quantity * open;
    } else {
      assert o.quantity * price <= o.quantity * open;
      if costs.slippageBps <= BPS {
        assert slip <= 1.0;
        assert open * slip <= open * 1.0;
      }
    }
    if costs.slippageBps <= BPS {
      assert o.quantity * price >= 0.0;
      assert o.quantity * price * costs.feeBps >= 0.0;
    }
  }

  class SimulatedVenue {
    const costs: Costs
    var pending: seq<Order>

    constructor (costs: Costs)
      requires costs.feeBps >= 0.0 && costs.slippageBps >= 0.0
      ensures this.costs == costs && pending == []
    {
      this.costs := costs;
      pending := [];
    }

    method Submit(orders: seq<Order>)
      modifies this
      ensures pending == old(pending) + orders
    {
      for i := 0 to |orders|
        invariant pending == old(pending) + orders[..i]
      {
        pending := pending + [orders[i]];
      }
    }

    lemma NothingYet(symbol: string, open: real, time: int)
      ensures FillsOf(costs, Filter(pending[..0], OrderFor(symbol)), open, time) == []
      ensures Filter(pending[..0], OrderNotFor(symbol)) == []
    {
    }

    /** Fills everything queued for `symbol`, in queue order; a bad price raises first. */
    method ProcessOpen(symbol: string, open: real, time: int) returns (r: Result<seq<Fill>, Error>)
      modifies this
      ensures open <= 0.0 ==> r == Failure(NonPositiveOpen) && pending == old(pending)
      ensures open > 0.0 ==>
        && r == Success(FillsOf(costs, Filter(old(pending), OrderFor(symbol)), open, time))
        && pending == Filter(old(pending), OrderNotFor(symbol))
    {
      if open <= 0.0 {
        return Failure(NonPositiveOpen);
      }
      hide FillOf, FillsOf, Filter;
      NothingYet(symbol, open, time);
      var remaining: seq<Order>, fills: seq<Fill> := [], [];
      for i := 0 to |pending|
        invariant pending == old(pending)
        invariant remaining == Filter(pending[..i], OrderNotFor(symbol))
        invariant fills == FillsOf(costs, Filter(pending[..i], OrderFor(symbol)), open, time)
      {
        var order := pending[i];
        FilterNext(pending, i, OrderNotFor(symbol));
        FilterNext(pending, i, OrderFor(symbol));
        FillsOfNext(costs, Filter(pending[..i], OrderFor(symbol)), order, open, time);
        if order.symbol != symbol {
          remaining := remaining + [order];
        } else {
          fills := fills + [FillOf(costs, order, open, time)];
        }
      }
      assert pending[..|pending|] == pending;
      pending := remaining;
      return Success(fills);
    }
  }
}
