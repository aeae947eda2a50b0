/** FIFO pairing of fills into round trips (metrics/performance.py `hit_rate`). */
module Fifo {
  import opened Collections
  import opened Market
  import opened CostBasis

  /** An open lot: signed quantity and entry price. */
  datatype Lot = Lot(qty: real, price: real)

  datatype Tally = Tally(trades: nat, wins: nat, pnl: real)

  const NO_TRADES: Tally := Tally(0, 0, 0.0)

  function Profit(lot: Lot, closed: real, price: real): real {
    (price - lot.price) * closed
  }

  function Count(t: Tally, pnl: real): Tally {
    Tally(t.trades + 1, t.wins + (if pnl > 0.0 then 1 else 0), t.pnl + pnl)
  }

  predicate Closes(lots: seq<Lot>, remaining: real) {
    lots != [] && remaining != 0.0 && (lots[0].qty > 0.0) != (remaining > 0.0)
  }

  /** The pairing loop: what is left of the lots and of the fill, and the trades closed. */
  function Pair(lots: seq<Lot>, remaining: real, price: real, t: Tally): (seq<Lot>, real, Tally)
    decreases |lots|
  {
    if !Closes(lots, remaining) then (lots, remaining, t)
    else
      var lot := lots[0];
      if Abs(remaining) >= Abs(lot.qty) then
        Pair(lots[1..], remaining + lot.qty, price, Count(t, Profit(lot, lot.qty, price)))
      else
        ([Lot(lot.qty + remaining, lot.price)] + lots[1..], 0.0, Count(t, Profit(lot, -remaining, price)))
  }

  /** One fill of signed quantity: pair, then open a lot with what is left. */
  function Absorb(lots: seq<Lot>, signed: real, price: real, t: Tally): (seq<Lot>, Tally) {
    var (rest, left, t') := Pair(lots, signed, price, t);
    (if left != 0.0 then rest + [Lot(left, price)] else rest, t')
  }

  function LotQty(lots: seq<Lot>): real {
    if lots == [] then 0.0 else lots[0].qty + LotQty(lots[1..])
  }

  function LotCost(lots: seq<Lot>): real {
    if lots == [] then 0.0 else Notional(lots[0].qty, lots[0].price) + LotCost(lots[1..])
  }

  predicate OneSided(lots: seq<Lot>) {
    (forall l :: l in lots ==> l.qty > 0.0) || (forall l :: l in lots ==> l.qty < 0.0)
  }

  /** The oldest lots go first: what is left is the newest end of the old queue, with at most
      its front lot reduced. */
  predicate NewestKept(rest: seq<Lot>, lots: seq<Lot>) {
    |rest| <= |lots| &&
    (rest != [] ==>
      var k := |lots| - |rest|;
      && rest[1..] == lots[k + 1..]
      && rest[0].price == lots[k].price
      && Abs(rest[0].qty) <= Abs(lots[k].qty)
      && (rest[0].qty > 0.0) == (lots[k].qty > 0.0))
  }

  // ------------------------------------------------------------- one fill

  lemma ProfitIsCostReleased(lot: Lot, closed: real, price: real)
    ensures Profit(lot, closed, price) == Notional(closed, price) - Notional(closed, lot.price)
  {
  }

  lemma {:induction false} PairBalances(lots: seq<Lot>, remaining: real, price: real, t: Tally)
    ensures var (rest, left, t') := Pair(lots, remaining, price, t);
      && LotQty(rest) + left == LotQty(lots) + remaining
      && LotCost(rest) + Notional(left, price) == LotCost(lots) + Notional(remaining, price) + (t'.pnl - t.pnl)
    decreases |lots|
  {
    hide Profit, Notional;
    if Closes(lots, remaining) {
      var lot := lots[0];
      if Abs(remaining) >= Abs(lot.qty) {
        PairBalances(lots[1..], remaining + lot.qty, price, Count(t, Profit(lot, lot.qty, price)));
        NotionalAdds(remaining, lot.qty, price);
        ProfitIsCostReleased(lot, lot.qty, price);
      } else {
        var cut := Lot(lot.qty + remaining, lot.price);
        assert ([cut] + lots[1..])[1..] == lots[1..];
        NotionalAdds(lot.qty, remaining, lot.price);
        NotionalAdds(remaining, 0.0, lot.price);
        NotionalAdds(remaining, 0.0, price);
        ProfitIsCostReleased(lot, -remaining, price);
      }
    }
  }

  lemma {:induction false} PairCounts(lots: seq<Lot>, remaining: real, price: real, t: Tally)
    requires t.wins <= t.trades
    ensures var t' := Pair(lots, remaining, price, t).2; t'.wins <= t'.trades && t.trades <= t'.trades
    decreases |lots|
  {
    hide Profit;
    if Closes(lots, remaining) && Abs(remaining) >= Abs(lots[0].qty) {
      PairCounts(lots[1..], remaining + lots[0].qty, price, Count(t, Profit(lots[0], lots[0].qty, price)));
    }
  }

  lemma {:induction false} PairShape(lots: seq<Lot>, remaining: real, price: real, t: Tally)
    requires OneSided(lots)
    ensures var (rest, left, t') := Pair(lots, remaining, price, t);
      && OneSided(rest) && NewestKept(rest, lots)
      && (left != 0.0 ==> (left > 0.0) == (remaining > 0.0) && (rest == [] || (rest[0].qty > 0.0) == (left > 0.0)))
    decreases |lots|
  {
    if Closes(lots, remaining) {
      var lot := lots[0];
      assert lot in lots;
      if Abs(remaining) >= Abs(lot.qty) {
        PairShape(lots[1..], remaining + lot.qty, price, Count(t, Profit(lot, lot.qty, price)));
        var (rest, left, t') := Pair(lots, remaining, price, t);
        KeptOfTail(rest, lots);
      } else {
        var rest := [Lot(lot.qty + remaining, lot.price)] + lots[1..];
        assert forall l :: l in rest ==> l == rest[0] || l in lots;
        assert rest[1..] == lots[1..];
      }
    }
  }

  lemma KeptOfTail(rest: seq<Lot>, lots: seq<Lot>)
    requires lots != [] && NewestKept(rest, lots[1..])
    ensures NewestKept(rest, lots)
  {
    var k := |lots[1..]| - |rest|;
    if rest != [] {
      assert lots[1..][k + 1..] == lots[k + 2..];
      assert lots[1..][k] == lots[k + 1];
    }
  }

  lemma {:induction false} LotSumsAppend(lots: seq<Lot>, l: Lot)
    ensures LotQty(lots + [l]) == LotQty(lots) + l.qty
    ensures LotCost(lots + [l]) == LotCost(lots) + Notional(l.qty, l.price)
  {
    hide Notional;
    if lots == [] {
      assert lots + [l] == [l];
    } else {
      assert (lots + [l])[1..] == lots[1..] + [l];
      LotSumsAppend(lots[1..], l);
    }
  }

  /** One fill keeps all open lots on one side, moves their sum by its quantity, and its matched
      profit is exactly cost released minus cash spent. */
  lemma AbsorbBalances(lots: seq<Lot>, signed: real, price: real, t: Tally)
    requires OneSided(lots) && t.wins <= t.trades
    ensures var (lots', t') := Absorb(lots, signed, price, t);
      && OneSided(lots')
      && LotQty(lots') == LotQty(lots) + signed
      && t'.pnl - t.pnl == LotCost(lots') - LotCost(lots) - Notional(signed, price)
      && t'.wins <= t'.trades
  {
    hide Notional, Pair, LotQty, LotCost;
    PairBalances(lots, signed, price, t);
    PairCounts(lots, signed, price, t);
    PairShape(lots, signed, price, t);
    NotionalAdds(0.0, 0.0, price);
    var (rest, left, t') := Pair(lots, signed, price, t);
    if left != 0.0 {
      LotSumsAppend(rest, Lot(left, price));
      NewLotSameSide(rest, Lot(left, price));
    }
  }

  lemma NewLotSameSide(rest: seq<Lot>, l: Lot)
    requires OneSided(rest) && l.qty != 0.0
    requires rest != [] ==> (rest[0].qty > 0.0) == (l.qty > 0.0)
    ensures OneSided(rest + [l])
  {
    if rest != [] {
      assert rest[0] in rest;
    }
    assert forall x :: x in rest + [l] ==> x in rest || x == l;
  }

  // ------------------------------------------------------------- one symbol

  datatype Trade = Trade(signed: real, price: real)

  function LotsAfter(trades: seq<Trade>): (seq<Lot>, Tally) {
    if trades == [] then ([], NO_TRADES)
    else
      var (lots, t) := LotsAfter(trades[..|trades| - 1]);
      var last := trades[|trades| - 1];
      Absorb(lots, last.signed, last.price, t)
  }

  function NetQty(trades: seq<Trade>): real {
    if trades == [] then 0.0 else NetQty(trades[..|trades| - 1]) + trades[|trades| - 1].signed
  }

  /** Cash received over the trades. */
  function CashFlow(trades: seq<Trade>): real {
    if trades == [] then 0.0
    else CashFlow(trades[..|trades| - 1]) - Notional(trades[|trades| - 1].signed, trades[|trades| - 1].price)
  }

  lemma StartOneSided()
    ensures OneSided([])
  {
  }

  /** For any trades of one symbol: the open lots share one side and sum to the net position,
      and matched profit is net cash flow plus the cost of what is still open. */
  lemma {:induction false} FifoConserves(trades: seq<Trade>)
    ensures var (lots, t) := LotsAfter(trades);
      && OneSided(lots) && LotQty(lots) == NetQty(trades)
      && t.pnl == CashFlow(trades) + LotCost(lots)
      && t.wins <= t.trades
  {
    hide Notional, Absorb, OneSided;
    StartOneSided();
    if trades != [] {
      var n := |trades| - 1;
      FifoConserves(trades[..n]);
      var (lots, t) := LotsAfter(trades[..n]);
      AbsorbBalances(lots, trades[n].signed, trades[n].price, t);
    }
  }

  lemma {:induction false} OneSidedEmptyWhenFlat(lots: seq<Lot>)
    requires OneSided(lots) && LotQty(lots) == 0.0
    ensures lots == []
  {
    if lots != [] {
      SideOfSum(lots);
    }
  }

  lemma {:induction false} SideOfSum(lots: seq<Lot>)
    requires lots != []
    ensures (forall l :: l in lots ==> l.qty > 0.0) ==> LotQty(lots) > 0.0
    ensures (forall l :: l in lots ==> l.qty < 0.0) ==> LotQty(lots) < 0.0
  {
    assert lots[0] in lots;
    if |lots| > 1 {
      SideOfSum(lots[1..]);
      assert forall l :: l in lots[1..] ==> l in lots;
    } else {
      assert lots[1..] == [];
    }
  }

  // ------------------------------------------------------------- all symbols

  datatype Pairing = Pairing(lots: map<string, seq<Lot>>, tally: Tally)

  function LotsOf(lots: map<string, seq<Lot>>, s: string): seq<Lot> {
    if s in lots then lots[s] else []
  }

  function PairFill(p: Pairing, f: Fill): Pairing {
    var (lots, t) := Absorb(LotsOf(p.lots, f.symbol), Signed(f.side, f.quantity), f.price, p.tally);
    Pairing(p.lots[f.symbol := lots], t)
  }

  function PairFills(fills: seq<Fill>): Pairing {
    if fills == [] then Pairing(map[], NO_TRADES)
    else PairFill(PairFills(fills[..|fills| - 1]), fills[|fills| - 1])
  }

  function HitRateOf(fills: seq<Fill>): real {
    var t := PairFills(fills).tally;
    if t.trades == 0 then 0.0 else t.wins as real / t.trades as real
  }

  method HitRate(fills: seq<Fill>) returns (rate: real)
    ensures rate == HitRateOf(fills)
  {
    hide PairFill;
    if fills == [] {
      return 0.0;
    }
    var openLots: map<string, seq<Lot>> := map[];
    var tally := NO_TRADES;
    for i := 0 to |fills|
      invariant Pairing(openLots, tally) == PairFills(fills[..i])
    {
      var f := fills[i];
      assert fills[..i + 1][..i] == fills[..i];
      openLots, tally := PairOne(openLots, tally, f);
    }
    assert fills[..|fills|] == fills;
    return if tally.trades != 0 then tally.wins as real / tally.trades as real else 0.0;
  }

  /** The inner loop of `hit_rate`: it ends because every pass removes a lot or exhausts the fill. */
  method PairOne(openLots: map<string, seq<Lot>>, tally: Tally, f: Fill)
    returns (openLots': map<string, seq<Lot>>, tally': Tally)
    ensures Pairing(openLots', tally') == PairFill(Pairing(openLots, tally), f)
  {
    hide Profit, Count;
    var lots := LotsOf(openLots, f.symbol);
    var remaining := Signed(f.side, f.quantity);
    tally' := tally;
    while lots != [] && remaining != 0.0 && (lots[0].qty > 0.0) != (remaining > 0.0)
      invariant Pair(lots, remaining, f.price, tally')
             == Pair(LotsOf(openLots, f.symbol), Signed(f.side, f.quantity), f.price, tally)
      decreases |lots|, if remaining != 0.0 then 1 else 0
    {
      var lot := lots[0];
      if Abs(remaining) >= Abs(lot.qty) {
        tally' := Count(tally', Profit(lot, lot.qty, f.price));
        remaining := remaining + lot.qty;
        lots := lots[1..];
      } else {
        tally' := Count(tally', Profit(lot, -remaining, f.price));
        lots := [Lot(lot.qty + remaining, lot.price)] + lots[1..];
        remaining := 0.0;
      }
    }
    if remaining != 0.0 {
      lots := lots + [Lot(remaining, f.price)];
    }
    openLots' := openLots[f.symbol := lots];
  }

  function FillFor(s: string): Fill -> bool {
    (f: Fill) => f.symbol == s
  }

  function TradesOf(fills: seq<Fill>): (ts: seq<Trade>)
    ensures |ts| == |fills|
  {
    seq(|fills|, i requires 0 <= i < |fills| => Trade(Signed(fills[i].side, fills[i].quantity), fills[i].price))
  }

  lemma {:induction false} LotsIgnoreTally(lots: seq<Lot>, remaining: real, price: real, t: Tally, u: Tally)
    ensures Pair(lots, remaining, price, t).0 == Pair(lots, remaining, price, u).0
    ensures Pair(lots, remaining, price, t).1 == Pair(lots, remaining, price, u).1
    decreases |lots|
  {
    hide Profit, Count;
    if Closes(lots, remaining) && Abs(remaining) >= Abs(lots[0].qty) {
      var pnl := Profit(lots[0], lots[0].qty, price);
      LotsIgnoreTally(lots[1..], remaining + lots[0].qty, price, Count(t, pnl), Count(u, pnl));
    }
  }

  /** In a mixed stream the lots of a symbol are those of its own fills, and the win rate is a
      fraction. */
  lemma {:induction false} SymbolsPairAlone(fills: seq<Fill>, s: string)
    ensures LotsOf(PairFills(fills).lots, s) == LotsAfter(TradesOf(Filter(fills, FillFor(s)))).0
    ensures PairFills(fills).tally.wins <= PairFills(fills).tally.trades
  {
    if fills != [] {
      hide Pair;
      var n := |fills| - 1;
      var f := fills[n];
      SymbolsPairAlone(fills[..n], s);
      FilterNext(fills, n, FillFor(s));
      assert fills[..n + 1] == fills;
      var mine := Filter(fills[..n], FillFor(s));
      var p := PairFills(fills[..n]);
      PairCounts(LotsOf(p.lots, f.symbol), Signed(f.side, f.quantity), f.price, p.tally);
      if f.symbol == s {
        LotsAfterNext(mine, f);
        LotsIgnoreTally(LotsOf(p.lots, s), Signed(f.side, f.quantity), f.price, p.tally, LotsAfter(TradesOf(mine)).1);
      } else {
        assert Filter(fills, FillFor(s)) == mine;
      }
    }
  }

  lemma LotsAfterNext(mine: seq<Fill>, f: Fill)
    ensures LotsAfter(TradesOf(mine + [f]))
         == var (lots, t) := LotsAfter(TradesOf(mine)); Absorb(lots, Signed(f.side, f.quantity), f.price, t)
  {
    hide Absorb;
    assert TradesOf(mine + [f])[..|mine|] == TradesOf(mine);
  }

  lemma HitRateIsAFraction(fills: seq<Fill>)
    ensures 0.0 <= HitRateOf(fills) <= 1.0
  {
    SymbolsPairAlone(fills, "");
    var t := PairFills(fills).tally;
    if t.trades != 0 {
      var q := t.wins as real / t.trades as real;
      assert q * t.trades as real == t.wins as real;
      CancelLeq(q, 1.0, t.trades as real);
      CancelLeq(0.0, q, t.trades as real);
    }
  }

  // ------------------------------------------------------------- FIFO against average cost

  /** The average-cost books over the same trades: basis, profit before fees, residuals. */
  function AverageAfter(trades: seq<Trade>): (Basis, real, real) {
    if trades == [] then (FLAT, 0.0, 0.0)
    else
      var (b, profit, drift) := AverageAfter(trades[..|trades| - 1]);
      var last := trades[|trades| - 1];
      var (b', realized) := BasisStep(b, last.signed, last.price);
      (b', profit + realized, drift + Residual(b, last.signed, last.price))
  }

  lemma {:induction false} AverageConserves(trades: seq<Trade>)
    ensures var (b, profit, drift) := AverageAfter(trades);
      && b.qty == NetQty(trades)
      && profit + drift == CashFlow(trades) + BookValue(b)
  {
    hide BasisStep, Residual, Notional, BookValue;
    FlatIsWorthless();
    if trades != [] {
      var n := |trades| - 1;
      AverageConserves(trades[..n]);
      StepConserves(AverageAfter(trades[..n]).0, trades[n]);
    }
  }

  lemma FlatIsWorthless()
    ensures BookValue(FLAT) == 0.0
  {
  }

  lemma StepConserves(b: Basis, last: Trade)
    ensures var (b', realized) := BasisStep(b, last.signed, last.price);
      && b'.qty == b.qty + last.signed
      && realized + Residual(b, last.signed, last.price) == BookValue(b') - BookValue(b) - Notional(last.signed, last.price)
  {
  }

  /** Two different accountings of the same trades agree once the position is flat: FIFO
      matched profit equals average-cost profit before fees, up to the dust residuals. */
  lemma FifoMeetsAverageCost(trades: seq<Trade>)
    requires NetQty(trades) == 0.0
    ensures LotsAfter(trades).0 == []
    ensures LotsAfter(trades).1.pnl == AverageAfter(trades).1 + AverageAfter(trades).2
  {
    FifoConserves(trades);
    AverageConserves(trades);
    OneSidedEmptyWhenFlat(LotsAfter(trades).0);
    var (b, profit, drift) := AverageAfter(trades);
    assert b.qty == 0.0 && BookValue(b) == 0.0;
  }

  /** The residual is zero when no trade crosses or leaves dust. */
  predicate CleanTrades(trades: seq<Trade>) {
    trades == [] ||
    (var last := trades[|trades| - 1];
     var b := AverageAfter(trades[..|trades| - 1]).0;
     last.signed != 0.0 && !DustCrossed(b, last.signed) && !DustLeft(b, last.signed)
     && CleanTrades(trades[..|trades| - 1]))
  }

  lemma {:induction false} CleanTradesExact(trades: seq<Trade>)
    requires CleanTrades(trades)
    ensures AverageAfter(trades).2 == 0.0
  {
    if trades != [] {
      hide Residual;
      var n := |trades| - 1;
      CleanTradesExact(trades[..n]);
      ExactIff(AverageAfter(trades[..n]).0, trades[n].signed, trades[n].price);
    }
  }
}
