/** What `hit_rate` counts: the pieces in which fills close the oldest lots, each with the price it
    was entered and left at (metrics/performance.py). */
module RoundTrips {
  import opened Collections
  import opened Market
  import opened Fifo

  /** A closed quantity, positive when it was held long, with its entry and exit price. */
  datatype Piece = Piece(qty: real, entry: real, exit: real)

  function Earned(p: Piece): real {
    (p.exit - p.entry) * p.qty
  }

  function Won(): Piece -> bool {
    (p: Piece) => Earned(p) > 0.0
  }

  /** What one fill closes, oldest lot first. */
  function Matched(lots: seq<Lot>, remaining: real, price: real): seq<Piece>
    decreases |lots|
  {
    if !Closes(lots, remaining) then []
    else if Abs(remaining) < Abs(lots[0].qty) then [Piece(-remaining, lots[0].price, price)]
    else [Piece(lots[0].qty, lots[0].price, price)] + Matched(lots[1..], remaining + lots[0].qty, price)
  }

  function ClosedQty(pieces: seq<Piece>): real {
    if pieces == [] then 0.0 else pieces[0].qty + ClosedQty(pieces[1..])
  }

  function TotalEarned(pieces: seq<Piece>): real {
    if pieces == [] then 0.0 else Earned(pieces[0]) + TotalEarned(pieces[1..])
  }

  predicate SameSide(x: real, y: real) {
    (x > 0.0 && y > 0.0) || (x < 0.0 && y < 0.0)
  }

  /** How much of a position a fill closes: the smaller of the two, when they point apart. */
  function Closable(held: real, signed: real): real {
    if !SameSide(held, -signed) then 0.0
    else if Abs(signed) < Abs(held) then -signed
    else held
  }

  lemma {:induction false} SumIsOneSided(lots: seq<Lot>)
    requires OneSided(lots) && lots != []
    ensures SameSide(LotQty(lots), lots[0].qty) && Abs(LotQty(lots)) >= Abs(lots[0].qty)
  {
    assert lots[0] in lots;
    if |lots| > 1 {
      assert lots[1] in lots && forall l :: l in lots[1..] ==> l in lots;
      SumIsOneSided(lots[1..]);
    } else {
      assert lots[1..] == [];
    }
  }

  /** Piece `k` comes out of lot `k`, whole unless it is the last, and is left at this price. */
  ghost predicate FromLots(pieces: seq<Piece>, lots: seq<Lot>, price: real) {
    && |pieces| <= |lots|
    && forall k :: 0 <= k < |pieces| ==>
         && pieces[k].entry == lots[k].price && pieces[k].exit == price
         && SameSide(pieces[k].qty, lots[k].qty) && Abs(pieces[k].qty) <= Abs(lots[k].qty)
         && (k < |pieces| - 1 ==> pieces[k].qty == lots[k].qty)
  }

  lemma {:induction false} MatchedInOrder(lots: seq<Lot>, remaining: real, price: real)
    requires OneSided(lots)
    ensures FromLots(Matched(lots, remaining, price), lots, price)
    decreases |lots|
  {
    if Closes(lots, remaining) {
      var lot := lots[0];
      assert lot in lots;
      if Abs(remaining) >= Abs(lot.qty) {
        var pieces := Matched(lots[1..], remaining + lot.qty, price);
        MatchedInOrder(lots[1..], remaining + lot.qty, price);
        forall k | 0 < k < 1 + |pieces|
          ensures var x := ([Piece(lot.qty, lot.price, price)] + pieces)[k]; x == pieces[k - 1] && lots[k] == lots[1..][k - 1]
        {
        }
      }
    }
  }

  lemma {:induction false} MatchedCloses(lots: seq<Lot>, remaining: real, price: real)
    requires OneSided(lots)
    ensures ClosedQty(Matched(lots, remaining, price)) == Closable(LotQty(lots), remaining)
    decreases |lots|
  {
    if lots != [] {
      var lot, rest := lots[0], lots[1..];
      assert lot in lots && forall l :: l in rest ==> l in lots;
      SumIsOneSided(lots);
      if Closes(lots, remaining) && Abs(remaining) >= Abs(lot.qty) {
        var pieces := Matched(rest, remaining + lot.qty, price);
        assert ([Piece(lot.qty, lot.price, price)] + pieces)[1..] == pieces;
        MatchedCloses(rest, remaining + lot.qty, price);
        if rest != [] {
          assert rest[0] in rest;
          SumIsOneSided(rest);
        }
      } else if Closes(lots, remaining) {
        assert [Piece(-remaining, lot.price, price)][1..] == [];
      }
    }
  }

  /** The pieces of a fill are the oldest lots in order, whole except the last, each left at the
      fill's price; together they close as much as position and fill have in common. */
  lemma MatchedIsFifo(lots: seq<Lot>, remaining: real, price: real)
    requires OneSided(lots)
    ensures FromLots(Matched(lots, remaining, price), lots, price)
    ensures ClosedQty(Matched(lots, remaining, price)) == Closable(LotQty(lots), remaining)
  {
    MatchedInOrder(lots, remaining, price);
    MatchedCloses(lots, remaining, price);
  }

  lemma PieceEarns(lot: Lot, qty: real, price: real)
    ensures Profit(lot, qty, price) == Earned(Piece(qty, lot.price, price))
  {
  }

  lemma {:induction false} PairTallies(lots: seq<Lot>, remaining: real, price: real, t: Tally)
    ensures var pieces := Matched(lots, remaining, price);
      Pair(lots, remaining, price, t).2
      == Tally(t.trades + |pieces|, t.wins + |Filter(pieces, Won())|, t.pnl + TotalEarned(pieces))
    decreases |lots|
  {
    hide Profit, Earned, Filter, TotalEarned, Won;
    NoPiece();
    if Closes(lots, remaining) {
      var lot := lots[0];
      if Abs(remaining) < Abs(lot.qty) {
        PieceEarns(lot, -remaining, price);
        OnePiece(Piece(-remaining, lot.price, price), []);
      } else {
        PieceEarns(lot, lot.qty, price);
        OnePiece(Piece(lot.qty, lot.price, price), Matched(lots[1..], remaining + lot.qty, price));
        PairTallies(lots[1..], remaining + lot.qty, price, Count(t, Profit(lot, lot.qty, price)));
      }
    }
  }

  lemma NoPiece()
    ensures Filter<Piece>([], Won()) == [] && TotalEarned([]) == 0.0
  {
  }

  lemma OnePiece(p: Piece, rest: seq<Piece>)
    ensures |Filter([p] + rest, Won())| == (if Earned(p) > 0.0 then 1 else 0) + |Filter(rest, Won())|
    ensures TotalEarned([p] + rest) == Earned(p) + TotalEarned(rest)
    ensures [p] + [] == [p]
  {
    FilterCons(p, rest, Won());
    assert ([p] + rest)[1..] == rest;
  }

  /** Everything the fills have closed, fill by fill, each against its own symbol's open lots. */
  function Pieces(fills: seq<Fill>): seq<Piece> {
    if fills == [] then []
    else
      var n := |fills| - 1;
      var f := fills[n];
      Pieces(fills[..n]) + Matched(LotsOf(PairFills(fills[..n]).lots, f.symbol), Signed(f.side, f.quantity), f.price)
  }

  lemma {:induction false} EarnedAppend(xs: seq<Piece>, ys: seq<Piece>)
    ensures TotalEarned(xs + ys) == TotalEarned(xs) + TotalEarned(ys)
  {
    if xs == [] {
      assert xs + ys == ys;
    } else {
      assert (xs + ys)[1..] == xs[1..] + ys;
      EarnedAppend(xs[1..], ys);
    }
  }

  lemma {:induction false} PiecesAreTallied(fills: seq<Fill>)
    ensures PairFills(fills).tally
      == Tally(|Pieces(fills)|, |Filter(Pieces(fills), Won())|, TotalEarned(Pieces(fills)))
  {
    if fills != [] {
      hide Pair, Matched, Filter, TotalEarned, Won;
      var n := |fills| - 1;
      var f := fills[n];
      var lots := LotsOf(PairFills(fills[..n]).lots, f.symbol);
      PiecesAreTallied(fills[..n]);
      PairTallies(lots, Signed(f.side, f.quantity), f.price, PairFills(fills[..n]).tally);
      var pieces := Matched(lots, Signed(f.side, f.quantity), f.price);
      FilterAppend(Pieces(fills[..n]), pieces, Won());
      EarnedAppend(Pieces(fills[..n]), pieces);
    } else {
      NoPiece();
    }
  }

  /** The hit rate is the share of the pieces that made money, and their profits are the matched
      profit. It is one exactly when there are pieces and all made money, zero exactly when none
      did. */
  lemma HitRateCountsWinners(fills: seq<Fill>)
    ensures var pieces := Pieces(fills);
      && HitRateOf(fills) == (if pieces == [] then 0.0 else |Filter(pieces, Won())| as real / |pieces| as real)
      && PairFills(fills).tally.pnl == TotalEarned(pieces)
      && (HitRateOf(fills) == 1.0 <==> pieces != [] && forall p :: p in pieces ==> (p.exit - p.entry) * p.qty > 0.0)
      && (HitRateOf(fills) == 0.0 <==> forall p :: p in pieces ==> (p.exit - p.entry) * p.qty <= 0.0)
  {
    hide Pieces, PairFills, Filter, TotalEarned;
    PiecesAreTallied(fills);
    var pieces := Pieces(fills);
    if pieces != [] {
      ShareBounds(|Filter(pieces, Won())|, |pieces|);
      WinnersAllOrNone(pieces);
    }
  }

  lemma ShareBounds(k: nat, n: nat)
    requires n > 0
    ensures k as real / n as real == 1.0 <==> k == n
    ensures k as real / n as real == 0.0 <==> k == 0
  {
    var q := k as real / n as real;
    assert q * n as real == k as real;
  }

  lemma {:induction false} WinnersAllOrNone(pieces: seq<Piece>)
    ensures |Filter(pieces, Won())| == |pieces| <==> forall p :: p in pieces ==> Won()(p)
    ensures |Filter(pieces, Won())| == 0 <==> forall p :: p in pieces ==> !Won()(p)
  {
    if pieces != [] {
      hide Won;
      WinnersAllOrNone(pieces[1..]);
      assert pieces == [pieces[0]] + pieces[1..];
      assert |Filter(pieces[1..], Won())| <= |pieces| - 1;
    }
  }
}
