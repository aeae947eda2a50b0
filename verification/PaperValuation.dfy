/** What the paper engine marks, records and journals, said of bars, fills and closes
    (paper/engine.py `_process_bar_group`, `_settle_fill`). */
module PaperValuation {
  import opened Collections
  import opened Market
  import opened Source
  import opened Desk
  import opened Backtest
  import opened Valuation
  import opened CostBasis
  import opened Strategies
  import opened PaperState
  import opened PaperRefinement
  import opened PaperHalts

  /** A completed group marks each of its symbols at the close of that symbol's last bar, leaves
      every other mark alone, and records one equity point: cash, plus each holding at that close,
      or at its old mark when the group has no bar of its symbol. */
  lemma GroupIsMarkedAtCloses(p: Paper, cfg: PaperConfig, g: seq<Bar>, wall: int)
    requires g != [] && OpensPositive(g) && BundlesOk(cfg.bundles)
    ensures var d := ProcessGroup(p, cfg, g, wall).0.desk;
      && (forall s, k: nat :: LastOf(g, s, k) ==> s in d.marks && d.marks[s] == g[k].close)
      && (forall s :: (forall b :: b in g ==> b.symbol != s) ==> MarkOf(d.marks, s) == MarkOf(p.desk.marks, s))
      && d.account.curve == p.desk.account.curve
           + [EquityPoint(g[0].time + StepOf(cfg.interval), d.account.cash + BookWorth(d.account.book, Price(p.desk.marks, g)))]
  {
    hide MarkedPaper, CloseStep, DecidePaper, PaperView, Worth, LastClose, Finish, StepOf;
    var w, close := WorldOf(cfg, []), g[0].time + StepOf(cfg.interval);
    var m := MarkedPaper(p, cfg, g, wall);
    MarkedDesk(p, cfg, g, wall);
    DecisionsReach(m, cfg, PaperView(m, cfg, close), g, wall);
    FinishKeeps(DecidePaper(m, cfg, PaperView(m, cfg, close), g, wall), cfg, close, wall);
    ClosePoint(w, p.desk, g);
    forall s ensures (forall k: nat :: LastOf(g, s, k) ==> s in m.desk.marks && m.desk.marks[s] == g[k].close)
                     && ((forall b :: b in g ==> b.symbol != s) ==> MarkOf(m.desk.marks, s) == MarkOf(p.desk.marks, s))
    {
      CloseMarks(w, p.desk, g, s);
    }
  }

  /** Below a trillionth a position counts as flat. */
  predicate Dusty(q: real) {
    1000000000000.0 * Abs(q) < 1.0
  }

  predicate Sizable(q: real) {
    1000000000000.0 * Abs(q) > 1.0
  }

  /** The line a fill leaves in the journal: the fill itself, the position before and after, the
      profit it took and the total so far, what the account is worth after it at the marks before
      the close, and which kind of move it was. */
  lemma FillIsTold(p: Paper, f: Fill, wall: int)
    ensures var q := SettleFill(p, f, wall);
      && |q.journal| == |p.journal| + 1 && q.journal[..|p.journal|] == p.journal
      && var e := q.journal[|p.journal|];
      && e.wall == wall && e.event.FillEvent?
      && var x := e.event;
      && x.symbol == f.symbol && x.side == f.side && x.quantity == f.quantity && x.price == f.price && x.fee == f.fee
      && x.prevQty == QtyOf(p.desk.account.book, f.symbol) && x.newQty == QtyOf(q.desk.account.book, f.symbol)
      && x.newQty - x.prevQty == (if f.side.Buy? then f.quantity else -f.quantity)
      && x.realized == q.realized - p.realized && x.cumulative == q.realized
      && x.equity == q.desk.account.cash + BookWorth(q.desk.account.book, Price(p.desk.marks, []))
      && (x.kind.Open? <==> Dusty(x.prevQty) && Sizable(x.newQty))
      && (x.kind.Exit? <==> Sizable(x.prevQty) && Dusty(x.newQty))
      && (x.kind.Reverse? <==> !x.kind.Open? && !x.kind.Exit? && (x.prevQty > 0.0 > x.newQty || x.prevQty < 0.0 < x.newQty))
  {
    hide BasisStep, HeldValue, Worth;
    var q := SettleFill(p, f, wall);
    var x := q.journal[|p.journal|].event;
    HeldIsWorth(q.desk.account.book.symbols, q.desk.account.book.qty, p.desk.marks, Price(p.desk.marks, []));
    OppositeIff(x.prevQty, x.newQty);
  }

  lemma OppositeIff(a: real, b: real)
    ensures Opposite(a, b) <==> a > 0.0 > b || a < 0.0 < b
  {
    ProductSign(a, b);
  }
}
