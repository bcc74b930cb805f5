/** What prices orders fill at, what cash is left, and how a trailing stop moves. */
module FillLaws {
  import opened Numbers
  import opened Orders
  import opened Ledgers
  import opened Fills

  predicate WellFormedBar(bar: Bar) {
    bar.low <= bar.open <= bar.high
  }

  /** Unless slippage may leave the bar, every fill of every order type is a price the
      bar traded at. */
  lemma FillsInsideBar(o: Order, bar: Bar, s: Slippage)
    requires WellFormedBar(bar) && !s.out && FillPrice(o, bar, s).At?
    ensures bar.low <= FillPrice(o, bar, s).price <= bar.high
  {
    TriggersInsideBar(o, bar);
  }

  lemma TriggersInsideBar(o: Order, bar: Bar)
    requires WellFormedBar(bar) && TriggerOf(o, bar).At?
    ensures bar.low <= TriggerOf(o, bar).price <= bar.high
  {
  }

  /** Without slippage an order with a limit fills at the limit or better. */
  lemma LimitOrBetter(o: Order, bar: Bar, s: Slippage)
    requires s.perc == 0.0 && s.fixed == 0.0 && WellFormedBar(bar)
    requires LimitType(o.terms.typ) && FillPrice(o, bar, s).At?
    ensures if o.terms.side == Buy then FillPrice(o, bar, s).price <= o.terms.price else FillPrice(o, bar, s).price >= o.terms.price
  {
    TriggersInsideBar(o, bar);
  }

  predicate Within(bar: Bar, p: real) {
    bar.low <= p <= bar.high
  }

  /** The level at which a stop order wakes up; an order of another type is always awake. */
  predicate Wakes(o: Order, p: real) {
    match o.terms.typ
    case Market | Limit => true
    case Stop | StopLimit => o.terms.stopPrice.Some? && Beyond(o.terms.side, o.terms.stopPrice.value, p)
    case StopTrail | StopTrailLimit => o.trailStopPrice != 0.0 && Beyond(o.terms.side, o.trailStopPrice, p)
  }

  predicate Beyond(side: Side, level: real, p: real) {
    if side == Buy then p >= level else p <= level
  }

  /** The prices the owner of an order agrees to. */
  predicate Acceptable(o: Order, p: real) {
    match o.terms.typ
    case Market => true
    case Limit | StopLimit | StopTrailLimit => if o.terms.side == Buy then p <= o.terms.price else p >= o.terms.price
    case Stop | StopTrail => Wakes(o, p)
  }

  predicate Unslipped(s: Slippage) {
    s.perc == 0.0 && s.fixed == 0.0
  }

  /** What all six order types have in common: without slippage an order fills exactly if the
      bar trades at a price that wakes it and at one that is acceptable, and then at the
      acceptable price nearest to the open. */
  lemma FillsNearestToOpen(o: Order, bar: Bar, s: Slippage)
    requires WellFormedBar(bar) && Unslipped(s)
    ensures var t := FillPrice(o, bar, s);
            && (t.Malformed? <==> o.terms.typ in {Stop, StopLimit} && o.terms.stopPrice == None)
            && (t.At? <==> (exists p :: Within(bar, p) && Wakes(o, p)) && (exists q :: Within(bar, q) && Acceptable(o, q)))
            && (t.At? ==> Within(bar, t.price) && Acceptable(o, t.price))
            && (t.At? ==> forall q :: Within(bar, q) && Acceptable(o, q) ==> Abs(t.price - bar.open) <= Abs(q - bar.open))
  {
    if TriggerOf(o, bar).At? {
      TriggersInsideBar(o, bar);
    }
    assert FillPrice(o, bar, s) == TriggerOf(o, bar);
    assert Within(bar, bar.low) && Within(bar, bar.high) && Within(bar, bar.open);
    var far := if o.terms.side == Buy then bar.high else bar.low;
    var good := if o.terms.side == Buy then bar.low else bar.high;
    assert (exists p :: Within(bar, p) && Wakes(o, p)) ==> Wakes(o, far);
    assert (exists q :: Within(bar, q) && Acceptable(o, q)) ==> Acceptable(o, if LimitType(o.terms.typ) then good else far);
  }

  lemma SlipAdds(price: real, rate: real)
    requires price >= 0.0 && rate >= 0.0
    ensures price * (1.0 + rate) >= price && price * (1.0 - rate) <= price
  {
    ProductNonNegative(price, rate);
    assert price * (1.0 + rate) == price + price * rate && price * (1.0 - rate) == price - price * rate;
  }

  /** Slippage never improves a price, and never makes an order fill that would not. */
  lemma SlippageIsAdverse(o: Order, bar: Bar, s: Slippage)
    requires WellFormedBar(bar) && bar.low >= 0.0 && s.perc >= 0.0 && s.fixed >= 0.0 && FillPrice(o, bar, s).At?
    ensures TriggerOf(o, bar).At?
    ensures var p, raw := FillPrice(o, bar, s).price, TriggerOf(o, bar).price;
            if o.terms.side == Buy then p >= raw else p <= raw
  {
    hide TriggerOf, Slip;
    TriggersInsideBar(o, bar);
    SlipIsAdverse(TriggerOf(o, bar).price, o.terms.side, bar, s);
  }

  lemma SlipIsAdverse(price: real, side: Side, bar: Bar, s: Slippage)
    requires bar.low <= price <= bar.high && price >= 0.0 && s.perc >= 0.0 && s.fixed >= 0.0
    ensures var r := Slip(price, side, bar, s);
            r.Some? ==> if side == Buy then r.value >= price else r.value <= price
  {
    var up, down := price * (1.0 + s.perc), price * (1.0 - s.perc);
    assert up >= price && down <= price by {
      SlipAdds(price, s.perc);
    }
    assert s.perc != 0.0 ==> price * (if side == Buy then 1.0 + s.perc else 1.0 - s.perc) == if side == Buy then up else down;
  }

  /** An order that triggers is refused exactly if it is a buy that would overdraw the cash,
      and otherwise completes. */
  lemma MarginIff(o: Order, bar: Bar, cfg: Config, barIndex: nat, l: Ledger)
    requires o.Alive() && FillPrice(o, bar, cfg.slip).At?
    ensures var price := FillPrice(o, bar, cfg.slip).price;
            var f := ToFill(o, price, cfg.commission.Calculate(o.terms.size, price), barIndex, bar.time);
            var a := TryFill(o, bar, cfg, barIndex, l);
            && a.order.status == (if o.terms.side == Buy && Post(l, f).cash < 0.0 then Margin else Completed)
            && a.ledger == if a.order.status == Completed then Post(l, f) else l
  {
    hide FillPrice, Post, CommissionInfo.Calculate;
    var price := FillPrice(o, bar, cfg.slip).price;
    CashOfPost(l, ToFill(o, price, cfg.commission.Calculate(o.terms.size, price), barIndex, bar.time));
  }

  /** A percentage commission without a minimum never exceeds the notional. */
  predicate CappedCommission(c: CommissionInfo) {
    c.typ == Percentage && 0.0 <= c.rate <= 1.0 && c.minimum <= 0.0
  }

  lemma ProductNonNegative(x: real, y: real)
    requires x >= 0.0 && y >= 0.0
    ensures x * y >= 0.0
  {
  }

  lemma CommissionCapped(c: CommissionInfo, size: real, price: real)
    requires CappedCommission(c) && size >= 0.0 && price >= 0.0
    ensures 0.0 <= c.Calculate(size, price) <= size * price
  {
    var notional := size * price;
    ProductNonNegative(size, price);
    ProductNonNegative(notional, c.rate);
    ProductNonNegative(notional, 1.0 - c.rate);
    assert notional * (1.0 - c.rate) == notional - notional * c.rate;
  }

  /** One attempt to fill never leaves the account overdrawn: a buy is checked against
      the cash, a sale brings in at least its commission. */
  lemma FillSolvent(o: Order, bar: Bar, cfg: Config, barIndex: nat, l: Ledger)
    requires l.cash >= 0.0 && o.terms.size > 0.0 && WellFormedBar(bar) && bar.low >= 0.0
    requires CappedCommission(cfg.commission) && !cfg.slip.out
    ensures TryFill(o, bar, cfg, barIndex, l).ledger.cash >= 0.0
  {
    hide FillPrice, Post, CommissionInfo.Calculate;
    var t := FillPrice(o, bar, cfg.slip);
    if t.At? {
      FillsInsideBar(o, bar, cfg.slip);
      CommissionCapped(cfg.commission, o.terms.size, t.price);
      var comm := cfg.commission.Calculate(o.terms.size, t.price);
      CashOfPost(l, ToFill(o, t.price, comm, barIndex, bar.time));
      SaleBringsIn(o.terms.size, t.price);
    }
  }

  lemma SaleBringsIn(size: real, price: real)
    ensures (-size) * price == -(size * price)
  {
  }

  lemma CashOfPost(l: Ledger, f: Fill)
    ensures Post(l, f).cash == l.cash - (f.size * f.price + f.commission)
  {
  }

  // ---------------------------------------------------------- trailing stop

  /** A trailing order over a run of bars on which it does not fill, as the broker drives it. */
  function TrailRun(o: Order, bars: seq<Bar>): Order {
    if bars == [] then o else Trailed(TrailRun(o, bars[..|bars| - 1]), bars[|bars| - 1])
  }

  /** The best level the bars proposed: the highest for a sell, the lowest for a buy. */
  predicate IsBestLevel(o: Order, bars: seq<Bar>, level: real) {
    && (exists i :: 0 <= i < |bars| && level == TrailLevel(o, bars[i]))
    && (forall i :: 0 <= i < |bars| ==>
          if o.terms.side == Sell then TrailLevel(o, bars[i]) <= level else level <= TrailLevel(o, bars[i]))
  }

  predicate NoZeroLevel(o: Order, bars: seq<Bar>) {
    forall i :: 0 <= i < |bars| ==> TrailLevel(o, bars[i]) != 0.0
  }

  /** `a` is nearer to the market than `b`, for the side of the order. */
  predicate Better(side: Side, a: real, b: real) {
    if side == Sell then a > b else a < b
  }

  /** The best level, as a fold of its own. */
  function BestLevel(o: Order, bars: seq<Bar>): real
    requires bars != []
  {
    var last := TrailLevel(o, bars[|bars| - 1]);
    if |bars| == 1 then last
    else
      var best := BestLevel(o, bars[..|bars| - 1]);
      if Better(o.terms.side, last, best) then last else best
  }

  lemma {:induction false} BestLevelIs(o: Order, bars: seq<Bar>, level: real)
    requires bars != []
    ensures IsBestLevel(o, bars, level) <==> level == BestLevel(o, bars)
  {
    hide TrailLevel;
    var n := |bars| - 1;
    var best := BestLevel(o, bars);
    if n > 0 {
      var init := bars[..n];
      BestLevelIs(o, init, BestLevel(o, init));
      assert forall j :: 0 <= j < n ==> bars[j] == init[j];
      var i :| 0 <= i < n && BestLevel(o, init) == TrailLevel(o, init[i]);
      assert best == TrailLevel(o, bars[if Better(o.terms.side, TrailLevel(o, bars[n]), BestLevel(o, init)) then n else i]);
    }
    assert IsBestLevel(o, bars, best);
  }

  /** The stop after a run of bars, next to the best level: they agree unless the best level
      is zero, which the code reads as "no stop yet"; then the stop restarts at the next level,
      and is zero again only right after a bar that proposes zero. */
  lemma {:induction false} StopAndBest(o: Order, bars: seq<Bar>)
    requires o.trailStopPrice == 0.0 && bars != []
    ensures var p := TrailRun(o, bars);
            var best := BestLevel(o, bars);
            && p == o.(trailStopPrice := p.trailStopPrice)
            && (best != 0.0 ==> p.trailStopPrice == best)
            && (best == 0.0 ==> (p.trailStopPrice == 0.0 <==> TrailLevel(o, bars[|bars| - 1]) == 0.0))
            && (best == 0.0 && p.trailStopPrice != 0.0 ==> Better(o.terms.side, 0.0, p.trailStopPrice))
  {
    hide TrailLevel;
    var n := |bars| - 1;
    var init := bars[..n];
    if n > 0 {
      StopAndBest(o, init);
    } else {
      assert TrailRun(o, init) == o;
    }
    LevelIgnoresStop(o, TrailRun(o, init), bars[n]);
  }

  /** Exactly when the stop after a run of bars is the best level of the run: unless the best
      level is zero and the last bar proposes another. */
  lemma TrailIsFoldIff(o: Order, bars: seq<Bar>)
    requires o.trailStopPrice == 0.0 && bars != []
    ensures IsBestLevel(o, bars, TrailRun(o, bars).trailStopPrice) <==>
            !(IsBestLevel(o, bars, 0.0) && TrailLevel(o, bars[|bars| - 1]) != 0.0)
  {
    hide TrailLevel, TrailRun, IsBestLevel, BestLevel;
    StopAndBest(o, bars);
    BestLevelIs(o, bars, TrailRun(o, bars).trailStopPrice);
    BestLevelIs(o, bars, 0.0);
  }

  /** In particular if no bar proposes zero. */
  lemma TrailIsFold(o: Order, bars: seq<Bar>)
    requires o.trailStopPrice == 0.0 && bars != [] && NoZeroLevel(o, bars)
    ensures IsBestLevel(o, bars, TrailRun(o, bars).trailStopPrice)
    ensures TrailRun(o, bars) == o.(trailStopPrice := TrailRun(o, bars).trailStopPrice)
  {
    hide TrailLevel, TrailRun;
    TrailIsFoldIff(o, bars);
    StopAndBest(o, bars);
  }

  /** When a bar proposes zero: its extreme price equals the distance of a sell, or its
      opposite for a buy, or it is zero itself and the distance a share of it. */
  lemma ZeroLevelIff(o: Order, bar: Bar)
    ensures var current := if o.terms.side == Buy then bar.low else bar.high;
            TrailLevel(o, bar) == 0.0 <==>
            if o.terms.trailPercent > 0.0 then current == 0.0 || (o.terms.side == Sell && o.terms.trailPercent == 1.0)
            else current == if o.terms.side == Sell then o.terms.trailAmount else -o.terms.trailAmount
  {
    var current := if o.terms.side == Buy then bar.low else bar.high;
    var share := o.terms.trailPercent;
    if share > 0.0 {
      var factor := if o.terms.side == Sell then 1.0 - share else 1.0 + share;
      Distributes(current, share);
      assert TrailLevel(o, bar) == current * factor;
      ZeroProduct(current, factor);
    }
  }

  lemma Distributes(x: real, share: real)
    ensures x * (1.0 - share) == x - x * share && x * (1.0 + share) == x + x * share
  {
  }

  lemma ZeroProduct(x: real, y: real)
    ensures x * y == 0.0 <==> x == 0.0 || y == 0.0
  {
    if x != 0.0 && x * y == 0.0 {
      assert y == (x * y) / x;
    }
  }

  /** A positive price, and a distance that is below it for a sell and not negative for a buy. */
  predicate SaneDistance(o: Order, bar: Bar) {
    if o.terms.side == Buy then bar.low > 0.0 && o.terms.trailAmount >= 0.0
    else bar.high > 0.0 && if o.terms.trailPercent > 0.0 then o.terms.trailPercent < 1.0 else o.terms.trailAmount < bar.high
  }

  /** Positive prices and distances below them propose no zero level, so the law holds. */
  lemma SaneDistancesFold(o: Order, bars: seq<Bar>)
    requires o.trailStopPrice == 0.0 && bars != [] && forall i :: 0 <= i < |bars| ==> SaneDistance(o, bars[i])
    ensures NoZeroLevel(o, bars) && IsBestLevel(o, bars, TrailRun(o, bars).trailStopPrice)
  {
    hide TrailLevel, TrailRun, IsBestLevel;
    forall i | 0 <= i < |bars| ensures TrailLevel(o, bars[i]) != 0.0 {
      ZeroLevelIff(o, bars[i]);
    }
    TrailIsFold(o, bars);
  }

  lemma LevelIgnoresStop(o: Order, p: Order, bar: Bar)
    requires p == o.(trailStopPrice := p.trailStopPrice)
    ensures TrailLevel(p, bar) == TrailLevel(o, bar)
  {
  }

  /** One more bar moves the stop towards the market or leaves it, unless the stop is zero
      and the bar proposes a level behind zero. */
  lemma TrailRatchets(o: Order, bars: seq<Bar>, bar: Bar)
    requires o.trailStopPrice == 0.0 && bars != []
    ensures var s, t := TrailRun(o, bars).trailStopPrice, TrailRun(o, bars + [bar]).trailStopPrice;
            Better(o.terms.side, s, t) <==> s == 0.0 && Better(o.terms.side, 0.0, TrailLevel(o, bar))
  {
    hide TrailLevel;
    StopAndBest(o, bars);
    LevelIgnoresStop(o, TrailRun(o, bars), bar);
    assert (bars + [bar])[..|bars|] == bars;
  }

  /** A run in which the best level is zero, and forgotten by the next bar. */
  lemma ZeroLevelIsForgotten()
    ensures exists o: Order, bars: seq<Bar> ::
              && o.terms.typ == StopTrail && o.terms.side == Sell && o.terms.trailAmount > 0.0 && o.trailStopPrice == 0.0
              && bars != [] && (forall i :: 0 <= i < |bars| ==> WellFormedBar(bars[i]))
              && !IsBestLevel(o, bars, TrailRun(o, bars).trailStopPrice)
  {
    var o := Order(1, Terms(StopTrail, Sell, 1.0, 0.0, None, 0, 0, None, 5.0, 0.0, 0, 0), [], Accepted, NOT_EXECUTED, 0.0, true);
    var b0 := Bar(0, 5.0, 5.0, 5.0, 5.0);
    var b1 := Bar(1, 4.0, 4.0, 4.0, 4.0);
    var bars := [b0, b1];
    assert bars[..1] == [b0];
    assert [b0][..0] == [];
    assert TrailRun(o, []) == o;
    assert TrailRun(o, [b0]).trailStopPrice == 0.0;
    assert TrailRun(o, bars).trailStopPrice == -1.0;
    assert TrailLevel(o, bars[0]) == 0.0;
  }

  /** Without slippage a trailing stop triggers on a bar exactly if the bar crosses the
      best level of the bars strictly before it, that level not being zero. */
  lemma TrailTriggers(o: Order, bars: seq<Bar>, bar: Bar, s: Slippage)
    requires o.terms.typ == StopTrail && o.trailStopPrice == 0.0 && bars != [] && !IsBestLevel(o, bars, 0.0)
    requires s.perc == 0.0 && s.fixed == 0.0 && WellFormedBar(bar)
    ensures FillPrice(TrailRun(o, bars), bar, s).At? <==>
            if o.terms.side == Sell then exists i :: 0 <= i < |bars| && bar.low <= TrailLevel(o, bars[i])
            else exists i :: 0 <= i < |bars| && bar.high >= TrailLevel(o, bars[i])
  {
    TrailIsFoldIff(o, bars);
    StopAndBest(o, bars);
    var p := TrailRun(o, bars);
    if TriggerOf(p, bar).At? {
      TriggersInsideBar(p, bar);
    }
    var k :| 0 <= k < |bars| && p.trailStopPrice == TrailLevel(o, bars[k]);
    assert p.trailStopPrice != 0.0;
    assert FillPrice(p, bar, s).At? <==> StopCrossed(o.terms.side, p.trailStopPrice, bar);
  }
}
